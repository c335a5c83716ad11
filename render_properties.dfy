/**
 * What the renderer promises about the dataset it builds: every event it produces is
 * well shaped, the dataset is the succession statement followed by one block per event in
 * the newer version's graph, each change hangs on a fresh node of its own, and the SubClassOf,
 * equivalence, annotation and warning cases produce exactly what the writer's branches say.
 */
module RenderProperties {
  import opened Wrappers
  import opened Vocabulary
  import opened Rdf
  import opened Changes
  import opened ChangeEvents
  import opened RenderSpec
  import opened MaterializeProperties

  // ---------------------------------------------------------------- conformance

  lemma {:induction false} EquivalenceConform(c: Iri, ops: seq<ClassExpression>, added: bool)
    ensures AllConform(EquivalenceEvents(c, ops, added))
    decreases |ops|
  {
    if |ops| > 0 {
      var m := ops[|ops| - 1];
      EquivalenceConform(c, ops[..|ops| - 1], added);
      ConformAppend(EquivalenceEvents(c, ops[..|ops| - 1], added),
                    if NamedOperand(m) && m.iri != c then [TermEvent(c, EquivalenceKind(added), added, m.iri)] else []);
    }
  }

  lemma AxiomConform(c: Iri, ax: Axiom, added: bool)
    requires SubClassEndsNamed(c, ax)
    ensures AllConform(AxiomEvents(c, ax, added))
  {
    if ax.EquivalentClasses? {
      EquivalenceConform(c, ax.operands, added);
    }
  }

  lemma {:induction false} AxiomListConform(c: Iri, axs: seq<Axiom>, added: bool)
    requires AxiomsReadable(c, axs)
    ensures AllConform(AxiomListEvents(c, axs, added))
    decreases |axs|
  {
    if |axs| > 0 {
      var n := |axs| - 1;
      assert SubClassEndsNamed(c, axs[n]);
      AxiomListConform(c, axs[..n], added);
      AxiomConform(c, axs[n], added);
      ConformAppend(AxiomListEvents(c, axs[..n], added), AxiomEvents(c, axs[n], added));
    }
  }

  lemma {:induction false} AnnotationListConform(c: Iri, anns: seq<Annotation>, added: bool)
    requires LiteralValued(anns)
    ensures AllConform(AnnotationListEvents(c, anns, added))
    decreases |anns|
  {
    if |anns| > 0 {
      var n := |anns| - 1;
      assert anns[n].value.LiteralValue?;
      AnnotationListConform(c, anns[..n], added);
      ConformAppend(AnnotationListEvents(c, anns[..n], added), [AnnotationEvent(c, anns[n], added)]);
    }
  }

  lemma ClassConform(ci: ClassAxiomsInfo)
    requires ClassReadable(ci)
    ensures AllConform(ClassEvents(ci))
  {
    var e1 := AxiomListEvents(ci.iri, OrEmpty(ci.newAxioms), true);
    var e2 := AnnotationListEvents(ci.iri, OrEmpty(ci.newRawAnnotations), true);
    var e3 := AxiomListEvents(ci.iri, OrEmpty(ci.deletedAxioms), false);
    var e4 := AnnotationListEvents(ci.iri, OrEmpty(ci.deletedRawAnnotations), false);
    AxiomListConform(ci.iri, OrEmpty(ci.newAxioms), true);
    AnnotationListConform(ci.iri, OrEmpty(ci.newRawAnnotations), true);
    AxiomListConform(ci.iri, OrEmpty(ci.deletedAxioms), false);
    AnnotationListConform(ci.iri, OrEmpty(ci.deletedRawAnnotations), false);
    ConformAppend(e1, e2);
    ConformAppend(e1 + e2, e3);
    ConformAppend(e1 + e2 + e3, e4);
  }

  lemma {:induction false} ChangedConform(cis: seq<ClassAxiomsInfo>)
    requires AllReadable(cis)
    ensures AllConform(ChangedEvents(cis))
    decreases |cis|
  {
    if |cis| > 0 {
      var n := |cis| - 1;
      assert ClassReadable(cis[n]);
      ChangedConform(cis[..n]);
      ClassConform(cis[n]);
      ConformAppend(ChangedEvents(cis[..n]), ClassEvents(cis[n]));
    }
  }

  /** The events of new (or deleted) classes, position by position: one payload-free event per class. */
  lemma {:induction false} ClassListEventsAt(cis: seq<ClassAxiomsInfo>, kind: ChangeKind)
    ensures forall i :: 0 <= i < |cis| ==> ClassListEvents(cis, kind)[i] == Event(cis[i].iri, kind, [])
    decreases |cis|
  {
    if |cis| > 0 {
      var n := |cis| - 1;
      ClassListEventsAt(cis[..n], kind);
    }
  }

  lemma ClassListConform(cis: seq<ClassAxiomsInfo>, kind: ChangeKind)
    requires kind == Addition || kind == Deletion
    ensures AllConform(ClassListEvents(cis, kind))
  {
    ClassListEventsAt(cis, kind);
  }

  /** Every event of a renderable change set has the payload its change kind calls for. */
  lemma EventsConform(cs: OntologyChanges)
    requires Renderable(cs)
    ensures AllConform(Events(cs))
  {
    var e1 := ClassListEvents(OrEmpty(cs.newClasses), Addition);
    var e2 := ClassListEvents(OrEmpty(cs.deletedClasses), Deletion);
    var e3 := ChangedEvents(OrEmpty(cs.classesWithDifferences));
    ClassListConform(OrEmpty(cs.newClasses), Addition);
    ClassListConform(OrEmpty(cs.deletedClasses), Deletion);
    ChangedConform(OrEmpty(cs.classesWithDifferences));
    ConformAppend(e1, e2);
    ConformAppend(e1 + e2, e3);
  }

  // ---------------------------------------------------------------- the dataset

  /**
   * The dataset: the succession statement `o1: v:hasSuccessorVersion o2:` in the default graph,
   * then only statements in the `o2:` graph on the fresh nodes 0, ..., |events| - 1 (so the
   * succession link occurs once), no statement twice, and never newLabel, oldLabel or
   * annotationDatatype.
   */
  lemma RenderGraphs(cs: OntologyChanges)
    requires Renderable(cs)
    ensures Render(cs)[0] == Quad(IriTerm(cs.version1.value + "#"), HasSuccessorVersion,
                                  IriTerm(cs.version2.value + "#"), DefaultGraph)
    ensures Placed(Render(cs)[1..], NamedGraph(cs.version2.value + "#"), 0, |Events(cs)|)
    ensures Distinct(Render(cs))
    ensures forall k :: 0 <= k < |Render(cs)| ==>
              Render(cs)[k].p != NewLabel && Render(cs)[k].p != OldLabel && Render(cs)[k].p != AnnotationDatatype
  {
    var g := DiffGraph(cs);
    var m := Materialize(Events(cs), 0, g);
    var r := Render(cs);
    EventsConform(cs);
    MaterializePlaced(Events(cs), 0, g);
    VocabularyDistinct();
    assert r[1..] == m;
    forall k | 0 <= k < |r|
      ensures r[k].p != NewLabel && r[k].p != OldLabel && r[k].p != AnnotationDatatype
    {
      if k > 0 {
        assert OnNode(m[k - 1], g, 0, |Events(cs)|);
      }
    }
    forall i, j | 0 <= i < j < |r|
      ensures r[i] != r[j]
    {
      assert OnNode(m[j - 1], g, 0, |Events(cs)|);
      if i > 0 {
        assert r[i] == m[i - 1] && r[j] == m[j - 1];
      }
    }
  }

  /**
   * Change `i` of the change set is the `i`-th `hasChange` link, from its class to blank node `i`,
   * and the `i`-th type statement, giving node `i` its change kind.
   */
  lemma RenderLinks(cs: OntologyChanges)
    requires Renderable(cs)
    ensures Links(Render(cs), HasChange) == ChangeLinks(Events(cs), 0)
    ensures Links(Render(cs), RdfType) == TypeLinks(Events(cs), 0)
  {
    var m := Materialize(Events(cs), 0, DiffGraph(cs));
    VocabularyDistinct();
    EventsConform(cs);
    MaterializeLinks(Events(cs), 0, DiffGraph(cs));
    LinksSingle(SuccessionQuad(cs), HasChange);
    LinksSingle(SuccessionQuad(cs), RdfType);
    LinksAppend([SuccessionQuad(cs)], m, HasChange);
    LinksAppend([SuccessionQuad(cs)], m, RdfType);
  }

  // ---------------------------------------------------------------- SubClassOf axioms

  /**
   * A SubClassOf axiom gives exactly one event or one warning: a sub-term change when `c` is the
   * superclass (this test wins), a super-term change when `c` is only the subclass, a warning
   * otherwise. As written, the related term recorded is always `c` itself.
   */
  lemma SubClassDispatch(c: Iri, sub: ClassExpression, sup: ClassExpression, added: bool)
    requires SubClassEndsNamed(c, SubClassOf(sub, sup))
    ensures |AxiomEvents(c, SubClassOf(sub, sup), added)| + |AxiomWarnings(c, SubClassOf(sub, sup))| == 1
    ensures sup == NamedClass(c) ==> AxiomEvents(c, SubClassOf(sub, sup), added)[0].kind == SubTermKind(added)
    ensures sup != NamedClass(c) && sub == NamedClass(c) ==>
              AxiomEvents(c, SubClassOf(sub, sup), added)[0].kind == SuperTermKind(added)
    ensures AxiomWarnings(c, SubClassOf(sub, sup)) != [] <==> Unmatched(c, SubClassOf(sub, sup))
    ensures forall e :: e in AxiomEvents(c, SubClassOf(sub, sup), added) ==>
              e.subject == c && e.payload == [(TermProperty(added), IriTerm(c))]
  {
  }

  /** Axioms other than SubClassOf and EquivalentClasses produce neither statements nor warnings. */
  lemma OtherAxiomSilent(c: Iri, added: bool)
    ensures AxiomEvents(c, OtherAxiom, added) == [] && AxiomWarnings(c, OtherAxiom) == []
  {
  }

  // ---------------------------------------------------------------- equivalence axioms

  /** The named operands of an equivalence axiom other than `c` and the built-in owl:Thing and owl:Nothing, in order. */
  function OtherNamed(c: Iri, ops: seq<ClassExpression>): (r: seq<Iri>)
    ensures |r| <= |ops|
    ensures forall x :: x in r ==> x != c && x != OwlThing && x != OwlNothing && NamedClass(x) in ops
    ensures forall k :: 0 <= k < |ops| && ops[k].NamedClass? && ops[k].iri != OwlThing && ops[k].iri != OwlNothing && ops[k].iri != c ==> ops[k].iri in r
  {
    if |ops| == 0 then []
    else
      var m := ops[|ops| - 1];
      var r := OtherNamed(c, ops[..|ops| - 1]);
      assert forall k :: 0 <= k < |ops| - 1 ==> ops[..|ops| - 1][k] == ops[k];
      if m.NamedClass? && m.iri != OwlThing && m.iri != OwlNothing && m.iri != c then r + [m.iri] else r
  }

  /** `getNamedClasses()` leaves out the built-in classes: an equivalence of `c` with owl:Thing and owl:Nothing gives no event. */
  lemma BuiltInOperandsSilent(c: Iri, added: bool)
    ensures AxiomEvents(c, EquivalentClasses([NamedClass(c), NamedClass(OwlThing), NamedClass(OwlNothing)]), added) == []
  {
    var ops := [NamedClass(c), NamedClass(OwlThing), NamedClass(OwlNothing)];
    assert ops[..1] == [NamedClass(c)] && ops[..2] == [NamedClass(c), NamedClass(OwlThing)];
    EquivalenceSnoc(c, ops, 0, added);
    EquivalenceSnoc(c, ops, 1, added);
    EquivalenceSnoc(c, ops, 2, added);
    EquivalenceAll(c, ops, added);
    assert ops[..0] == [];
  }

  /**
   * An equivalence axiom fans out into one event per named operand other than `c`, in operand
   * order, each recording that operand as the related term.
   */
  lemma {:induction false} EquivalenceFanOut(c: Iri, ops: seq<ClassExpression>, added: bool)
    ensures |EquivalenceEvents(c, ops, added)| == |OtherNamed(c, ops)|
    ensures forall i :: 0 <= i < |OtherNamed(c, ops)| ==>
              EquivalenceEvents(c, ops, added)[i] == TermEvent(c, EquivalenceKind(added), added, OtherNamed(c, ops)[i])
    decreases |ops|
  {
    if |ops| > 0 {
      EquivalenceFanOut(c, ops[..|ops| - 1], added);
    }
  }

  /** Both directions: an event names a named operand other than `c`, and every such operand is named by an event. */
  lemma EquivalenceMembers(c: Iri, ops: seq<ClassExpression>, added: bool)
    ensures forall e :: e in EquivalenceEvents(c, ops, added) ==>
              exists x :: x in OtherNamed(c, ops) && e == TermEvent(c, EquivalenceKind(added), added, x)
    ensures forall k :: 0 <= k < |ops| && ops[k].NamedClass? && ops[k].iri != OwlThing && ops[k].iri != OwlNothing && ops[k].iri != c ==>
              TermEvent(c, EquivalenceKind(added), added, ops[k].iri) in EquivalenceEvents(c, ops, added)
  {
    var evs := EquivalenceEvents(c, ops, added);
    var others := OtherNamed(c, ops);
    EquivalenceFanOut(c, ops, added);
    forall e | e in evs
      ensures exists x :: x in others && e == TermEvent(c, EquivalenceKind(added), added, x)
    {
      var i :| 0 <= i < |evs| && evs[i] == e;
      assert others[i] in others;
    }
    forall k | 0 <= k < |ops| && ops[k].NamedClass? && ops[k].iri != OwlThing && ops[k].iri != OwlNothing && ops[k].iri != c
      ensures TermEvent(c, EquivalenceKind(added), added, ops[k].iri) in evs
    {
      var i :| 0 <= i < |others| && others[i] == ops[k].iri;
      assert evs[i] == TermEvent(c, EquivalenceKind(added), added, ops[k].iri);
    }
  }

  // ---------------------------------------------------------------- counting the changes

  /** How many changes an axiom of `c` accounts for, counted from the axiom alone. */
  function AxiomCount(c: Iri, ax: Axiom): nat
  {
    match ax
    case SubClassOf(sub, sup) => if sup == NamedClass(c) || sub == NamedClass(c) then 1 else 0
    case EquivalentClasses(ops) => |OtherNamed(c, ops)|
    case OtherAxiom => 0
  }

  function AxiomsCount(c: Iri, axs: seq<Axiom>): nat
  {
    if |axs| == 0 then 0 else AxiomsCount(c, axs[..|axs| - 1]) + AxiomCount(c, axs[|axs| - 1])
  }

  function ClassCount(ci: ClassAxiomsInfo): nat
  {
    AxiomsCount(ci.iri, OrEmpty(ci.newAxioms)) + |OrEmpty(ci.newRawAnnotations)|
    + AxiomsCount(ci.iri, OrEmpty(ci.deletedAxioms)) + |OrEmpty(ci.deletedRawAnnotations)|
  }

  function ChangedCount(cis: seq<ClassAxiomsInfo>): nat
  {
    if |cis| == 0 then 0 else ChangedCount(cis[..|cis| - 1]) + ClassCount(cis[|cis| - 1])
  }

  /** New classes, deleted classes, and per changed class its matched SubClassOf axioms, other equivalents and annotations. */
  function ChangeCount(cs: OntologyChanges): nat
  {
    |OrEmpty(cs.newClasses)| + |OrEmpty(cs.deletedClasses)| + ChangedCount(OrEmpty(cs.classesWithDifferences))
  }

  lemma AxiomEventCount(c: Iri, ax: Axiom, added: bool)
    requires SubClassEndsNamed(c, ax)
    ensures |AxiomEvents(c, ax, added)| == AxiomCount(c, ax)
  {
    if ax.EquivalentClasses? {
      EquivalenceFanOut(c, ax.operands, added);
    }
  }

  lemma {:induction false} AxiomListEventCount(c: Iri, axs: seq<Axiom>, added: bool)
    requires AxiomsReadable(c, axs)
    ensures |AxiomListEvents(c, axs, added)| == AxiomsCount(c, axs)
    decreases |axs|
  {
    if |axs| > 0 {
      var n := |axs| - 1;
      assert SubClassEndsNamed(c, axs[n]);
      AxiomListEventCount(c, axs[..n], added);
      AxiomEventCount(c, axs[n], added);
    }
  }

  lemma {:induction false} ChangedEventCount(cis: seq<ClassAxiomsInfo>)
    requires AllReadable(cis)
    ensures |ChangedEvents(cis)| == ChangedCount(cis)
    decreases |cis|
  {
    if |cis| > 0 {
      var n := |cis| - 1;
      var ci := cis[n];
      assert ClassReadable(ci);
      ChangedEventCount(cis[..n]);
      AxiomListEventCount(ci.iri, OrEmpty(ci.newAxioms), true);
      AxiomListEventCount(ci.iri, OrEmpty(ci.deletedAxioms), false);
    }
  }

  /** The dataset has exactly one `hasChange` statement and one type statement per counted change. */
  lemma HasChangeCount(cs: OntologyChanges)
    requires Renderable(cs)
    ensures |Links(Render(cs), HasChange)| == ChangeCount(cs)
    ensures |Links(Render(cs), RdfType)| == ChangeCount(cs)
  {
    RenderLinks(cs);
    ChangedEventCount(OrEmpty(cs.classesWithDifferences));
  }

  // ---------------------------------------------------------------- warnings

  /** A class's axiom list warns exactly about its unmatched SubClassOf axioms, always naming that class. */
  lemma {:induction false} AxiomListWarningsExact(c: Iri, axs: seq<Axiom>)
    requires AxiomsReadable(c, axs)
    ensures forall w :: w in AxiomListWarnings(c, axs) ==> w.cls == c && w.axiom in axs && Unmatched(c, w.axiom)
    ensures forall ax :: ax in axs && Unmatched(c, ax) ==> Warning(c, ax) in AxiomListWarnings(c, axs)
    decreases |axs|
  {
    if |axs| > 0 {
      var n := |axs| - 1;
      assert SubClassEndsNamed(c, axs[n]);
      AxiomListWarningsExact(c, axs[..n]);
      assert axs == axs[..n] + [axs[n]];
    }
  }

  /** A changed class warns exactly about the unmatched SubClassOf axioms among its new and deleted axioms. */
  lemma ClassWarningsExact(ci: ClassAxiomsInfo, w: Warning)
    requires ClassReadable(ci)
    ensures w in ClassWarnings(ci) <==>
              w.cls == ci.iri && Unmatched(ci.iri, w.axiom)
              && (w.axiom in OrEmpty(ci.newAxioms) || w.axiom in OrEmpty(ci.deletedAxioms))
  {
    AxiomListWarningsExact(ci.iri, OrEmpty(ci.newAxioms));
    AxiomListWarningsExact(ci.iri, OrEmpty(ci.deletedAxioms));
  }

  // ---------------------------------------------------------------- annotations

  /** The events of a class's annotations, position by position: one label event per annotation. */
  lemma {:induction false} AnnotationListEventsAt(c: Iri, anns: seq<Annotation>, added: bool)
    requires LiteralValued(anns)
    ensures forall i :: 0 <= i < |anns| ==>
              AnnotationListEvents(c, anns, added)[i]
              == Event(c, LabelKind(added), [(AnnotationProperty, IriTerm(anns[i].property)),
                                             (AnnotationValue, Lit(LiteralOf(anns[i].value.literal)))])
    decreases |anns|
  {
    if |anns| > 0 {
      AnnotationListEventsAt(c, anns[..|anns| - 1], added);
    }
  }

  /** An OWL literal whose language and datatype agree: language-tagged exactly when its datatype is rdf:langString. */
  predicate ConsistentOwlLiteral(l: OwlLiteral)
  {
    (l.lang != "") == (l.datatypeIri == RdfLangString)
  }

  /** Reading an RDF literal back as an OWL literal. */
  function OwlLiteralOf(l: Literal): OwlLiteral
  {
    match l
    case LangLit(text, lang) => OwlLiteral(text, lang, RdfLangString)
    case TypedLit(text, dt) => OwlLiteral(text, "", dt)
  }

  /** The annotation value loses nothing: a consistent OWL literal becomes a well-formed RDF literal and is recovered from it. */
  lemma LiteralRoundTrip(l: OwlLiteral)
    requires ConsistentOwlLiteral(l)
    ensures WellFormedLiteral(LiteralOf(l))
    ensures OwlLiteralOf(LiteralOf(l)) == l
    ensures ConsistentOwlLiteral(OwlLiteralOf(LiteralOf(l)))
  {
  }

  /** ... and every well-formed RDF literal is the image of the consistent OWL literal read back from it. */
  lemma LiteralRoundTripBack(r: Literal)
    requires WellFormedLiteral(r)
    ensures ConsistentOwlLiteral(OwlLiteralOf(r))
    ensures LiteralOf(OwlLiteralOf(r)) == r
  {
  }

  // ---------------------------------------------------------------- the related-term finding

  /**
   * `AxiomEvents` with the SubClassOf payload corrected as the comments at the two SubClassOf
   * branches describe: the related term is the other end of the axiom. The equivalence fan-out
   * and the silence on other axioms are unchanged.
   */
  function IntendedAxiomEvents(c: Iri, ax: Axiom, added: bool): (evs: seq<Event>)
    requires ax.SubClassOf? ==> ax.sub.NamedClass? && ax.sup.NamedClass?
    ensures ax.SubClassOf? ==> |evs| <= 1
    ensures ax.SubClassOf? && ax.sup.iri != c && ax.sub.iri != c ==> evs == []
  {
    match ax
    case SubClassOf(sub, sup) =>
      if sup.iri == c then [TermEvent(c, SubTermKind(added), added, sub.iri)]
      else if sub.iri == c then [TermEvent(c, SuperTermKind(added), added, sup.iri)]
      else []
    case EquivalentClasses(ops) => EquivalenceEvents(c, ops, added)
    case OtherAxiom => []
  }

  /**
   * The correction touches nothing but the related term of a matched SubClassOf change: on every
   * axiom both dispatches give as many events, with the same subjects, kinds and payload properties,
   * and outside SubClassOf they give the very same events.
   */
  lemma IntendedOnlyPayload(c: Iri, ax: Axiom, added: bool)
    requires ax.SubClassOf? ==> ax.sub.NamedClass? && ax.sup.NamedClass?
    ensures |IntendedAxiomEvents(c, ax, added)| == |AxiomEvents(c, ax, added)|
    ensures forall i :: 0 <= i < |AxiomEvents(c, ax, added)| ==>
              IntendedAxiomEvents(c, ax, added)[i].subject == AxiomEvents(c, ax, added)[i].subject
              && IntendedAxiomEvents(c, ax, added)[i].kind == AxiomEvents(c, ax, added)[i].kind
              && |IntendedAxiomEvents(c, ax, added)[i].payload| == |AxiomEvents(c, ax, added)[i].payload|
              && IntendedAxiomEvents(c, ax, added)[i].payload[0].0 == AxiomEvents(c, ax, added)[i].payload[0].0
    ensures !ax.SubClassOf? ==> IntendedAxiomEvents(c, ax, added) == AxiomEvents(c, ax, added)
  {
  }

  /** The SubClassOf axiom a sub-term or super-term event of class `c` stands for. */
  function AxiomOf(c: Iri, e: Event): Option<Axiom>
  {
    if |e.payload| != 1 || !e.payload[0].1.IriTerm? then None
    else
      var t := NamedClass(e.payload[0].1.iri);
      if e.kind == SubTermAddition || e.kind == SubTermDeletion then Some(SubClassOf(t, NamedClass(c)))
      else if e.kind == SuperTermAddition || e.kind == SuperTermDeletion then Some(SubClassOf(NamedClass(c), t))
      else None
  }

  /** With the intended payload, a SubClassOf axiom that mentions `c` is recovered from its event. */
  lemma IntendedRoundTrip(c: Iri, sub: Iri, sup: Iri, added: bool)
    requires sub == c || sup == c
    ensures |IntendedAxiomEvents(c, SubClassOf(NamedClass(sub), NamedClass(sup)), added)| == 1
    ensures AxiomOf(c, IntendedAxiomEvents(c, SubClassOf(NamedClass(sub), NamedClass(sup)), added)[0])
         == Some(SubClassOf(NamedClass(sub), NamedClass(sup)))
  {
  }

  /**
   * As written, `Foo rdfs:subClassOf Bar`, seen from Foo, is recorded as a new super term Foo:
   * the superclass Bar is lost, and the axiom read back from the event is `Foo rdfs:subClassOf Foo`.
   */
  lemma AsWrittenLosesSuperclass()
    ensures AxiomEvents("ex:Foo", SubClassOf(NamedClass("ex:Foo"), NamedClass("ex:Bar")), true)
         == [Event("ex:Foo", SuperTermAddition, [(NewTerm, IriTerm("ex:Foo"))])]
    ensures AxiomEvents("ex:Foo", SubClassOf(NamedClass("ex:Foo"), NamedClass("ex:Bar")), true)
         == AxiomEvents("ex:Foo", SubClassOf(NamedClass("ex:Foo"), NamedClass("ex:Baz")), true)
    ensures AxiomOf("ex:Foo", AxiomEvents("ex:Foo", SubClassOf(NamedClass("ex:Foo"), NamedClass("ex:Bar")), true)[0])
         != Some(SubClassOf(NamedClass("ex:Foo"), NamedClass("ex:Bar")))
    ensures IntendedAxiomEvents("ex:Foo", SubClassOf(NamedClass("ex:Foo"), NamedClass("ex:Bar")), true)
         == [Event("ex:Foo", SuperTermAddition, [(NewTerm, IriTerm("ex:Bar"))])]
  {
    assert NamedClass("ex:Foo") != NamedClass("ex:Bar") by {
      assert "ex:Foo"[3] != "ex:Bar"[3];
    }
    assert "ex:Foo" != "ex:Bar" by {
      assert "ex:Foo"[3] != "ex:Bar"[3];
    }
  }
}
