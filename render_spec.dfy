/**
 * What `TopVersionOntologyDiffRDFRenderer.writeDiffToFile` builds, as functions:
 * first the change events a change set gives rise to (and the warnings about
 * SubClassOf axioms that do not mention their class), then the quads that
 * materialise those events as fresh blank nodes in the newer version's named graph.
 */
module RenderSpec {
  import opened Wrappers
  import opened Vocabulary
  import opened Rdf
  import opened Changes
  import opened ChangeEvents

  /** The diagnostic the source prints for a SubClassOf axiom that mentions neither end as the class. */
  datatype Warning = Warning(cls: Iri, axiom: Axiom)

  function TermProperty(added: bool): Iri { if added then NewTerm else OldTerm }
  function SubTermKind(added: bool): ChangeKind { if added then SubTermAddition else SubTermDeletion }
  function SuperTermKind(added: bool): ChangeKind { if added then SuperTermAddition else SuperTermDeletion }
  function EquivalenceKind(added: bool): ChangeKind { if added then EquivalenceAddition else EquivalenceDeletion }
  function LabelKind(added: bool): ChangeKind { if added then LabelAddition else LabelDeletion }

  /** An event whose payload is a single related term (newTerm when added, oldTerm when deleted). */
  function TermEvent(c: Iri, kind: ChangeKind, added: bool, term: Iri): Event
  {
    Event(c, kind, [(TermProperty(added), IriTerm(term))])
  }

  // ---------------------------------------------------------------- axioms

  /**
   * What `asOWLClass()` needs: the superclass is always read as a named class, and the
   * subclass is read only when the superclass is not the current class `c`.
   */
  predicate SubClassEndsNamed(c: Iri, ax: Axiom)
  {
    ax.SubClassOf? ==> ax.sup.NamedClass? && (ax.sup.iri != c ==> ax.sub.NamedClass?)
  }

  predicate AxiomsReadable(c: Iri, axs: seq<Axiom>)
  {
    forall i :: 0 <= i < |axs| ==> SubClassEndsNamed(c, axs[i])
  }

  /** A SubClassOf axiom in which `c` is neither the superclass nor the subclass. */
  predicate Unmatched(c: Iri, ax: Axiom)
  {
    ax.SubClassOf? && ax.sup != NamedClass(c) && ax.sub != NamedClass(c)
  }

  /** What `getNamedClasses()` keeps of an equivalence axiom's operands: named classes other than owl:Thing and owl:Nothing. */
  predicate NamedOperand(m: ClassExpression)
  {
    m.NamedClass? && m.iri != OwlThing && m.iri != OwlNothing
  }

  /**
   * An equivalence event of `c`: it hangs off `c`, has the equivalence kind and one related-term
   * statement, and the related term is neither `c` nor owl:Thing nor owl:Nothing.
   */
  predicate EquivalenceShaped(c: Iri, added: bool, e: Event)
  {
    && e.subject == c && e.kind == EquivalenceKind(added)
    && |e.payload| == 1 && e.payload[0].0 == TermProperty(added)
    && e.payload[0].1 != IriTerm(c) && e.payload[0].1 != IriTerm(OwlThing) && e.payload[0].1 != IriTerm(OwlNothing)
  }

  /** The equivalence fan-out: one event per named operand whose IRI differs from `c`. */
  function EquivalenceEvents(c: Iri, ops: seq<ClassExpression>, added: bool): (evs: seq<Event>)
    ensures |evs| <= |ops|
    ensures forall i :: 0 <= i < |evs| ==> EquivalenceShaped(c, added, evs[i])
  {
    if |ops| == 0 then []
    else
      var m := ops[|ops| - 1];
      EquivalenceEvents(c, ops[..|ops| - 1], added) + if NamedOperand(m) && m.iri != c then [TermEvent(c, EquivalenceKind(added), added, m.iri)] else []
  }

  /** The events one added (or deleted) class axiom of `c` gives rise to. */
  function AxiomEvents(c: Iri, ax: Axiom, added: bool): (evs: seq<Event>)
    requires SubClassEndsNamed(c, ax)
    ensures forall i :: 0 <= i < |evs| ==> evs[i].subject == c
    ensures ax.SubClassOf? ==> |evs| == if Unmatched(c, ax) then 0 else 1
    ensures ax.SubClassOf? && !Unmatched(c, ax) ==> evs[0].payload == [(TermProperty(added), IriTerm(c))]
    ensures ax.OtherAxiom? ==> evs == []
  {
    match ax
    case SubClassOf(sub, sup) =>
      // the payload is read from the end that matched, as the source does
      if sup.iri == c then [TermEvent(c, SubTermKind(added), added, sup.iri)]
      else if sub.iri == c then [TermEvent(c, SuperTermKind(added), added, sub.iri)]
      else []
    case EquivalentClasses(ops) => EquivalenceEvents(c, ops, added)
    case OtherAxiom => []
  }

  /** A warning exactly for a SubClassOf axiom that mentions `c` at neither end. */
  function AxiomWarnings(c: Iri, ax: Axiom): (ws: seq<Warning>)
    requires SubClassEndsNamed(c, ax)
    ensures ws == if Unmatched(c, ax) then [Warning(c, ax)] else []
  {
    match ax
    case SubClassOf(sub, sup) =>
      if sup.iri == c then [] else if sub.iri == c then [] else [Warning(c, ax)]
    case _ => []
  }

  function AxiomListEvents(c: Iri, axs: seq<Axiom>, added: bool): seq<Event>
    requires AxiomsReadable(c, axs)
  {
    if |axs| == 0 then []
    else AxiomListEvents(c, axs[..|axs| - 1], added) + AxiomEvents(c, axs[|axs| - 1], added)
  }

  function AxiomListWarnings(c: Iri, axs: seq<Axiom>): seq<Warning>
    requires AxiomsReadable(c, axs)
  {
    if |axs| == 0 then []
    else
      AxiomListWarnings(c, axs[..|axs| - 1]) + AxiomWarnings(c, axs[|axs| - 1])
  }

  /** One more axiom: its events and warnings follow those of the axioms before it. */
  lemma AxiomListSnoc(c: Iri, axs: seq<Axiom>, i: nat, added: bool)
    requires AxiomsReadable(c, axs) && i < |axs|
    ensures AxiomsReadable(c, axs[..i]) && AxiomsReadable(c, axs[..i + 1]) && SubClassEndsNamed(c, axs[i])
    ensures AxiomListEvents(c, axs[..i + 1], added) == AxiomListEvents(c, axs[..i], added) + AxiomEvents(c, axs[i], added)
    ensures AxiomListWarnings(c, axs[..i + 1]) == AxiomListWarnings(c, axs[..i]) + AxiomWarnings(c, axs[i])
  {
    assert axs[..i + 1][..i] == axs[..i];
  }

  lemma AxiomListAll(c: Iri, axs: seq<Axiom>, added: bool)
    requires AxiomsReadable(c, axs)
    ensures AxiomsReadable(c, axs[..|axs|])
    ensures AxiomListEvents(c, axs[..|axs|], added) == AxiomListEvents(c, axs, added)
    ensures AxiomListWarnings(c, axs[..|axs|]) == AxiomListWarnings(c, axs)
  {
    assert axs[..|axs|] == axs;
  }

  /** One more operand of an equivalence axiom: one more event exactly when it is a named class other than `c`. */
  lemma EquivalenceSnoc(c: Iri, ops: seq<ClassExpression>, i: nat, added: bool)
    requires i < |ops|
    ensures NamedOperand(ops[i]) && ops[i].iri != c ==>
              EquivalenceEvents(c, ops[..i + 1], added)
              == EquivalenceEvents(c, ops[..i], added) + [TermEvent(c, EquivalenceKind(added), added, ops[i].iri)]
    ensures !(NamedOperand(ops[i]) && ops[i].iri != c) ==>
              EquivalenceEvents(c, ops[..i + 1], added) == EquivalenceEvents(c, ops[..i], added)
  {
    assert ops[..i + 1][..i] == ops[..i];
  }

  lemma EquivalenceAll(c: Iri, ops: seq<ClassExpression>, added: bool)
    ensures EquivalenceEvents(c, ops[..|ops|], added) == EquivalenceEvents(c, ops, added)
  {
    assert ops[..|ops|] == ops;
  }

  // ---------------------------------------------------------------- annotations

  /** Language-tagged when the OWL literal has a language, otherwise tagged with its datatype. */
  function LiteralOf(l: OwlLiteral): (r: Literal)
    ensures r.text == l.text
    ensures r.LangLit? <==> l.lang != ""
    ensures r.LangLit? ==> r.lang == l.lang
    ensures r.TypedLit? ==> r.datatypeIri == l.datatypeIri
  {
    if l.lang != "" then LangLit(l.text, l.lang) else TypedLit(l.text, l.datatypeIri)
  }

  predicate LiteralValued(anns: seq<Annotation>)
  {
    forall i :: 0 <= i < |anns| ==> anns[i].value.LiteralValue?
  }

  /** A label event on `c`: the annotation's property as an IRI and its value as a literal. */
  function AnnotationEvent(c: Iri, a: Annotation, added: bool): (e: Event)
    requires a.value.LiteralValue?
  {
    Event(c, LabelKind(added),
      [(AnnotationProperty, IriTerm(a.property)), (AnnotationValue, Lit(LiteralOf(a.value.literal)))])
  }

  /** One label event per annotation, in order. */
  function AnnotationListEvents(c: Iri, anns: seq<Annotation>, added: bool): (evs: seq<Event>)
    requires LiteralValued(anns)
    ensures |evs| == |anns|
  {
    if |anns| == 0 then []
    else AnnotationListEvents(c, anns[..|anns| - 1], added) + [AnnotationEvent(c, anns[|anns| - 1], added)]
  }

  /** One more annotation: one more label event. */
  lemma AnnotationListSnoc(c: Iri, anns: seq<Annotation>, i: nat, added: bool)
    requires LiteralValued(anns) && i < |anns|
    ensures LiteralValued(anns[..i]) && LiteralValued(anns[..i + 1]) && anns[i].value.LiteralValue?
    ensures AnnotationListEvents(c, anns[..i + 1], added)
         == AnnotationListEvents(c, anns[..i], added) + [AnnotationEvent(c, anns[i], added)]
  {
    assert anns[..i + 1][..i] == anns[..i];
  }

  lemma AnnotationListAll(c: Iri, anns: seq<Annotation>, added: bool)
    requires LiteralValued(anns)
    ensures LiteralValued(anns[..|anns|])
    ensures AnnotationListEvents(c, anns[..|anns|], added) == AnnotationListEvents(c, anns, added)
  {
    assert anns[..|anns|] == anns;
  }

  // ---------------------------------------------------------------- classes

  predicate ClassReadable(ci: ClassAxiomsInfo)
  {
    && AxiomsReadable(ci.iri, OrEmpty(ci.newAxioms))
    && AxiomsReadable(ci.iri, OrEmpty(ci.deletedAxioms))
    && LiteralValued(OrEmpty(ci.newRawAnnotations))
    && LiteralValued(OrEmpty(ci.deletedRawAnnotations))
  }

  /** A changed class: new axioms, new annotations, deleted axioms, deleted annotations, in that order. */
  function ClassEvents(ci: ClassAxiomsInfo): seq<Event>
    requires ClassReadable(ci)
  {
    AxiomListEvents(ci.iri, OrEmpty(ci.newAxioms), true)
    + AnnotationListEvents(ci.iri, OrEmpty(ci.newRawAnnotations), true)
    + AxiomListEvents(ci.iri, OrEmpty(ci.deletedAxioms), false)
    + AnnotationListEvents(ci.iri, OrEmpty(ci.deletedRawAnnotations), false)
  }

  function ClassWarnings(ci: ClassAxiomsInfo): seq<Warning>
    requires ClassReadable(ci)
  {
    AxiomListWarnings(ci.iri, OrEmpty(ci.newAxioms)) + AxiomListWarnings(ci.iri, OrEmpty(ci.deletedAxioms))
  }

  predicate AllReadable(cis: seq<ClassAxiomsInfo>)
  {
    forall i :: 0 <= i < |cis| ==> ClassReadable(cis[i])
  }

  function ChangedEvents(cis: seq<ClassAxiomsInfo>): seq<Event>
    requires AllReadable(cis)
  {
    if |cis| == 0 then []
    else ChangedEvents(cis[..|cis| - 1]) + ClassEvents(cis[|cis| - 1])
  }

  function ChangedWarnings(cis: seq<ClassAxiomsInfo>): seq<Warning>
    requires AllReadable(cis)
  {
    if |cis| == 0 then []
    else ChangedWarnings(cis[..|cis| - 1]) + ClassWarnings(cis[|cis| - 1])
  }

  /** One more changed class: its events and warnings follow those of the classes before it. */
  lemma ChangedSnoc(cis: seq<ClassAxiomsInfo>, i: nat)
    requires AllReadable(cis) && i < |cis|
    ensures AllReadable(cis[..i]) && AllReadable(cis[..i + 1])
    ensures ChangedEvents(cis[..i + 1]) == ChangedEvents(cis[..i]) + ClassEvents(cis[i])
    ensures ChangedWarnings(cis[..i + 1]) == ChangedWarnings(cis[..i]) + ClassWarnings(cis[i])
  {
    assert cis[..i + 1][..i] == cis[..i];
  }

  lemma ChangedAll(cis: seq<ClassAxiomsInfo>)
    requires AllReadable(cis)
    ensures AllReadable(cis[..|cis|])
    ensures ChangedEvents(cis[..|cis|]) == ChangedEvents(cis)
    ensures ChangedWarnings(cis[..|cis|]) == ChangedWarnings(cis)
  {
    assert cis[..|cis|] == cis;
  }

  /** New or deleted classes: exactly one payload-free event per class, in order. */
  function ClassListEvents(cis: seq<ClassAxiomsInfo>, kind: ChangeKind): (evs: seq<Event>)
    ensures |evs| == |cis|
  {
    if |cis| == 0 then []
    else ClassListEvents(cis[..|cis| - 1], kind) + [Event(cis[|cis| - 1].iri, kind, [])]
  }

  /** One more new (or deleted) class: one more payload-free event. */
  lemma ClassListSnoc(cis: seq<ClassAxiomsInfo>, i: nat, kind: ChangeKind)
    requires i < |cis|
    ensures ClassListEvents(cis[..i + 1], kind) == ClassListEvents(cis[..i], kind) + [Event(cis[i].iri, kind, [])]
  {
    assert cis[..i + 1][..i] == cis[..i];
  }

  lemma ClassListAll(cis: seq<ClassAxiomsInfo>, kind: ChangeKind)
    ensures ClassListEvents(cis[..|cis|], kind) == ClassListEvents(cis, kind)
  {
    assert cis[..|cis|] == cis;
  }

  // ---------------------------------------------------------------- change set

  /** What the source's `Optional.get()`, `asOWLClass()` and `asLiteral().get()` calls need to succeed. */
  predicate Renderable(cs: OntologyChanges)
  {
    cs.version1.Some? && cs.version2.Some? && AllReadable(OrEmpty(cs.classesWithDifferences))
  }

  function Events(cs: OntologyChanges): seq<Event>
    requires Renderable(cs)
  {
    ClassListEvents(OrEmpty(cs.newClasses), Addition)
    + ClassListEvents(OrEmpty(cs.deletedClasses), Deletion)
    + ChangedEvents(OrEmpty(cs.classesWithDifferences))
  }

  function Warnings(cs: OntologyChanges): seq<Warning>
    requires Renderable(cs)
  {
    ChangedWarnings(OrEmpty(cs.classesWithDifferences))
  }

  // ---------------------------------------------------------------- quads

  /** The namespace `o1:`/`o2:` bound to a version IRI; the bare prefixed name `o1:` denotes it. */
  function VersionNamespace(v: Iri): Iri { v + "#" }

  function SuccessionQuad(cs: OntologyChanges): Quad
    requires cs.version1.Some? && cs.version2.Some?
  {
    Quad(IriTerm(VersionNamespace(cs.version1.value)), HasSuccessorVersion,
         IriTerm(VersionNamespace(cs.version2.value)), DefaultGraph)
  }

  function DiffGraph(cs: OntologyChanges): Graph
    requires cs.version2.Some?
  {
    NamedGraph(VersionNamespace(cs.version2.value))
  }

  /** The whole dataset the renderer builds for one change set. */
  function Render(cs: OntologyChanges): seq<Quad>
    requires Renderable(cs)
  {
    [SuccessionQuad(cs)] + Materialize(Events(cs), 0, DiffGraph(cs))
  }

  /** The dataset is the succession quad, then the new, the deleted and the changed classes' statements. */
  lemma RenderParts(cs: OntologyChanges, succession: Quad, g: Graph, additions: seq<Quad>, deletions: seq<Quad>, changes: seq<Quad>)
    requires Renderable(cs)
    requires succession == SuccessionQuad(cs) && g == DiffGraph(cs)
    requires additions == Materialize(ClassListEvents(OrEmpty(cs.newClasses), Addition), 0, g)
    requires deletions == Materialize(ClassListEvents(OrEmpty(cs.deletedClasses), Deletion), |OrEmpty(cs.newClasses)|, g)
    requires changes == Materialize(ChangedEvents(OrEmpty(cs.classesWithDifferences)),
                                    |OrEmpty(cs.newClasses)| + |OrEmpty(cs.deletedClasses)|, g)
    ensures Render(cs) == [succession] + (additions + deletions + changes)
  {
    var e1 := ClassListEvents(OrEmpty(cs.newClasses), Addition);
    var e2 := ClassListEvents(OrEmpty(cs.deletedClasses), Deletion);
    var e3 := ChangedEvents(OrEmpty(cs.classesWithDifferences));
    assert Events(cs) == e1 + e2 + e3;
    MaterializeAppend3(e1, e2, e3, 0, g);
  }
}
