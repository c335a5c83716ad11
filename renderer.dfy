/**
 * `TopVersionOntologyDiffRDFRenderer.writeDiffToFile` up to `mob.build()`. The
 * `ModelBuilder` is a quad sequence that only grows, `valueFactory.createBNode()` is a
 * counter whose next value is threaded through, and the warnings the source prints to
 * standard error are collected. Each method is one of the source's `forEach` loops and
 * is proved to append exactly the quads the specification functions describe.
 */
module Renderer {
  import opened Wrappers
  import opened Vocabulary
  import opened Rdf
  import opened Changes
  import opened ChangeEvents
  import opened RenderSpec

  /** The loop over the new (or the deleted) classes: one fresh node of type `kind` per class. */
  method AddClassList(classes: seq<ClassAxiomsInfo>, kind: ChangeKind, g: Graph, first: nat)
    returns (qs: seq<Quad>, next: nat)
    ensures qs == Materialize(ClassListEvents(classes, kind), first, g)
    ensures next == first + |classes|
  {
    qs, next := [], first;
    for i := 0 to |classes|
      invariant qs == Materialize(ClassListEvents(classes[..i], kind), first, g)
      invariant next == first + i
    {
      ghost var e := Event(classes[i].iri, kind, []);
      ClassListSnoc(classes, i, kind);
      MaterializeSingle(e, next, g);

      var changeInstance := Blank(next);
      var block := [Quad(IriTerm(classes[i].iri), HasChange, changeInstance, g),
                    Quad(changeInstance, RdfType, IriTerm(KindIri(kind)), g)];
      MaterializeSnoc(ClassListEvents(classes[..i + 1], kind), ClassListEvents(classes[..i], kind), [e], first, g, qs, block);
      qs, next := qs + block, next + 1;
    }
    ClassListAll(classes, kind);
  }

  /** One more single-term event: the loop has built its three statements on the next fresh node. */
  lemma TermStep(all: seq<Event>, done: seq<Event>, e: Event, first: nat, g: Graph, qs: seq<Quad>, next: nat, block: seq<Quad>)
    requires all == done + [e] && |e.payload| == 1
    requires qs == Materialize(done, first, g) && next == first + |done|
    requires block == [Quad(IriTerm(e.subject), HasChange, Blank(next), g),
                       Quad(Blank(next), RdfType, IriTerm(KindIri(e.kind)), g),
                       Quad(Blank(next), e.payload[0].0, e.payload[0].1, g)]
    ensures qs + block == Materialize(all, first, g) && next + 1 == first + |all|
  {
    MaterializeSingle(e, next, g);
    MaterializeSnoc(all, done, [e], first, g, qs, block);
  }

  /** The filtered stream over an equivalence axiom's named classes other than `c`. */
  method AddEquivalence(c: Iri, ops: seq<ClassExpression>, added: bool, g: Graph, first: nat)
    returns (qs: seq<Quad>, next: nat)
    ensures qs == Materialize(EquivalenceEvents(c, ops, added), first, g)
    ensures next == first + |EquivalenceEvents(c, ops, added)|
  {
    qs, next := [], first;
    for i := 0 to |ops|
      invariant qs == Materialize(EquivalenceEvents(c, ops[..i], added), first, g)
      invariant next == first + |EquivalenceEvents(c, ops[..i], added)|
    {
      EquivalenceSnoc(c, ops, i, added);
      if NamedOperand(ops[i]) && ops[i].iri != c {
        var changeInstance := Blank(next);
        var block := [Quad(IriTerm(c), HasChange, changeInstance, g),
                      Quad(changeInstance, RdfType, IriTerm(KindIri(EquivalenceKind(added))), g),
                      Quad(changeInstance, TermProperty(added), IriTerm(ops[i].iri), g)];
        TermStep(EquivalenceEvents(c, ops[..i + 1], added), EquivalenceEvents(c, ops[..i], added),
                 TermEvent(c, EquivalenceKind(added), added, ops[i].iri), first, g, qs, next, block);
        qs, next := qs + block, next + 1;
      }
    }
    EquivalenceAll(c, ops, added);
  }

  /** The body of the loop over a class's axioms: the SubClassOf dispatch and the equivalence fan-out. */
  method AddAxiom(c: Iri, ax: Axiom, added: bool, g: Graph, first: nat)
    returns (qs: seq<Quad>, warnings: seq<Warning>, next: nat)
    requires SubClassEndsNamed(c, ax)
    ensures qs == Materialize(AxiomEvents(c, ax, added), first, g)
    ensures warnings == AxiomWarnings(c, ax)
    ensures next == first + |AxiomEvents(c, ax, added)|
  {
    qs, warnings, next := [], [], first;
    match ax
    case SubClassOf(sub, sup) =>
      if sup.iri == c {
        // the class is the superclass: it has got a new (or lost a) subclass
        MaterializeSingle(TermEvent(c, SubTermKind(added), added, sup.iri), first, g);
        var changeInstance := Blank(next);
        next := next + 1;
        qs := [Quad(IriTerm(c), HasChange, changeInstance, g),
               Quad(changeInstance, RdfType, IriTerm(KindIri(SubTermKind(added))), g),
               Quad(changeInstance, TermProperty(added), IriTerm(sup.iri), g)];
      } else if sub.iri == c {
        // the class is the subclass: it has got a new (or lost a) superclass
        MaterializeSingle(TermEvent(c, SuperTermKind(added), added, sub.iri), first, g);
        var changeInstance := Blank(next);
        next := next + 1;
        qs := [Quad(IriTerm(c), HasChange, changeInstance, g),
               Quad(changeInstance, RdfType, IriTerm(KindIri(SuperTermKind(added))), g),
               Quad(changeInstance, TermProperty(added), IriTerm(sub.iri), g)];
      } else {
        warnings := [Warning(c, ax)];
      }
    case EquivalentClasses(ops) =>
      qs, next := AddEquivalence(c, ops, added, g, first);
    case OtherAxiom =>
  }

  /** The loop over a class's new (or deleted) axioms. */
  method AddAxioms(c: Iri, axs: seq<Axiom>, added: bool, g: Graph, first: nat)
    returns (qs: seq<Quad>, warnings: seq<Warning>, next: nat)
    requires AxiomsReadable(c, axs)
    ensures qs == Materialize(AxiomListEvents(c, axs, added), first, g)
    ensures warnings == AxiomListWarnings(c, axs)
    ensures next == first + |AxiomListEvents(c, axs, added)|
  {
    qs, warnings, next := [], [], first;
    for i := 0 to |axs|
      invariant AxiomsReadable(c, axs[..i])
      invariant qs == Materialize(AxiomListEvents(c, axs[..i], added), first, g)
      invariant warnings == AxiomListWarnings(c, axs[..i])
      invariant next == first + |AxiomListEvents(c, axs[..i], added)|
    {
      AxiomListSnoc(c, axs, i, added);
      var q, w, n := AddAxiom(c, axs[i], added, g, next);
      MaterializeSnoc(AxiomListEvents(c, axs[..i + 1], added), AxiomListEvents(c, axs[..i], added), AxiomEvents(c, axs[i], added),
                      first, g, qs, q);
      qs, warnings, next := qs + q, warnings + w, n;
    }
    AxiomListAll(c, axs, added);
  }

  /** The loop over a class's new (or deleted) annotations: one label event per annotation. */
  method AddAnnotations(c: Iri, anns: seq<Annotation>, added: bool, g: Graph, first: nat)
    returns (qs: seq<Quad>, next: nat)
    requires LiteralValued(anns)
    ensures qs == Materialize(AnnotationListEvents(c, anns, added), first, g)
    ensures next == first + |anns|
  {
    qs, next := [], first;
    for i := 0 to |anns|
      invariant LiteralValued(anns[..i])
      invariant qs == Materialize(AnnotationListEvents(c, anns[..i], added), first, g)
      invariant next == first + i
    {
      AnnotationListSnoc(c, anns, i, added);
      ghost var e := AnnotationEvent(c, anns[i], added);
      MaterializeSingle(e, next, g);

      var changeInstance := Blank(next);
      var value := LiteralOf(anns[i].value.literal);
      var block := [Quad(IriTerm(c), HasChange, changeInstance, g),
                    Quad(changeInstance, RdfType, IriTerm(KindIri(LabelKind(added))), g),
                    Quad(changeInstance, AnnotationProperty, IriTerm(anns[i].property), g),
                    Quad(changeInstance, AnnotationValue, Lit(value), g)];
      MaterializeSnoc(AnnotationListEvents(c, anns[..i + 1], added), AnnotationListEvents(c, anns[..i], added), [e], first, g, qs, block);
      qs, next := qs + block, next + 1;
    }
    AnnotationListAll(c, anns, added);
  }

  /** The body of the loop over the changed classes. */
  method AddChangedClass(ci: ClassAxiomsInfo, g: Graph, first: nat)
    returns (qs: seq<Quad>, warnings: seq<Warning>, next: nat)
    requires ClassReadable(ci)
    ensures qs == Materialize(ClassEvents(ci), first, g)
    ensures warnings == ClassWarnings(ci)
    ensures next == first + |ClassEvents(ci)|
  {
    var c := ci.iri;
    var q1, w1, n1 := AddAxioms(c, OrEmpty(ci.newAxioms), true, g, first);
    var q2, n2 := AddAnnotations(c, OrEmpty(ci.newRawAnnotations), true, g, n1);
    var q3, w3, n3 := AddAxioms(c, OrEmpty(ci.deletedAxioms), false, g, n2);
    var q4, n4 := AddAnnotations(c, OrEmpty(ci.deletedRawAnnotations), false, g, n3);
    qs, warnings, next := q1 + q2 + q3 + q4, w1 + w3, n4;

    ghost var e1 := AxiomListEvents(c, OrEmpty(ci.newAxioms), true);
    ghost var e2 := AnnotationListEvents(c, OrEmpty(ci.newRawAnnotations), true);
    ghost var e3 := AxiomListEvents(c, OrEmpty(ci.deletedAxioms), false);
    ghost var e4 := AnnotationListEvents(c, OrEmpty(ci.deletedRawAnnotations), false);
    MaterializeGlue4(e1, e2, e3, e4, ClassEvents(ci), first, g, q1, q2, q3, q4, n1, n2, n3, n4);
  }

  /** Four groups of statements built one after the other on a shared counter are those of the four groups of events. */
  lemma MaterializeGlue4(e1: seq<Event>, e2: seq<Event>, e3: seq<Event>, e4: seq<Event>, all: seq<Event>, first: nat, g: Graph,
                         q1: seq<Quad>, q2: seq<Quad>, q3: seq<Quad>, q4: seq<Quad>, n1: nat, n2: nat, n3: nat, n4: nat)
    requires all == e1 + e2 + e3 + e4
    requires q1 == Materialize(e1, first, g) && n1 == first + |e1|
    requires q2 == Materialize(e2, n1, g) && n2 == n1 + |e2|
    requires q3 == Materialize(e3, n2, g) && n3 == n2 + |e3|
    requires q4 == Materialize(e4, n3, g) && n4 == n3 + |e4|
    ensures q1 + q2 + q3 + q4 == Materialize(all, first, g)
    ensures n4 == first + |all|
  {
    MaterializeAppend4(e1, e2, e3, e4, first, g);
  }

  /** One more changed class: what the loop has built so far, followed by that class's statements and warnings. */
  lemma ChangedStep(changed: seq<ClassAxiomsInfo>, i: nat, first: nat, g: Graph,
                    qs: seq<Quad>, warnings: seq<Warning>, next: nat, q: seq<Quad>, w: seq<Warning>, n: nat)
    requires AllReadable(changed) && i < |changed| && AllReadable(changed[..i])
    requires qs == Materialize(ChangedEvents(changed[..i]), first, g)
    requires warnings == ChangedWarnings(changed[..i])
    requires next == first + |ChangedEvents(changed[..i])|
    requires q == Materialize(ClassEvents(changed[i]), next, g)
    requires w == ClassWarnings(changed[i])
    requires n == next + |ClassEvents(changed[i])|
    ensures AllReadable(changed[..i + 1])
    ensures qs + q == Materialize(ChangedEvents(changed[..i + 1]), first, g)
    ensures warnings + w == ChangedWarnings(changed[..i + 1])
    ensures n == first + |ChangedEvents(changed[..i + 1])|
  {
    ChangedSnoc(changed, i);
    StepGlue(ChangedEvents(changed[..i + 1]), ChangedEvents(changed[..i]), ClassEvents(changed[i]),
             ChangedWarnings(changed[..i + 1]), ChangedWarnings(changed[..i]), ClassWarnings(changed[i]),
             first, g, qs, q, warnings, w, next, n);
  }

  /** A loop that has built the statements and warnings of `done` and then those of `more` has built those of `done + more`. */
  lemma StepGlue(all: seq<Event>, done: seq<Event>, more: seq<Event>, allW: seq<Warning>, doneW: seq<Warning>, moreW: seq<Warning>,
                 first: nat, g: Graph, qs: seq<Quad>, q: seq<Quad>, warnings: seq<Warning>, w: seq<Warning>, next: nat, n: nat)
    requires all == done + more && allW == doneW + moreW
    requires qs == Materialize(done, first, g) && next == first + |done|
    requires q == Materialize(more, next, g) && n == next + |more|
    requires warnings == doneW && w == moreW
    ensures qs + q == Materialize(all, first, g) && n == first + |all|
    ensures warnings + w == allW
  {
    MaterializeAppend(done, more, first, g);
  }

  /** The loop over the changed classes. */
  method AddChangedClasses(changed: seq<ClassAxiomsInfo>, g: Graph, first: nat)
    returns (qs: seq<Quad>, warnings: seq<Warning>, next: nat)
    requires AllReadable(changed)
    ensures qs == Materialize(ChangedEvents(changed), first, g)
    ensures warnings == ChangedWarnings(changed)
    ensures next == first + |ChangedEvents(changed)|
  {
    qs, warnings, next := [], [], first;
    for i := 0 to |changed|
      invariant AllReadable(changed[..i])
      invariant qs == Materialize(ChangedEvents(changed[..i]), first, g)
      invariant warnings == ChangedWarnings(changed[..i])
      invariant next == first + |ChangedEvents(changed[..i])|
    {
      var q, w, n := AddChangedClass(changed[i], g, next);
      ChangedStep(changed, i, first, g, qs, warnings, next, q, w, n);
      qs, warnings, next := qs + q, warnings + w, n;
    }
    ChangedAll(changed);
  }

  /**
   * The graph-building part of `writeDiffToFile`: the succession statement in the default
   * graph, then every change event in the newer version's named graph.
   */
  method WriteDiff(cs: OntologyChanges) returns (quads: seq<Quad>, warnings: seq<Warning>)
    requires Renderable(cs)
    ensures quads == Render(cs)
    ensures warnings == Warnings(cs)
  {
    var o1 := VersionNamespace(cs.version1.value);
    var o2 := VersionNamespace(cs.version2.value);
    var g := NamedGraph(o2);
    var succession := Quad(IriTerm(o1), HasSuccessorVersion, IriTerm(o2), DefaultGraph);

    var additions, n1 := AddClassList(OrEmpty(cs.newClasses), Addition, g, 0);
    var deletions, n2 := AddClassList(OrEmpty(cs.deletedClasses), Deletion, g, n1);
    var changes, ws, _ := AddChangedClasses(OrEmpty(cs.classesWithDifferences), g, n2);
    quads := [succession] + (additions + deletions + changes);
    warnings := ws;
    RenderParts(cs, succession, g, additions, deletions, changes);
  }
}
