/**
 * Change events and how they become quads: each event is a fresh blank node `b`
 * with `(class, hasChange, b)`, `(b, rdf:type, kind)` and its payload statements.
 */
module ChangeEvents {
  import opened Vocabulary
  import opened Rdf

  /** One detected change: the class it hangs off, its type, and the (property, value) pairs on its node. */
  datatype Event = Event(subject: Iri, kind: ChangeKind, payload: seq<(Iri, Term)>)

  /** The schema: which payload properties an event node of each type carries. */
  predicate Conforms(e: Event)
  {
    match e.kind
    case Addition | Deletion => e.payload == []
    case SubTermAddition | SuperTermAddition | EquivalenceAddition =>
      |e.payload| == 1 && e.payload[0].0 == NewTerm && e.payload[0].1.IriTerm?
    case SubTermDeletion | SuperTermDeletion | EquivalenceDeletion =>
      |e.payload| == 1 && e.payload[0].0 == OldTerm && e.payload[0].1.IriTerm?
    case LabelAddition | LabelDeletion =>
      |e.payload| == 2
      && e.payload[0].0 == AnnotationProperty && e.payload[0].1.IriTerm?
      && e.payload[1].0 == AnnotationValue && e.payload[1].1.Lit?
  }

  predicate AllConform(evs: seq<Event>)
  {
    forall i :: 0 <= i < |evs| ==> Conforms(evs[i])
  }

  function PayloadQuads(b: nat, ps: seq<(Iri, Term)>, g: Graph): seq<Quad>
  {
    seq(|ps|, i requires 0 <= i < |ps| => Quad(Blank(b), ps[i].0, ps[i].1, g))
  }

  /** `(class, hasChange, b)`, `(b, rdf:type, kind)` and the payload statements on `b`. */
  function EventQuads(e: Event, b: nat, g: Graph): seq<Quad>
  {
    [Quad(IriTerm(e.subject), HasChange, Blank(b), g), Quad(Blank(b), RdfType, IriTerm(KindIri(e.kind)), g)]
    + PayloadQuads(b, e.payload, g)
  }

  /** A conforming event carries at most two payload statements, with different payload properties. */
  lemma ConformsPayload(e: Event)
    requires Conforms(e)
    ensures |e.payload| <= 2
    ensures forall k :: 0 <= k < |e.payload| ==> PayloadProperty(e.payload[k].0)
    ensures |e.payload| == 2 ==> e.payload[0].0 != e.payload[1].0
  {
    VocabularyDistinct();
  }

  /** The statements of one event, position by position. */
  lemma EventQuadsAt(e: Event, b: nat, g: Graph)
    ensures |EventQuads(e, b, g)| == 2 + |e.payload|
    ensures EventQuads(e, b, g)[0] == Quad(IriTerm(e.subject), HasChange, Blank(b), g)
    ensures EventQuads(e, b, g)[1] == Quad(Blank(b), RdfType, IriTerm(KindIri(e.kind)), g)
    ensures forall k :: 2 <= k < |EventQuads(e, b, g)| ==>
              EventQuads(e, b, g)[k] == Quad(Blank(b), e.payload[k - 2].0, e.payload[k - 2].1, g)
  {
  }

  /** The concatenation of a sequence of sequences. */
  function Flatten<T>(xss: seq<seq<T>>): seq<T>
  {
    if |xss| == 0 then [] else Flatten(xss[..|xss| - 1]) + xss[|xss| - 1]
  }

  lemma {:induction false} FlattenAppend<T>(xss: seq<seq<T>>, yss: seq<seq<T>>)
    ensures Flatten(xss + yss) == Flatten(xss) + Flatten(yss)
    decreases |yss|
  {
    if |yss| == 0 {
      assert xss + yss == xss;
    } else {
      assert (xss + yss)[..|xss + yss| - 1] == xss + yss[..|yss| - 1];
      FlattenAppend(xss, yss[..|yss| - 1]);
    }
  }

  /** The statements of each event, the i-th on the fresh blank node `first + i`. */
  function EventBlocks(evs: seq<Event>, first: nat, g: Graph): seq<seq<Quad>>
  {
    seq(|evs|, i requires 0 <= i < |evs| => EventQuads(evs[i], first + i, g))
  }

  /** All events' statements, in order, on the blank nodes `first`, `first + 1`, ... */
  function Materialize(evs: seq<Event>, first: nat, g: Graph): seq<Quad>
  {
    Flatten(EventBlocks(evs, first, g))
  }

  lemma MaterializeAppend(a: seq<Event>, b: seq<Event>, first: nat, g: Graph)
    ensures Materialize(a + b, first, g) == Materialize(a, first, g) + Materialize(b, first + |a|, g)
  {
    assert EventBlocks(a + b, first, g) == EventBlocks(a, first, g) + EventBlocks(b, first + |a|, g);
    FlattenAppend(EventBlocks(a, first, g), EventBlocks(b, first + |a|, g));
  }

  /** A loop that has built the statements of `done` and then those of `more` has built those of `done + more`. */
  lemma MaterializeSnoc(all: seq<Event>, done: seq<Event>, more: seq<Event>, first: nat, g: Graph, qs: seq<Quad>, q: seq<Quad>)
    requires all == done + more
    requires qs == Materialize(done, first, g)
    requires q == Materialize(more, first + |done|, g)
    ensures qs + q == Materialize(all, first, g)
    ensures |all| == |done| + |more|
  {
    MaterializeAppend(done, more, first, g);
  }

  /** Three event groups in a row, on consecutive blank nodes. */
  lemma MaterializeAppend3(a: seq<Event>, b: seq<Event>, c: seq<Event>, first: nat, g: Graph)
    ensures Materialize(a + b + c, first, g)
         == Materialize(a, first, g) + Materialize(b, first + |a|, g) + Materialize(c, first + |a| + |b|, g)
  {
    MaterializeAppend(a + b, c, first, g);
    MaterializeAppend(a, b, first, g);
  }

  /** Four event groups in a row, on consecutive blank nodes. */
  lemma MaterializeAppend4(a: seq<Event>, b: seq<Event>, c: seq<Event>, d: seq<Event>, first: nat, g: Graph)
    ensures Materialize(a + b + c + d, first, g)
         == Materialize(a, first, g) + Materialize(b, first + |a|, g) + Materialize(c, first + |a| + |b|, g)
          + Materialize(d, first + |a| + |b| + |c|, g)
  {
    MaterializeAppend(a + b + c, d, first, g);
    MaterializeAppend3(a, b, c, first, g);
  }

  /** One event's statements, written out for the payload sizes the schema uses. */
  lemma MaterializeSingle(e: Event, b: nat, g: Graph)
    ensures Materialize([e], b, g) == EventQuads(e, b, g)
    ensures e.payload == [] ==>
              EventQuads(e, b, g) == [Quad(IriTerm(e.subject), HasChange, Blank(b), g),
                                      Quad(Blank(b), RdfType, IriTerm(KindIri(e.kind)), g)]
    ensures |e.payload| == 1 ==>
              EventQuads(e, b, g) == [Quad(IriTerm(e.subject), HasChange, Blank(b), g),
                                      Quad(Blank(b), RdfType, IriTerm(KindIri(e.kind)), g),
                                      Quad(Blank(b), e.payload[0].0, e.payload[0].1, g)]
    ensures |e.payload| == 2 ==>
              EventQuads(e, b, g) == [Quad(IriTerm(e.subject), HasChange, Blank(b), g),
                                      Quad(Blank(b), RdfType, IriTerm(KindIri(e.kind)), g),
                                      Quad(Blank(b), e.payload[0].0, e.payload[0].1, g),
                                      Quad(Blank(b), e.payload[1].0, e.payload[1].1, g)]
  {
    var blocks := EventBlocks([e], b, g);
    assert blocks == [EventQuads(e, b, g)];
    assert blocks[..0] == [];
    assert Flatten(blocks) == Flatten(blocks[..0]) + blocks[0];
    var ps := e.payload;
    if |ps| == 1 {
      assert PayloadQuads(b, ps, g) == [Quad(Blank(b), ps[0].0, ps[0].1, g)];
    } else if |ps| == 2 {
      assert PayloadQuads(b, ps, g) == [Quad(Blank(b), ps[0].0, ps[0].1, g), Quad(Blank(b), ps[1].0, ps[1].1, g)];
    }
  }

  lemma ConformAppend(a: seq<Event>, b: seq<Event>)
    requires AllConform(a) && AllConform(b)
    ensures AllConform(a + b)
  {
  }

}
