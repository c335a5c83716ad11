/**
 * What the statements of a sequence of change events look like, whatever the events are:
 * they all sit in the one graph, they use only the emitted vocabulary, every event owns
 * the fresh blank node it was given, and no statement occurs twice (so the sequence is
 * also the set of statements an RDF model holds).
 */
module MaterializeProperties {
  import opened Vocabulary
  import opened Rdf
  import opened ChangeEvents

  /** The statements of a non-empty event sequence end with the last event's block. */
  lemma MaterializeLast(evs: seq<Event>, first: nat, g: Graph)
    requires |evs| > 0
    ensures Materialize(evs, first, g)
         == Materialize(evs[..|evs| - 1], first, g) + EventQuads(evs[|evs| - 1], first + |evs| - 1, g)
  {
    var n := |evs| - 1;
    assert evs == evs[..n] + [evs[n]];
    MaterializeAppend(evs[..n], [evs[n]], first, g);
    MaterializeSingle(evs[n], first + n, g);
  }

  lemma MaterializeEmpty(first: nat, g: Graph)
    ensures Materialize([], first, g) == []
  {
    assert EventBlocks([], first, g) == [];
  }

  predicate Distinct<T(==)>(s: seq<T>)
  {
    forall i, j :: 0 <= i < j < |s| ==> s[i] != s[j]
  }

  /** The event node a statement belongs to: the object of a `hasChange` link, the subject of anything else. */
  function EventNode(q: Quad): Term
  {
    if q.p == HasChange then q.o else q.s
  }

  /** A statement in `g`, with an emitted property other than the succession link, on one of the nodes `lo`, ..., `hi - 1`. */
  predicate OnNode(q: Quad, g: Graph, lo: nat, hi: nat)
  {
    && q.g == g
    && q.p != HasSuccessorVersion
    && EmittedProperty(q.p)
    && EventNode(q).Blank? && lo <= EventNode(q).id < hi
  }

  predicate Placed(qs: seq<Quad>, g: Graph, lo: nat, hi: nat)
  {
    forall k :: 0 <= k < |qs| ==> OnNode(qs[k], g, lo, hi)
  }

  /**
   * A block shaped like one event's statements: the `hasChange` link into node `b`, the type of
   * `b`, and up to two statements on `b` with different payload properties.
   */
  lemma BlockPlaced(qs: seq<Quad>, b: nat, g: Graph)
    requires 2 <= |qs| <= 4
    requires qs[0].p == HasChange && qs[0].o == Blank(b) && qs[0].g == g
    requires qs[1].p == RdfType && qs[1].s == Blank(b) && qs[1].g == g
    requires forall k :: 2 <= k < |qs| ==> PayloadProperty(qs[k].p) && qs[k].s == Blank(b) && qs[k].g == g
    requires |qs| == 4 ==> qs[2].p != qs[3].p
    ensures Placed(qs, g, b, b + 1)
    ensures Distinct(qs)
  {
    VocabularyDistinct();
    forall k | 0 <= k < |qs|
      ensures OnNode(qs[k], g, b, b + 1)
    {
      if k >= 2 {
        assert PayloadProperty(qs[k].p);
      }
    }
    forall i, j | 0 <= i < j < |qs|
      ensures qs[i].p != qs[j].p
    {
      if j >= 2 {
        assert PayloadProperty(qs[j].p);
      }
    }
  }

  /** One conforming event: its statements belong to its own node and are pairwise different. */
  lemma EventQuadsPlaced(e: Event, b: nat, g: Graph)
    requires Conforms(e)
    ensures Placed(EventQuads(e, b, g), g, b, b + 1)
    ensures Distinct(EventQuads(e, b, g))
  {
    ConformsPayload(e);
    EventQuadsAt(e, b, g);
    var qs := EventQuads(e, b, g);
    forall k | 2 <= k < |qs|
      ensures PayloadProperty(qs[k].p) && qs[k].s == Blank(b) && qs[k].g == g
    {
      assert PayloadProperty(e.payload[k - 2].0);
    }
    BlockPlaced(qs, b, g);
  }

  /** Statements placed on lower nodes followed by statements placed on higher nodes. */
  lemma PlacedJoin(ab: seq<Quad>, a: seq<Quad>, b: seq<Quad>, g: Graph, lo: nat, mid: nat, hi: nat)
    requires ab == a + b
    requires lo <= mid <= hi && Placed(a, g, lo, mid) && Placed(b, g, mid, hi)
    requires Distinct(a) && Distinct(b)
    ensures Placed(ab, g, lo, hi)
    ensures Distinct(ab)
  {
    forall k | 0 <= k < |ab|
      ensures OnNode(ab[k], g, lo, hi)
    {
      if k < |a| {
        assert OnNode(a[k], g, lo, mid);
      } else {
        assert OnNode(b[k - |a|], g, mid, hi);
      }
    }
    forall i, j | 0 <= i < j < |ab|
      ensures ab[i] != ab[j]
    {
      if i < |a| && j >= |a| {
        assert OnNode(a[i], g, lo, mid) && OnNode(b[j - |a|], g, mid, hi);
        assert EventNode(ab[i]).id < mid <= EventNode(ab[j]).id;
      }
    }
  }

  /**
   * The statements of conforming events: all in `g`, in the emitted vocabulary, each on the
   * node of its event, and no statement twice.
   */
  lemma {:induction false} MaterializePlaced(evs: seq<Event>, first: nat, g: Graph)
    requires AllConform(evs)
    ensures Placed(Materialize(evs, first, g), g, first, first + |evs|)
    ensures Distinct(Materialize(evs, first, g))
    decreases |evs|
  {
    if |evs| == 0 {
      MaterializeEmpty(first, g);
    } else {
      var n := |evs| - 1;
      assert Conforms(evs[n]);
      MaterializeLast(evs, first, g);
      MaterializePlaced(evs[..n], first, g);
      EventQuadsPlaced(evs[n], first + n, g);
      PlacedJoin(Materialize(evs, first, g), Materialize(evs[..n], first, g), EventQuads(evs[n], first + n, g),
                 g, first, first + n, first + n + 1);
    }
  }

  // ---------------------------------------------------------------- links

  /** The (subject, object) pairs of the statements with property `p`, in order. */
  function Links(qs: seq<Quad>, p: Iri): seq<(Term, Term)>
  {
    if |qs| == 0 then []
    else
      var q := qs[|qs| - 1];
      Links(qs[..|qs| - 1], p) + if q.p == p then [(q.s, q.o)] else []
  }

  lemma {:induction false} LinksAppend(a: seq<Quad>, b: seq<Quad>, p: Iri)
    ensures Links(a + b, p) == Links(a, p) + Links(b, p)
    decreases |b|
  {
    if |b| == 0 {
      assert a + b == a;
    } else {
      assert (a + b)[..|a + b| - 1] == a + b[..|b| - 1];
      LinksAppend(a, b[..|b| - 1], p);
    }
  }

  lemma LinksSingle(q: Quad, p: Iri)
    ensures Links([q], p) == if q.p == p then [(q.s, q.o)] else []
  {
    assert [q][..0] == [];
  }

  /** Statements whose properties are all payload properties have no link for a non-payload property. */
  lemma {:induction false} LinksNone(qs: seq<Quad>, p: Iri)
    requires !PayloadProperty(p)
    requires forall k :: 0 <= k < |qs| ==> PayloadProperty(qs[k].p)
    ensures Links(qs, p) == []
    decreases |qs|
  {
    if |qs| > 0 {
      LinksNone(qs[..|qs| - 1], p);
    }
  }

  /** One conforming event has exactly one `hasChange` link into its node and exactly one type. */
  lemma EventLinks(e: Event, b: nat, g: Graph)
    requires Conforms(e)
    ensures Links(EventQuads(e, b, g), HasChange) == [(IriTerm(e.subject), Blank(b))]
    ensures Links(EventQuads(e, b, g), RdfType) == [(Blank(b), IriTerm(KindIri(e.kind)))]
  {
    VocabularyDistinct();
    ConformsPayload(e);
    EventQuadsAt(e, b, g);
    var qs := EventQuads(e, b, g);
    var rest := qs[2..];
    forall k | 0 <= k < |rest|
      ensures PayloadProperty(rest[k].p)
    {
      assert rest[k] == qs[k + 2];
    }
    LinksNone(rest, HasChange);
    LinksNone(rest, RdfType);
    var head := [qs[0]] + [qs[1]];
    assert qs == head + rest;
    LinksSingle(qs[0], HasChange);
    LinksSingle(qs[0], RdfType);
    LinksSingle(qs[1], HasChange);
    LinksSingle(qs[1], RdfType);
    LinksAppend([qs[0]], [qs[1]], HasChange);
    LinksAppend([qs[0]], [qs[1]], RdfType);
    LinksAppend(head, rest, HasChange);
    LinksAppend(head, rest, RdfType);
  }

  /** The `hasChange` links events `evs` numbered from `first` are expected to produce. */
  function ChangeLinks(evs: seq<Event>, first: nat): (ls: seq<(Term, Term)>)
    ensures |ls| == |evs|
  {
    seq(|evs|, i requires 0 <= i < |evs| => (IriTerm(evs[i].subject), Blank(first + i)))
  }

  /** The type statements events `evs` numbered from `first` are expected to produce. */
  function TypeLinks(evs: seq<Event>, first: nat): (ls: seq<(Term, Term)>)
    ensures |ls| == |evs|
  {
    seq(|evs|, i requires 0 <= i < |evs| => (Blank(first + i), IriTerm(KindIri(evs[i].kind))))
  }

  lemma ExpectedLinksSnoc(evs: seq<Event>, first: nat)
    requires |evs| > 0
    ensures ChangeLinks(evs, first)
         == ChangeLinks(evs[..|evs| - 1], first) + [(IriTerm(evs[|evs| - 1].subject), Blank(first + |evs| - 1))]
    ensures TypeLinks(evs, first)
         == TypeLinks(evs[..|evs| - 1], first) + [(Blank(first + |evs| - 1), IriTerm(KindIri(evs[|evs| - 1].kind)))]
  {
  }

  /** Links glued from a prefix and one more event's block. */
  lemma LinksGlue(m: seq<Quad>, before: seq<Quad>, block: seq<Quad>, p: Iri,
                  done: seq<(Term, Term)>, one: (Term, Term), all: seq<(Term, Term)>)
    requires m == before + block
    requires Links(before, p) == done && Links(block, p) == [one]
    requires all == done + [one]
    ensures Links(m, p) == all
  {
    LinksAppend(before, block, p);
  }

  /**
   * Event `i` of a conforming sequence is the `i`-th `hasChange` link, from its class to the
   * fresh node `first + i`, and the `i`-th type statement, giving that node its change kind.
   */
  lemma {:induction false} MaterializeLinks(evs: seq<Event>, first: nat, g: Graph)
    requires AllConform(evs)
    ensures Links(Materialize(evs, first, g), HasChange) == ChangeLinks(evs, first)
    ensures Links(Materialize(evs, first, g), RdfType) == TypeLinks(evs, first)
    decreases |evs|
  {
    if |evs| == 0 {
      MaterializeEmpty(first, g);
    } else {
      var n := |evs| - 1;
      var e := evs[n];
      var before := Materialize(evs[..n], first, g);
      var block := EventQuads(e, first + n, g);
      MaterializeLast(evs, first, g);
      MaterializeLinks(evs[..n], first, g);
      EventLinks(e, first + n, g);
      ExpectedLinksSnoc(evs, first);
      LinksGlue(Materialize(evs, first, g), before, block, HasChange,
                ChangeLinks(evs[..n], first), (IriTerm(e.subject), Blank(first + n)), ChangeLinks(evs, first));
      LinksGlue(Materialize(evs, first, g), before, block, RdfType,
                TypeLinks(evs[..n], first), (Blank(first + n), IriTerm(KindIri(e.kind))), TypeLinks(evs, first));
    }
  }
}
