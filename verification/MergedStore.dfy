/** What the store behind a multi-watch holds, and when the interleaving leaves no trace in it. */
module MergedStore {
  import opened Kube
  import opened Seqs
  import opened StoreSpec
  import opened Reflector
  import opened MultiWatch

  type Delivered = seq<(nat, Event)>

  /** A store that held `m` after the list, once the delivered events have been applied. */
  function Merged<V>(r: Object -> V, m: map<Uid, V>, d: Delivered): map<Uid, V> {
    if d == [] then m else Absorb(r, Merged(r, m, d[..|d| - 1]), Reflect(Watched(d[|d| - 1].1)))
  }

  function At<V>(m: map<Uid, V>, u: Uid): Option<V> {
    if u in m then Some(m[u]) else None
  }

  /** The event changes what the store holds for the UID. */
  predicate Concerns(e: Event, u: Uid) {
    e.kind in {Added, Modified, Deleted} && About(e.obj, u)
  }

  /** What the store holds for the UID of the event's object afterwards. */
  function Effect<V>(r: Object -> V, e: Event): Option<V> {
    if e.kind == Deleted then None else Some(r(e.obj))
  }

  /** The effect of the last event that concerns the UID, if there is one. */
  function Outcome<V>(r: Object -> V, es: seq<Event>, u: Uid): Option<Option<V>> {
    if es == [] then None
    else if Concerns(es[|es| - 1], u) then Some(Effect(r, es[|es| - 1]))
    else Outcome(r, es[..|es| - 1], u)
  }

  lemma OutcomeSnoc<V>(r: Object -> V, es: seq<Event>, e: Event, u: Uid)
    ensures Outcome(r, es + [e], u) == if Concerns(e, u) then Some(Effect(r, e)) else Outcome(r, es, u)
  {
    assert (es + [e])[..|es|] == es;
  }

  lemma MergedSnoc<V>(r: Object -> V, m: map<Uid, V>, d: Delivered, i: nat, e: Event, u: Uid)
    ensures At(Merged(r, m, d + [(i, e)]), u) == if Concerns(e, u) then Effect(r, e) else At(Merged(r, m, d), u)
  {
    assert (d + [(i, e)])[..|d|] == d;
  }

  lemma OutcomeFrom<V>(r: Object -> V, d: Delivered, i: nat, e: Event, u: Uid, j: nat)
    ensures Outcome(r, From(d + [(i, e)], j), u)
         == if i == j && Concerns(e, u) then Some(Effect(r, e)) else Outcome(r, From(d, j), u)
  {
    FromSnoc(d, i, e, j);
    if i == j {
      OutcomeSnoc(r, From(d, j), e, u);
    } else {
      assert From(d, j) + [] == From(d, j);
    }
  }

  /** No source reports the UID. */
  ghost predicate Silent<V>(r: Object -> V, d: Delivered, u: Uid) {
    forall j: nat :: Outcome(r, From(d, j), u) == None
  }

  /** What the store ends up with for a UID is decided by some source that reports it, or else by the list. */
  lemma {:induction false} SomeSourceDecides<V>(r: Object -> V, m: map<Uid, V>, d: Delivered, u: Uid) returns (i: nat)
    ensures if Silent(r, d, u) then At(Merged(r, m, d), u) == At(m, u)
            else Outcome(r, From(d, i), u) == Some(At(Merged(r, m, d), u))
    decreases |d|
  {
    if d == [] {
      i := 0;
    } else {
      var init := d[..|d| - 1];
      var (j, e) := d[|d| - 1];
      assert init + [(j, e)] == d;
      i := SomeSourceDecides(r, m, init, u);
      MergedSnoc(r, m, init, j, e, u);
      OutcomeFrom(r, init, j, e, u, i);
      if Concerns(e, u) {
        i := j;
        OutcomeFrom(r, init, j, e, u, j);
      } else {
        forall k: nat ensures Outcome(r, From(d, k), u) == Outcome(r, From(init, k), u) {
          OutcomeFrom(r, init, j, e, u, k);
        }
      }
    }
  }

  // ---- merges of given event sequences

  /** Only the first `n` sources deliver. */
  predicate Below(d: Delivered, n: nat) {
    forall k | 0 <= k < |d| :: d[k].0 < n
  }

  /** `d` delivers the events of each source, in their order, and no others. */
  ghost predicate IsMerge(d: Delivered, ps: seq<seq<Event>>) {
    && Below(d, |ps|)
    && forall i | 0 <= i < |ps| :: From(d, i) == ps[i]
  }

  /** All sources that report the UID end in the same effect on it. */
  ghost predicate SameOutcome<V>(r: Object -> V, ps: seq<seq<Event>>, u: Uid) {
    forall i, j | 0 <= i < |ps| && 0 <= j < |ps| ::
      Outcome(r, ps[i], u) == Outcome(r, ps[j], u) || Outcome(r, ps[i], u) == None || Outcome(r, ps[j], u) == None
  }

  lemma {:induction false} FromNowhere(d: Delivered, n: nat, i: nat)
    requires Below(d, n) && i >= n
    ensures From(d, i) == []
    decreases |d|
  {
    if d != [] {
      FromNowhere(d[..|d| - 1], n, i);
    }
  }

  /** The same, in terms of the sources. */
  lemma MergeDecides<V>(r: Object -> V, m: map<Uid, V>, ps: seq<seq<Event>>, d: Delivered, u: Uid) returns (i: nat)
    requires IsMerge(d, ps)
    ensures if forall j | 0 <= j < |ps| :: Outcome(r, ps[j], u) == None then At(Merged(r, m, d), u) == At(m, u)
            else i < |ps| && Outcome(r, ps[i], u) == Some(At(Merged(r, m, d), u))
  {
    i := SomeSourceDecides(r, m, d, u);
    forall j: nat ensures Outcome(r, From(d, j), u) == if j < |ps| then Outcome(r, ps[j], u) else None {
      if j >= |ps| {
        FromNowhere(d, |ps|, j);
      }
    }
    if j :| 0 <= j < |ps| && Outcome(r, ps[j], u) != None {
      assert Outcome(r, From(d, j), u) != None;
    }
  }

  lemma SameOutcomeAgrees<V>(r: Object -> V, m: map<Uid, V>, ps: seq<seq<Event>>, d: Delivered, d': Delivered, u: Uid)
    requires IsMerge(d, ps) && IsMerge(d', ps) && SameOutcome(r, ps, u)
    ensures At(Merged(r, m, d), u) == At(Merged(r, m, d'), u)
  {
    var i := MergeDecides(r, m, ps, d, u);
    var j := MergeDecides(r, m, ps, d', u);
  }

  // ---- a merge in which a given source comes last

  lemma FromOneMore(d: Delivered, i: nat, e: Event, j: nat, before: seq<Event>, es: seq<Event>)
    requires From(d, j) == if i == j then before + es else before
    ensures From(d + [(i, e)], j) == if i == j then before + (es + [e]) else before
  {
    FromSnoc(d, i, e, j);
    Assoc(before, es, [e]);
    assert before + [] == before;
  }

  /** `d'` delivers the events of source `i` on top of what `d` does. */
  ghost predicate Adds(d: Delivered, i: nat, es: seq<Event>, d': Delivered) {
    forall j: nat :: From(d', j) == if i == j then From(d, j) + es else From(d, j)
  }

  lemma AddsOne(d: Delivered, i: nat, es: seq<Event>, d': Delivered, e: Event)
    requires Adds(d, i, es, d')
    ensures Adds(d, i, es + [e], d' + [(i, e)])
  {
    forall j: nat ensures From(d' + [(i, e)], j) == if i == j then From(d, j) + (es + [e]) else From(d, j) {
      FromOneMore(d', i, e, j, From(d, j), es);
    }
  }

  /** All events of one source, delivered in a row: they decide about the UIDs they concern. */
  lemma {:induction false} InARow<V>(r: Object -> V, m: map<Uid, V>, u: Uid, d: Delivered, n: nat, i: nat,
                                     es: seq<Event>)
    returns (d': Delivered)
    requires Below(d, n) && i < n
    ensures Below(d', n) && Adds(d, i, es, d')
    ensures Outcome(r, es, u).Some? ==> At(Merged(r, m, d'), u) == Outcome(r, es, u).value
    decreases |es|
  {
    if es == [] {
      d' := d;
      assert forall j: nat :: From(d, j) + [] == From(d, j);
    } else {
      var init, e := es[..|es| - 1], es[|es| - 1];
      var before := InARow(r, m, u, d, n, i, init);
      d' := before + [(i, e)];
      AddsOne(d, i, init, before, e);
      assert init + [e] == es;
      MergedSnoc(r, m, before, i, e, u);
    }
  }

  /** The first `n` sources but `i` have had their turn. */
  ghost predicate Turns(d: Delivered, ps: seq<seq<Event>>, n: nat, i: nat) {
    forall j: nat :: From(d, j) == if j < n <= |ps| && j != i then ps[j] else []
  }

  lemma NextTurn(d: Delivered, ps: seq<seq<Event>>, n: nat, i: nat, d': Delivered)
    requires n < |ps| && n != i && Turns(d, ps, n, i) && Adds(d, n, ps[n], d')
    ensures Turns(d', ps, n + 1, i)
  {
    assert [] + ps[n] == ps[n];
  }

  /** The first `n` sources one after the other, without source `i`. */
  lemma {:induction false} OthersFirst<V>(r: Object -> V, m: map<Uid, V>, u: Uid, ps: seq<seq<Event>>, n: nat, i: nat)
    returns (d: Delivered)
    requires n <= |ps|
    ensures Below(d, |ps|) && Turns(d, ps, n, i)
  {
    if n == 0 {
      d := [];
    } else {
      d := OthersFirst(r, m, u, ps, n - 1, i);
      if n - 1 != i {
        var before := d;
        d := InARow(r, m, u, before, |ps|, n - 1, ps[n - 1]);
        NextTurn(before, ps, n - 1, i, d);
      }
    }
  }

  lemma LastTurn(d: Delivered, ps: seq<seq<Event>>, i: nat, d': Delivered)
    requires i < |ps| && Turns(d, ps, |ps|, i) && Adds(d, i, ps[i], d') && Below(d', |ps|)
    ensures IsMerge(d', ps)
  {
    assert [] + ps[i] == ps[i];
  }

  lemma MergeEndingWith<V>(r: Object -> V, m: map<Uid, V>, u: Uid, ps: seq<seq<Event>>, i: nat) returns (d: Delivered)
    requires i < |ps|
    ensures IsMerge(d, ps)
    ensures Outcome(r, ps[i], u).Some? ==> At(Merged(r, m, d), u) == Outcome(r, ps[i], u).value
  {
    var before := OthersFirst(r, m, u, ps, |ps|, i);
    d := InARow(r, m, u, before, |ps|, i, ps[i]);
    LastTurn(before, ps, i, d);
  }

  // ---- the exact condition

  /** All merges of the sources' events leave the same store. */
  ghost predicate MergesAgree<V>(r: Object -> V, m: map<Uid, V>, ps: seq<seq<Event>>) {
    forall d, d' | IsMerge(d, ps) && IsMerge(d', ps) :: Merged(r, m, d) == Merged(r, m, d')
  }

  lemma AgreeingOutcomes<V>(r: Object -> V, m: map<Uid, V>, ps: seq<seq<Event>>, u: Uid)
    requires MergesAgree(r, m, ps)
    ensures SameOutcome(r, ps, u)
  {
    forall i, j | 0 <= i < |ps| && 0 <= j < |ps| && Outcome(r, ps[i], u).Some? && Outcome(r, ps[j], u).Some?
      ensures Outcome(r, ps[i], u) == Outcome(r, ps[j], u)
    {
      var a := MergeEndingWith(r, m, u, ps, i);
      var b := MergeEndingWith(r, m, u, ps, j);
      assert Merged(r, m, a) == Merged(r, m, b);
    }
  }

  /**
   The order in which events of different sources are merged leaves no trace in the store, whatever the list left
   there, iff for every UID all sources that report it end in the same effect. Sources may share objects, as they do
   when a namespace is given twice.
   */
  lemma MergeOrderIsIrrelevant<V>(r: Object -> V, m: map<Uid, V>, ps: seq<seq<Event>>)
    ensures MergesAgree(r, m, ps) <==> forall u :: SameOutcome(r, ps, u)
  {
    if MergesAgree(r, m, ps) {
      forall u ensures SameOutcome(r, ps, u) {
        AgreeingOutcomes(r, m, ps, u);
      }
    }
    if forall u :: SameOutcome(r, ps, u) {
      forall d, d' | IsMerge(d, ps) && IsMerge(d', ps) ensures Merged(r, m, d) == Merged(r, m, d') {
        var x, y := Merged(r, m, d), Merged(r, m, d');
        forall u ensures (u in x <==> u in y) && (u in x && u in y ==> x[u] == y[u]) {
          SameOutcomeAgrees(r, m, ps, d, d', u);
          assert At(x, u) == At(y, u);
        }
      }
    }
  }

  /** Every object a source reports belongs to it alone. */
  predicate SourcesOwn(owner: Uid -> nat, ps: seq<seq<Event>>) {
    forall i, e | 0 <= i < |ps| && e in ps[i] :: e.obj.HasMeta() ==> owner(e.obj.uid) == i
  }

  lemma {:induction false} OutcomeOwned<V>(r: Object -> V, es: seq<Event>, u: Uid)
    requires Outcome(r, es, u).Some?
    ensures exists e :: e in es && About(e.obj, u)
    decreases |es|
  {
    if !Concerns(es[|es| - 1], u) {
      OutcomeOwned(r, es[..|es| - 1], u);
    } else {
      assert es[|es| - 1] in es;
    }
  }

  /** Sources of different namespaces, which share no object, meet the condition. */
  lemma DisjointSourcesAgree<V>(r: Object -> V, m: map<Uid, V>, owner: Uid -> nat, ps: seq<seq<Event>>)
    requires SourcesOwn(owner, ps)
    ensures MergesAgree(r, m, ps)
  {
    forall u ensures SameOutcome(r, ps, u) {
      forall i | 0 <= i < |ps| && Outcome(r, ps[i], u).Some? ensures owner(u) == i {
        OutcomeOwned(r, ps[i], u);
      }
    }
    MergeOrderIsIrrelevant(r, m, ps);
  }
}
