/** Every merge is what some run of a multi-watch delivers, and every run that ends by itself delivers a merge. */
module MergedRuns {
  import opened Kube
  import opened Seqs
  import opened MultiWatch
  import opened MergedStore

  /** The first `started` senders run, the first `ended` of them are gone already, and `d` has been delivered. */
  function Stage(n: nat, started: nat, ended: nat, d: Delivered): State {
    State(seq(n, i => []), seq(n, i => i < ended),
          seq(n, i => if i < ended then Gone else if i < started then Receiving else Starting),
          n - ended, 0, false, d, map[], seq(n, i => 0), false, false,
          seq(n, i requires i >= 0 => From(d, i)), seq(n, i => []))
  }

  lemma {:induction false} RunsSnoc(s: State, steps: seq<Step>, s': State, step: Step)
    requires Runs(s, steps, s') && Sized(s') && Enabled(s', step)
    ensures Runs(s, steps + [step], Do(s', step))
    decreases |steps|
  {
    if steps != [] {
      RunsSnoc(Do(s, steps[0]), steps[1..], s', step);
      TailFirst(steps, [step]);
    }
  }

  lemma ReachableStep(n: nat, s: State, step: Step)
    requires Reachable(n, s) && Sized(s) && Enabled(s, step)
    ensures Reachable(n, Do(s, step))
  {
    var steps :| Runs(Start(n), steps, s);
    RunsSnoc(Start(n), steps, s, step);
  }

  lemma {:induction false} Started(n: nat, k: nat)
    requires k <= n
    ensures Reachable(n, Stage(n, k, 0, []))
  {
    if k == 0 {
      assert Stage(n, 0, 0, []) == Start(n);
      assert Runs(Start(n), [], Start(n));
    } else {
      Started(n, k - 1);
      ReachableStep(n, Stage(n, k - 1, 0, []), Spawn(k - 1));
      assert Do(Stage(n, k - 1, 0, []), Spawn(k - 1)) == Stage(n, k, 0, []);
    }
  }

  /** One event more: produced, received and sent. */
  lemma DeliverOne(n: nat, d: Delivered, i: nat, e: Event)
    requires i < n && Reachable(n, Stage(n, n, 0, d))
    ensures Reachable(n, Stage(n, n, 0, d + [(i, e)]))
  {
    var s := Stage(n, n, 0, d);
    var a := Do(s, Produce(i, e));
    ReachableStep(n, s, Produce(i, e));
    var b := Do(a, Receive(i));
    ReachableStep(n, a, Receive(i));
    var c := Do(b, Send(i));
    ReachableStep(n, b, Send(i));
    assert a.queues[i] == [e] && b.queues[i] == [];
    assert c.queues == s.queues && c.senders == s.senders;
    ProducedOne(n, d, i, e);
    assert c == Stage(n, n, 0, d + [(i, e)]);
  }

  lemma ProducedOne(n: nat, d: Delivered, i: nat, e: Event)
    requires i < n
    ensures Stage(n, n, 0, d + [(i, e)]).produced == Stage(n, n, 0, d).produced[i := From(d, i) + [e]]
  {
    forall j: nat ensures From(d + [(i, e)], j) == if i == j then From(d, j) + [e] else From(d, j) {
      FromSnoc(d, i, e, j);
      assert From(d, j) + [] == From(d, j);
    }
  }

  lemma {:induction false} DeliverAll(n: nat, d: Delivered)
    requires Below(d, n)
    ensures Reachable(n, Stage(n, n, 0, d))
    decreases |d|
  {
    if d == [] {
      Started(n, n);
    } else {
      var init := d[..|d| - 1];
      var (i, e) := d[|d| - 1];
      DeliverAll(n, init);
      DeliverOne(n, init, i, e);
      assert init + [(i, e)] == d;
    }
  }

  /** One source more: closed, seen to be closed, and its sender gone. */
  lemma EndOne(n: nat, i: nat, d: Delivered)
    requires i < n && Reachable(n, Stage(n, n, i, d))
    ensures Reachable(n, Stage(n, n, i + 1, d))
  {
    var s := Stage(n, n, i, d);
    var a := Do(s, CloseSource(i));
    ReachableStep(n, s, CloseSource(i));
    var b := Do(a, SeeClosed(i));
    ReachableStep(n, a, SeeClosed(i));
    ReachableStep(n, b, Done(i));
    assert Do(b, Done(i)) == Stage(n, n, i + 1, d);
  }

  lemma {:induction false} Ended(n: nat, k: nat, d: Delivered)
    requires k <= n && Below(d, n)
    ensures Reachable(n, Stage(n, n, k, d))
  {
    if k == 0 {
      DeliverAll(n, d);
    } else {
      Ended(n, k - 1, d);
      EndOne(n, k - 1, d);
    }
  }

  /** A run over `ps` that ended by itself: all sources closed, Stop never called. */
  ghost predicate Complete(ps: seq<seq<Event>>, s: State) {
    Reachable(|ps|, s) && s.closes == 1 && !s.stopped && s.produced == ps
  }

  lemma CompleteIsMerge(ps: seq<seq<Event>>, s: State)
    requires Complete(ps, s)
    ensures IsMerge(s.delivered, ps)
  {
    ReachableInv(|ps|, s);
    forall i | 0 <= i < |ps| ensures From(s.delivered, i) == ps[i] {
      ClosedMeansAllDelivered(|ps|, s, i);
    }
  }

  lemma MergeIsComplete(ps: seq<seq<Event>>, d: Delivered) returns (s: State)
    requires IsMerge(d, ps)
    ensures Complete(ps, s) && s.delivered == d
  {
    var n := |ps|;
    Ended(n, n, d);
    ReachableStep(n, Stage(n, n, n, d), Close);
    s := Do(Stage(n, n, n, d), Close);
  }

  /** All complete runs over the sources leave the same store. */
  ghost predicate RunsAgree<V>(r: Object -> V, m: map<Uid, V>, ps: seq<seq<Event>>) {
    forall s, s' | Complete(ps, s) && Complete(ps, s') :: Merged(r, m, s.delivered) == Merged(r, m, s'.delivered)
  }

  /** Whatever the interleaving, the store comes out the same, iff for every UID all its sources end in one effect. */
  lemma MergedRunsAgree<V>(r: Object -> V, m: map<Uid, V>, ps: seq<seq<Event>>)
    ensures RunsAgree(r, m, ps) <==> forall u :: SameOutcome(r, ps, u)
  {
    MergeOrderIsIrrelevant(r, m, ps);
    if RunsAgree(r, m, ps) {
      forall d, d' | IsMerge(d, ps) && IsMerge(d', ps) ensures Merged(r, m, d) == Merged(r, m, d') {
        var s := MergeIsComplete(ps, d);
        var s' := MergeIsComplete(ps, d');
      }
    }
    if MergesAgree(r, m, ps) {
      forall s, s' | Complete(ps, s) && Complete(ps, s')
        ensures Merged(r, m, s.delivered) == Merged(r, m, s'.delivered)
      {
        CompleteIsMerge(ps, s);
        CompleteIsMerge(ps, s');
      }
    }
  }

  /**
   A failing input: two sources report an object, one of them also that it is gone. Whichever comes last decides
   whether the store keeps it.
   */
  lemma SharedObjectDiverges<V>(r: Object -> V, m: map<Uid, V>, o: Object) returns (s: State, s': State)
    requires o.HasMeta()
    ensures var ps := [[Event(Added, o)], [Event(Added, o), Event(Deleted, o)]];
            Complete(ps, s) && Complete(ps, s')
    ensures At(Merged(r, m, s.delivered), o.uid) == Some(r(o)) && At(Merged(r, m, s'.delivered), o.uid) == None
  {
    var ps := [[Event(Added, o)], [Event(Added, o), Event(Deleted, o)]];
    assert Outcome(r, ps[0], o.uid) == Some(Some(r(o))) && Outcome(r, ps[1], o.uid) == Some(None);
    var d := MergeEndingWith(r, m, o.uid, ps, 0);
    var d' := MergeEndingWith(r, m, o.uid, ps, 1);
    s := MergeIsComplete(ps, d);
    s' := MergeIsComplete(ps, d');
  }
}
