/** pkg/listwatch: calls of `multiWatch.Stop`. They are safe to repeat exactly as long as they do not overlap. */
module StopCalls {
  import opened MultiWatch
  import opened MergedRuns

  /** A call of Stop begins only when no other call is past its check. */
  predicate SerialStep(s: State, step: Step) {
    step.StopCheck? ==> s.stops == map[]
  }

  ghost predicate SerialRuns(s: State, steps: seq<Step>, s': State)
    decreases |steps|
  {
    if steps == [] then s == s'
    else Sized(s) && Enabled(s, steps[0]) && SerialStep(s, steps[0]) && SerialRuns(Do(s, steps[0]), steps[1..], s')
  }

  // ---- calls that do not overlap

  /** At most one call is past the check, and none once `stopped` is closed. */
  predicate NoOverlap(s: State) {
    && (forall t, t' | t in s.stops && t' in s.stops :: t == t')
    && (s.stops != map[] ==> !s.stopped)
  }

  lemma NoOverlapStep(s: State, step: Step)
    requires Sized(s) && NoOverlap(s) && !s.badStop && Enabled(s, step) && SerialStep(s, step)
    ensures Sized(Do(s, step)) && NoOverlap(Do(s, step)) && !Do(s, step).badStop
  {
  }

  lemma {:induction false} NoOverlapRun(s: State, steps: seq<Step>, s': State)
    requires Sized(s) && NoOverlap(s) && !s.badStop && SerialRuns(s, steps, s')
    ensures Sized(s') && NoOverlap(s') && !s'.badStop
    decreases |steps|
  {
    if steps != [] {
      NoOverlapStep(s, steps[0]);
      NoOverlapRun(Do(s, steps[0]), steps[1..], s');
    }
  }

  /** How often stopper `j` has been called: once it has been its turn, once. */
  predicate StopperCount(s: State, j: nat)
    requires Sized(s) && j < Size(s)
  {
    s.stopperCalls[j] == if s.stopped || exists t :: t in s.stops && j < s.stops[t] then 1 else 0
  }

  ghost predicate StopInv(s: State) {
    && Sized(s) && NoOverlap(s)
    && forall j | 0 <= j < Size(s) :: StopperCount(s, j)
  }

  lemma StopStepInv(s: State, step: Step)
    requires StopInv(s) && !s.badStop && Enabled(s, step) && SerialStep(s, step)
    ensures StopInv(Do(s, step)) && !Do(s, step).badStop
  {
    var s' := Do(s, step);
    NoOverlapStep(s, step);
    forall j | 0 <= j < Size(s') ensures StopperCount(s', j) {
      assert StopperCount(s, j);
      match step
      case StopOne(t) =>
        assert t in s'.stops && s'.stops[t] == s.stops[t] + 1;
      case StopClose(t) =>
        assert t in s.stops && j < s.stops[t];
      case _ =>
    }
  }

  lemma {:induction false} SerialRunInv(s: State, steps: seq<Step>, s': State)
    requires StopInv(s) && !s.badStop && SerialRuns(s, steps, s')
    ensures StopInv(s') && !s'.badStop
    decreases |steps|
  {
    if steps != [] {
      StopStepInv(s, steps[0]);
      SerialRunInv(Do(s, steps[0]), steps[1..], s');
    }
  }

  /** Calls of Stop that do not overlap call every stopper at most once and close `stopped` at most once. */
  lemma SerialStopsAreSafe(n: nat, steps: seq<Step>, s: State)
    requires SerialRuns(Start(n), steps, s)
    ensures Sized(s) && !s.badStop
    ensures forall j | 0 <= j < Size(s) :: s.stopperCalls[j] <= 1
    ensures s.stopped ==> forall j | 0 <= j < Size(s) :: s.stopperCalls[j] == 1
  {
    forall j | 0 <= j < n ensures StopperCount(Start(n), j) {
    }
    SerialRunInv(Start(n), steps, s);
    forall j | 0 <= j < Size(s) ensures s.stopperCalls[j] <= 1 && (s.stopped ==> s.stopperCalls[j] == 1) {
      assert StopperCount(s, j);
    }
  }

  // ---- calls that overlap

  /** Some run without a further overlapping call leads from `s` to `s'`. */
  ghost predicate SerialReaches(s: State, s': State) {
    exists steps :: SerialRuns(s, steps, s')
  }

  lemma SerialFirst(s: State, step: Step, s': State)
    requires Sized(s) && Enabled(s, step) && SerialStep(s, step) && SerialReaches(Do(s, step), s')
    ensures SerialReaches(s, s')
  {
    var steps :| SerialRuns(Do(s, step), steps, s');
    assert ([step] + steps)[1..] == steps;
    assert SerialRuns(s, [step] + steps, s');
  }

  lemma {:induction false} SerialThen(s: State, steps: seq<Step>, m: State, s': State)
    requires SerialRuns(s, steps, m) && SerialReaches(m, s')
    ensures SerialReaches(s, s')
    decreases |steps|
  {
    if steps != [] {
      SerialThen(Do(s, steps[0]), steps[1..], m, s');
      SerialFirst(s, steps[0], s');
    }
  }

  /** A call past its check can always go on to its close; if `stopped` is closed by then, that close panics. */
  lemma {:induction false} Finish(s: State, t: nat) returns (s': State)
    requires Sized(s) && t in s.stops
    ensures SerialReaches(s, s') && Sized(s')
    ensures s'.stopped && s'.stops == s.stops - {t} && (s.stopped ==> s'.badStop)
    decreases Size(s) - s.stops[t]
  {
    if s.stops[t] < Size(s) {
      s' := Finish(Do(s, StopOne(t)), t);
      SerialFirst(s, StopOne(t), s');
    } else {
      s' := Do(s, StopClose(t));
      assert SerialRuns(s', [], s');
      SerialFirst(s, StopClose(t), s');
    }
  }

  /** Two calls past the check, wherever they are: without any further call, a second close of `stopped` can follow. */
  lemma OverlappingStopsPanic(s: State, t: nat, t': nat) returns (s': State)
    requires Sized(s) && t != t' && t in s.stops && t' in s.stops
    ensures SerialReaches(s, s') && s'.badStop
  {
    var m := Finish(s, t);
    s' := Finish(m, t');
    var steps :| SerialRuns(s, steps, m);
    SerialThen(s, steps, m, s');
  }

  /** No run that adds no overlapping call closes `stopped` a second time. */
  ghost predicate StopsSafely(s: State) {
    forall s' | SerialReaches(s, s') :: !s'.badStop
  }

  /** No second close can follow iff at most one call is past the check, and none of them after the first close. */
  lemma SafeIffNoOverlap(s: State)
    requires Sized(s) && !s.badStop
    ensures StopsSafely(s) <==> NoOverlap(s)
  {
    if NoOverlap(s) {
      forall s' | SerialReaches(s, s') ensures !s'.badStop {
        var steps :| SerialRuns(s, steps, s');
        NoOverlapRun(s, steps, s');
      }
    } else if t, t' :| t in s.stops && t' in s.stops && t != t' {
      var s' := OverlappingStopsPanic(s, t, t');
    } else {
      var t :| t in s.stops;
      var s' := Finish(s, t);
    }
  }

  lemma {:induction false} ReachableRun(n: nat, s: State, steps: seq<Step>, s': State)
    requires Reachable(n, s) && SerialRuns(s, steps, s')
    ensures Reachable(n, s')
    decreases |steps|
  {
    if steps != [] {
      ReachableStep(n, s, steps[0]);
      ReachableRun(n, Do(s, steps[0]), steps[1..], s');
    }
  }

  /** Overlap does occur, whatever the number of sources: two callers pass the check, and the second close panics. */
  lemma OverlapIsReachable(n: nat) returns (s: State)
    ensures Reachable(n, s) && s.badStop
  {
    var s0 := Stage(n, n, 0, []);
    Started(n, n);
    var s1 := Do(s0, StopCheck(0));
    ReachableStep(n, s0, StopCheck(0));
    var s2 := Do(s1, StopCheck(1));
    ReachableStep(n, s1, StopCheck(1));
    s := OverlappingStopsPanic(s2, 0, 1);
    var rest :| SerialRuns(s2, rest, s);
    ReachableRun(n, s2, rest, s);
  }
}
