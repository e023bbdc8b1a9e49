/**
 pkg/listwatch: the merge of several watches into one. Every goroutine takes its own steps; a run is any interleaving.
 */
module MultiWatch {
  import opened Kube

  /** A sender goroutine. `Leaving` has returned from its loop and not yet called `wg.Done`. */
  datatype Sender = Starting | Receiving | Holding(event: Event) | Leaving | Gone

  datatype State = State(
    queues: seq<seq<Event>>,        // per source: sent, not yet received by its sender
    sourceClosed: seq<bool>,        // per source: result channel closed
    senders: seq<Sender>,
    waitGroup: int,
    closes: nat,                    // how often the result channel has been closed
    stopped: bool,                  // the `stopped` channel is closed
    delivered: seq<(nat, Event)>,   // what went through the result channel, with its source
    stops: map<nat, nat>,           // calls of Stop past their check: the next stopper to call
    stopperCalls: seq<nat>,         // per source: how often its Stop has been called
    badChannel: bool,               // a send on, or a second close of, the result channel; a negative wait group
    badStop: bool,                  // a second close of the `stopped` channel
    produced: seq<seq<Event>>,      // history: everything each source has sent
    dropped: seq<seq<Event>>)       // history: the event a sender gave up when it saw `stopped`

  datatype Step =
    | Produce(i: nat, event: Event) | CloseSource(i: nat)                  // environment
    | Spawn(i: nat)                                                        // the loop of newMultiWatch
    | Receive(i: nat) | SeeClosed(i: nat) | Send(i: nat) | SeeStopped(i: nat) | Done(i: nat)
    | Close                                                                // the closer goroutine
    | StopCheck(t: nat) | StopOne(t: nat) | StopClose(t: nat)              // a call of Stop by caller t

  function Size(s: State): nat {
    |s.senders|
  }

  /** `newMultiWatch` before it starts its first goroutine: `wg.Add(n)` comes first. */
  function Start(n: nat): State {
    State(seq(n, i => []), seq(n, i => false), seq(n, i => Starting), n, 0, false, [], map[], seq(n, i => 0),
          false, false, seq(n, i => []), seq(n, i => []))
  }

  predicate Sized(s: State) {
    |s.queues| == |s.sourceClosed| == |s.senders| == |s.stopperCalls| == |s.produced| == |s.dropped|
  }

  /** The loop of newMultiWatch is over: the closer is started, and the multi-watch returned to its caller. */
  predicate AllStarted(s: State) {
    forall j | 0 <= j < Size(s) :: s.senders[j] != Starting
  }

  predicate Enabled(s: State, step: Step)
    requires Sized(s)
  {
    match step
    case Produce(i, _) => i < Size(s) && !s.sourceClosed[i]
    case CloseSource(i) => i < Size(s) && !s.sourceClosed[i]
    case Spawn(i) => i < Size(s) && s.senders[i] == Starting && forall j | 0 <= j < i :: s.senders[j] != Starting
    case Receive(i) => i < Size(s) && s.senders[i] == Receiving && s.queues[i] != []
    case SeeClosed(i) => i < Size(s) && s.senders[i] == Receiving && s.queues[i] == [] && s.sourceClosed[i]
    case Send(i) => i < Size(s) && s.senders[i].Holding?
    case SeeStopped(i) => i < Size(s) && s.senders[i].Holding? && s.stopped
    case Done(i) => i < Size(s) && s.senders[i] == Leaving
    case Close => s.waitGroup == 0 && s.closes == 0 && AllStarted(s)
    case StopCheck(t) => t !in s.stops && AllStarted(s)
    case StopOne(t) => t in s.stops && s.stops[t] < Size(s)
    case StopClose(t) => t in s.stops && s.stops[t] >= Size(s)
  }

  function Do(s: State, step: Step): State
    requires Sized(s) && Enabled(s, step)
  {
    match step
    case Produce(i, e) =>
      s.(queues := s.queues[i := s.queues[i] + [e]], produced := s.produced[i := s.produced[i] + [e]])
    case CloseSource(i) => s.(sourceClosed := s.sourceClosed[i := true])
    case Spawn(i) => s.(senders := s.senders[i := Receiving])
    case Receive(i) =>
      s.(senders := s.senders[i := Holding(s.queues[i][0])], queues := s.queues[i := s.queues[i][1..]])
    case SeeClosed(i) => s.(senders := s.senders[i := Leaving])
    case Send(i) =>
      s.(senders := s.senders[i := Receiving], delivered := s.delivered + [(i, s.senders[i].event)],
         badChannel := s.badChannel || s.closes > 0)
    case SeeStopped(i) =>
      s.(senders := s.senders[i := Leaving], dropped := s.dropped[i := s.dropped[i] + [s.senders[i].event]])
    case Done(i) =>
      s.(senders := s.senders[i := Gone], waitGroup := s.waitGroup - 1, badChannel := s.badChannel || s.waitGroup <= 0)
    case Close => s.(closes := s.closes + 1, badChannel := s.badChannel || s.closes > 0)
    case StopCheck(t) => if s.stopped then s else s.(stops := s.stops[t := 0])
    case StopOne(t) =>
      var j := s.stops[t];
      s.(stopperCalls := s.stopperCalls[j := s.stopperCalls[j] + 1], stops := s.stops[t := j + 1])
    case StopClose(t) =>
      s.(stopped := true, stops := s.stops - {t}, badStop := s.badStop || s.stopped)
  }

  /** `s'` is reached from `s` by the steps. */
  ghost predicate Runs(s: State, steps: seq<Step>, s': State)
    decreases |steps|
  {
    if steps == [] then s == s'
    else Sized(s) && Enabled(s, steps[0]) && Runs(Do(s, steps[0]), steps[1..], s')
  }

  // ---- totals over senders

  function Total(ws: seq<nat>): nat {
    if ws == [] then 0 else ws[0] + Total(ws[1..])
  }

  lemma {:induction false} TotalUpdate(ws: seq<nat>, i: nat, w: nat)
    requires i < |ws|
    ensures Total(ws[i := w]) + ws[i] == Total(ws) + w
  {
    if i == 0 {
      assert ws[i := w][1..] == ws[1..];
    } else {
      TotalUpdate(ws[1..], i - 1, w);
      assert ws[i := w][1..] == ws[1..][i - 1 := w];
    }
  }

  lemma {:induction false} TotalZero(ws: seq<nat>)
    ensures Total(ws) == 0 <==> forall i | 0 <= i < |ws| :: ws[i] == 0
  {
    if ws != [] {
      TotalZero(ws[1..]);
      assert forall i | 0 < i < |ws| :: ws[i] == ws[1..][i - 1];
    }
  }

  lemma {:induction false} TotalOnes(ws: seq<nat>)
    requires forall i | 0 <= i < |ws| :: ws[i] == 1
    ensures Total(ws) == |ws|
  {
    if ws != [] {
      TotalOnes(ws[1..]);
    }
  }

  function Alive(x: Sender): nat {
    if x == Gone then 0 else 1
  }

  function AliveFlags(senders: seq<Sender>): seq<nat> {
    seq(|senders|, i requires 0 <= i < |senders| => Alive(senders[i]))
  }

  /** The number of sender goroutines that have not called `wg.Done`. */
  function LiveSenders(s: State): nat {
    Total(AliveFlags(s.senders))
  }

  lemma LiveUpdate(senders: seq<Sender>, i: nat, x: Sender)
    requires i < |senders|
    ensures Total(AliveFlags(senders[i := x])) + Alive(senders[i]) == Total(AliveFlags(senders)) + Alive(x)
  {
    TotalUpdate(AliveFlags(senders), i, Alive(x));
    assert AliveFlags(senders[i := x]) == AliveFlags(senders)[i := Alive(x)];
  }

  // ---- the invariant of every interleaving

  /** The events of source `i` among those delivered, in order. */
  function From(delivered: seq<(nat, Event)>, i: nat): seq<Event> {
    if delivered == [] then []
    else
      var (j, e) := delivered[|delivered| - 1];
      From(delivered[..|delivered| - 1], i) + (if j == i then [e] else [])
  }

  function Held(x: Sender): seq<Event> {
    if x.Holding? then [x.event] else []
  }

  predicate Left(x: Sender) {
    x == Leaving || x == Gone
  }

  /** Where the events of a source are: delivered, in the sender's hand or given up, or still queued; in that order. */
  predicate Ledger(produced: seq<Event>, sent: seq<Event>, x: Sender, dropped: seq<Event>, queue: seq<Event>,
                   closed: bool, stopped: bool)
  {
    && produced == sent + (Held(x) + dropped) + queue
    && |Held(x) + dropped| <= 1
    && (dropped != [] ==> stopped && Left(x))
    && (Left(x) && dropped == [] ==> queue == [] && closed)
  }

  predicate Accounted(s: State, i: nat)
    requires Sized(s) && i < Size(s)
  {
    Ledger(s.produced[i], From(s.delivered, i), s.senders[i], s.dropped[i], s.queues[i], s.sourceClosed[i], s.stopped)
  }

  /** The wait group counts the live senders, and the result channel is closed after the last of them, once. */
  ghost predicate ChannelInv(s: State) {
    && Sized(s)
    && !s.badChannel
    && s.waitGroup == LiveSenders(s)
    && s.closes <= 1
    && (s.closes == 1 ==> s.waitGroup == 0)
  }

  ghost predicate Inv(s: State) {
    && ChannelInv(s)
    && (forall i | 0 <= i < Size(s) :: Accounted(s, i))
    && (forall k | 0 <= k < |s.delivered| :: s.delivered[k].0 < Size(s))
  }

  lemma StartInv(n: nat)
    ensures Inv(Start(n))
  {
    var s := Start(n);
    TotalOnes(AliveFlags(s.senders));
    forall i | 0 <= i < n ensures Accounted(s, i) {
    }
  }

  lemma NoneAlive(s: State, i: nat)
    requires ChannelInv(s) && s.waitGroup == 0 && i < Size(s)
    ensures s.senders[i] == Gone
  {
    TotalZero(AliveFlags(s.senders));
    assert AliveFlags(s.senders)[i] == 0;
  }

  lemma SomeAlive(s: State, i: nat)
    requires ChannelInv(s) && i < Size(s) && s.senders[i] != Gone
    ensures s.waitGroup > 0 && s.closes == 0
  {
    if s.waitGroup == 0 {
      NoneAlive(s, i);
    }
  }

  lemma LedgerProduce(produced: seq<Event>, sent: seq<Event>, x: Sender, dropped: seq<Event>, queue: seq<Event>,
                      stopped: bool, e: Event)
    requires Ledger(produced, sent, x, dropped, queue, false, stopped)
    ensures Ledger(produced + [e], sent, x, dropped, queue + [e], false, stopped)
  {
  }

  lemma LedgerReceive(produced: seq<Event>, sent: seq<Event>, dropped: seq<Event>, queue: seq<Event>, closed: bool,
                      stopped: bool)
    requires queue != [] && Ledger(produced, sent, Receiving, dropped, queue, closed, stopped)
    ensures Ledger(produced, sent, Holding(queue[0]), dropped, queue[1..], closed, stopped)
  {
  }

  lemma LedgerSend(produced: seq<Event>, sent: seq<Event>, e: Event, dropped: seq<Event>, queue: seq<Event>,
                   closed: bool, stopped: bool)
    requires Ledger(produced, sent, Holding(e), dropped, queue, closed, stopped)
    ensures Ledger(produced, sent + [e], Receiving, dropped, queue, closed, stopped)
  {
  }

  lemma LedgerStop(produced: seq<Event>, sent: seq<Event>, e: Event, dropped: seq<Event>, queue: seq<Event>,
                   closed: bool)
    requires Ledger(produced, sent, Holding(e), dropped, queue, closed, true)
    ensures Ledger(produced, sent, Leaving, dropped + [e], queue, closed, true)
  {
    assert dropped == [];
    assert [e] + [] == [] + ([] + [e]);
  }

  lemma AccountedSend(s: State, j: nat, i: nat)
    requires Inv(s) && Enabled(s, Send(j)) && i < Size(s)
    ensures Accounted(Do(s, Send(j)), i) <==> Accounted(s, i)
  {
    var sent := From(s.delivered, i);
    FromSnoc(s.delivered, j, s.senders[j].event, i);
    assert Accounted(s, i);
    if j == i {
      LedgerSend(s.produced[i], sent, s.senders[i].event, s.dropped[i], s.queues[i], s.sourceClosed[i], s.stopped);
    } else {
      assert sent + [] == sent;
    }
  }

  lemma AccountedInflow(s: State, step: Step, i: nat)
    requires Inv(s) && Enabled(s, step) && i < Size(s) && (step.Produce? || step.Receive?)
    ensures Accounted(Do(s, step), i) <==> Accounted(s, i)
  {
    assert Accounted(s, i);
    var sent := From(s.delivered, i);
    if step.i == i && step.Produce? {
      LedgerProduce(s.produced[i], sent, s.senders[i], s.dropped[i], s.queues[i], s.stopped, step.event);
    } else if step.i == i {
      LedgerReceive(s.produced[i], sent, s.dropped[i], s.queues[i], s.sourceClosed[i], s.stopped);
    }
  }

  lemma AccountedOutflow(s: State, step: Step, i: nat)
    requires Inv(s) && Enabled(s, step) && i < Size(s)
    requires step.SeeStopped? || step.SeeClosed? || step.Done? || step.Spawn?
    ensures Accounted(Do(s, step), i) <==> Accounted(s, i)
  {
    assert Accounted(s, i);
    if step == SeeStopped(i) {
      LedgerStop(s.produced[i], From(s.delivered, i), s.senders[i].event, s.dropped[i], s.queues[i], s.sourceClosed[i]);
    }
  }

  /** No step upsets the account of a source. */
  lemma AccountedStep(s: State, step: Step, i: nat)
    requires Inv(s) && Enabled(s, step) && i < Size(s)
    ensures Accounted(Do(s, step), i) <==> Accounted(s, i)
  {
    match step
    case Send(j) => AccountedSend(s, j, i);
    case Produce(_, _) => AccountedInflow(s, step, i);
    case Receive(_) => AccountedInflow(s, step, i);
    case SeeStopped(_) => AccountedOutflow(s, step, i);
    case SeeClosed(_) => AccountedOutflow(s, step, i);
    case Done(_) => AccountedOutflow(s, step, i);
    case Spawn(_) => AccountedOutflow(s, step, i);
    case _ => assert Accounted(s, i);
  }

  lemma FromSnoc(delivered: seq<(nat, Event)>, j: nat, e: Event, i: nat)
    ensures From(delivered + [(j, e)], i) == From(delivered, i) + (if j == i then [e] else [])
  {
  }

  lemma ChannelStepInv(s: State, step: Step)
    requires ChannelInv(s) && Enabled(s, step)
    ensures ChannelInv(Do(s, step))
  {
    var s' := Do(s, step);
    if step.Spawn? || step.Receive? || step.SeeClosed? || step.Send? || step.SeeStopped? || step.Done? {
      LiveUpdate(s.senders, step.i, s'.senders[step.i]);
      SomeAlive(s, step.i);
    }
  }

  lemma StepInv(s: State, step: Step)
    requires Inv(s) && Enabled(s, step)
    ensures Inv(Do(s, step))
  {
    var s' := Do(s, step);
    ChannelStepInv(s, step);
    forall i | 0 <= i < Size(s') ensures Accounted(s', i) {
      AccountedStep(s, step, i);
    }
  }

  lemma {:induction false} RunInv(s: State, steps: seq<Step>, s': State)
    requires Inv(s) && Runs(s, steps, s')
    ensures Inv(s')
    decreases |steps|
  {
    if steps != [] {
      StepInv(s, steps[0]);
      RunInv(Do(s, steps[0]), steps[1..], s');
    }
  }

  /** A state some interleaving of a multi-watch over `n` sources reaches; all of them are `Sized`. */
  ghost predicate Reachable(n: nat, s: State) {
    exists steps :: Runs(Start(n), steps, s)
  }

  lemma ReachableInv(n: nat, s: State)
    requires Reachable(n, s)
    ensures Inv(s)
  {
    var steps :| Runs(Start(n), steps, s);
    StartInv(n);
    RunInv(Start(n), steps, s);
  }

  /** The channel and the wait group are used soundly in every interleaving. */
  lemma ChannelsAreSafe(n: nat, s: State)
    requires Reachable(n, s)
    ensures !s.badChannel && s.closes <= 1
    ensures s.waitGroup == LiveSenders(s)
    ensures s.closes == 1 ==> forall i | 0 <= i < Size(s) :: s.senders[i] == Gone
  {
    ReachableInv(n, s);
    if s.closes == 1 {
      forall i | 0 <= i < Size(s) ensures s.senders[i] == Gone {
        NoneAlive(s, i);
      }
    }
  }

  /**
   Per source, what was delivered is a prefix of what was produced, in order. Before Stop only queued and held events
   are missing; after Stop a sender has given up at most the one event in its hand, beside what it never received.
   */
  lemma DeliveryIsInOrder(n: nat, s: State, i: nat)
    requires Reachable(n, s) && Sized(s) && i < Size(s)
    ensures From(s.delivered, i) <= s.produced[i]
    ensures !s.stopped ==> s.produced[i] == From(s.delivered, i) + Held(s.senders[i]) + s.queues[i]
    ensures exists lost :: |lost| <= 1 && s.produced[i] == From(s.delivered, i) + lost + s.queues[i]
  {
    ReachableInv(n, s);
    assert Accounted(s, i);
    var lost := Held(s.senders[i]) + s.dropped[i];
    assert s.produced[i] == From(s.delivered, i) + lost + s.queues[i];
    if !s.stopped {
      assert lost == Held(s.senders[i]);
    }
  }

  /** If the result channel closes without Stop, every event of every source has been delivered. */
  lemma ClosedMeansAllDelivered(n: nat, s: State, i: nat)
    requires Reachable(n, s) && Sized(s) && i < Size(s)
    requires s.closes == 1 && !s.stopped
    ensures From(s.delivered, i) == s.produced[i]
  {
    ReachableInv(n, s);
    NoneAlive(s, i);
    assert Accounted(s, i);
  }

  /** A sender that holds an event after Stop may still deliver it, or give it up: select takes either. */
  lemma SelectIsFree(s: State, i: nat)
    requires Sized(s) && i < Size(s) && s.senders[i].Holding? && s.stopped
    ensures Enabled(s, Send(i)) && Do(s, Send(i)).delivered == s.delivered + [(i, s.senders[i].event)]
    ensures Enabled(s, SeeStopped(i)) && Do(s, SeeStopped(i)).delivered == s.delivered
  {
  }

  // ---- stopping ends

  function Weight(x: Sender, queued: nat): nat {
    2 * queued + (
      match x
      case Gone => 0
      case Leaving => 1
      case Receiving => 2
      case Holding(_) => 3
      case Starting => 3
    )
  }

  function Weights(s: State): seq<nat>
    requires Sized(s)
  {
    seq(Size(s), i requires 0 <= i < Size(s) => Weight(s.senders[i], |s.queues[i]|))
  }

  /** Steps the multi-watch can still take once its sources are closed and `stopped` is. */
  function Measure(s: State): nat
    requires Sized(s)
  {
    Total(Weights(s)) + (1 - if s.closes > 0 then 1 else 0)
  }

  /** Stop has run, and every source has closed its channel. */
  predicate Draining(s: State) {
    Sized(s) && s.stopped && s.stops == map[] && forall i | 0 <= i < Size(s) :: s.sourceClosed[i]
  }

  /** Every step but a further call of Stop uses up the measure; a further call of Stop changes nothing. */
  lemma DrainStep(s: State, step: Step)
    requires Inv(s) && Draining(s) && Enabled(s, step)
    ensures Draining(Do(s, step))
    ensures if step.StopCheck? then Do(s, step) == s else Measure(Do(s, step)) < Measure(s)
  {
    var s' := Do(s, step);
    if step.Spawn? || step.Receive? || step.SeeClosed? || step.Send? || step.SeeStopped? || step.Done? {
      var i := step.i;
      var w := Weight(s'.senders[i], |s'.queues[i]|);
      assert Weights(s') == Weights(s)[i := w];
      TotalUpdate(Weights(s), i, w);
    }
  }

  predicate WorkStep(step: Step) {
    !step.StopCheck?
  }

  lemma {:induction false} DrainRun(s: State, steps: seq<Step>, s': State)
    requires Inv(s) && Draining(s) && Runs(s, steps, s')
    requires forall k | 0 <= k < |steps| :: WorkStep(steps[k])
    ensures (Draining(s') <==> Draining(s)) && |steps| + Measure(s') <= Measure(s)
    decreases |steps|
  {
    if steps != [] {
      StepInv(s, steps[0]);
      DrainStep(s, steps[0]);
      DrainRun(Do(s, steps[0]), steps[1..], s');
    }
  }

  /** A step that does not need the consumer of the result channel. */
  predicate OwnStep(step: Step) {
    step.Spawn? || step.Receive? || step.SeeClosed? || step.SeeStopped? || step.Done? || step.Close?
  }

  lemma {:induction false} FirstStarting(s: State, i: nat) returns (j: nat)
    requires Sized(s) && i < Size(s) && s.senders[i] == Starting
    ensures j < Size(s) && Enabled(s, Spawn(j))
  {
    j := i;
    if k :| 0 <= k < i && s.senders[k] == Starting {
      j := FirstStarting(s, k);
    }
  }

  /** As long as the result channel is open, some goroutine can move without any help from the consumer. */
  lemma DrainProgress(s: State) returns (step: Step)
    requires Inv(s) && Draining(s) && s.closes == 0
    ensures OwnStep(step) && Enabled(s, step)
  {
    if i :| 0 <= i < Size(s) && s.senders[i] == Starting {
      var j := FirstStarting(s, i);
      step := Spawn(j);
    } else if i :| 0 <= i < Size(s) && s.senders[i] != Gone {
      match s.senders[i]
      case Receiving => step := if s.queues[i] == [] then SeeClosed(i) else Receive(i);
      case Holding(_) => step := SeeStopped(i);
      case Leaving => step := Done(i);
    } else {
      TotalZero(AliveFlags(s.senders));
      step := Close;
    }
  }

  /**
   After Stop and the closing of the sources, every interleaving takes at most `Measure` steps, and where it can take
   no more, all senders are gone and the result channel has been closed exactly once.
   */
  lemma StopEnds(n: nat, s: State, steps: seq<Step>, s': State)
    requires Reachable(n, s) && Draining(s) && Runs(s, steps, s') && Sized(s')
    requires forall k | 0 <= k < |steps| :: WorkStep(steps[k])
    ensures |steps| <= Measure(s)
    ensures (forall step | OwnStep(step) :: !Enabled(s', step)) ==>
              s'.closes == 1 && forall i | 0 <= i < Size(s') :: s'.senders[i] == Gone
  {
    ReachableInv(n, s);
    RunInv(s, steps, s');
    DrainRun(s, steps, s');
    if forall step | OwnStep(step) :: !Enabled(s', step) {
      if s'.closes == 0 {
        var step := DrainProgress(s');
        assert false;
      }
      forall i | 0 <= i < Size(s') ensures s'.senders[i] == Gone {
        NoneAlive(s', i);
      }
    }
  }
}
