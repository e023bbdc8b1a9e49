/** pkg/metricshandler: reconfiguration of the served stores, concurrent with scrapes and with itself. */
module Handler {
  import opened Kube

  /** A store as `Build` makes it: its reflector runs until the context of its generation is cancelled. */
  datatype Store = Store(resource: string, generation: nat, shard: int, total: int)

  /** The stores one call of `Build` returns. */
  function StoresOf(resources: seq<string>, generation: nat, shard: int, total: int): (stores: seq<Store>)
    ensures |stores| == |resources|
  {
    seq(|resources|, k requires 0 <= k < |resources| => Store(resources[k], generation, shard, total))
  }

  /** The statement of `ConfigureSharding` that its caller, holding the write lock, executes next. */
  datatype Pc =
    | Cancel | NewContext | WithSharding | WithContext | Build(built: seq<Store>)
    | SetStores(built: seq<Store>) | SetShard | SetTotal

  datatype Call = Call(shard: int, total: int, pc: Pc)

  datatype State = State(
    contexts: nat,               // contexts made so far; the last is number contexts - 1
    cancelled: set<nat>,
    cancel: Option<nat>,         // the context `m.cancel` cancels
    builderShard: int, builderTotal: int, builderContext: nat,
    stores: seq<Store>, curShard: int, curTotal: int,
    writer: Option<Call>,        // the call that holds the write lock
    pending: map<nat, (int, int)>, // calls past the unchanged-check, waiting for the lock
    readers: map<nat, seq<Store>>, // scrapes under the read lock: the stores written so far
    scrapes: seq<seq<Store>>)    // finished scrapes

  datatype Step =
    | Check(t: nat, shard: int, total: int)      // an event handler reads the current settings
    | Request(t: nat, shard: int, total: int)    // a direct call of ConfigureSharding
    | Lock(t: nat) | Advance                     // the call that has, or gets, the write lock
    | ScrapeBegin(t: nat) | ScrapeStore(t: nat) | ScrapeEnd(t: nat)

  const START := State(0, {}, None, 0, 0, 0, [], 0, 0, None, map[], map[], [])

  predicate Enabled(s: State, step: Step) {
    match step
    case Check(t, _, _) => t !in s.pending && s.writer == None
    case Request(t, _, _) => t !in s.pending
    case Lock(t) => t in s.pending && s.writer == None && s.readers == map[]
    case Advance => s.writer.Some?
    case ScrapeBegin(t) => t !in s.readers && s.writer == None
    case ScrapeStore(t) => t in s.readers && |s.readers[t]| < |s.stores|
    case ScrapeEnd(t) => t in s.readers && |s.readers[t]| >= |s.stores|
  }

  /** One statement of `ConfigureSharding`. */
  function Configure(resources: seq<string>, s: State): State
    requires s.writer.Some?
  {
    var call := s.writer.value;
    var goto := (pc: Pc) => Some(call.(pc := pc));
    match call.pc
    case Cancel =>
      s.(cancelled := s.cancelled + (if s.cancel.Some? then {s.cancel.value} else {}), writer := goto(NewContext))
    case NewContext => s.(contexts := s.contexts + 1, cancel := Some(s.contexts), writer := goto(WithSharding))
    case WithSharding => s.(builderShard := call.shard, builderTotal := call.total, writer := goto(WithContext))
    case WithContext =>
      s.(builderContext := if s.cancel.Some? then s.cancel.value else 0, writer := goto(Build([])))
    case Build(built) =>
      if |built| < |resources| then
        var store := Store(resources[|built|], s.builderContext, s.builderShard, s.builderTotal);
        s.(writer := goto(Build(built + [store])))
      else s.(writer := goto(SetStores(built)))
    case SetStores(built) => s.(stores := built, writer := goto(SetShard))
    case SetShard => s.(curShard := call.shard, writer := goto(SetTotal))
    case SetTotal => s.(curTotal := call.total, writer := None)
  }

  function Do(resources: seq<string>, s: State, step: Step): State
    requires Enabled(s, step)
  {
    match step
    case Check(t, shard, total) =>
      if s.curShard == shard && s.curTotal == total then s else s.(pending := s.pending[t := (shard, total)])
    case Request(t, shard, total) => s.(pending := s.pending[t := (shard, total)])
    case Lock(t) =>
      s.(writer := Some(Call(s.pending[t].0, s.pending[t].1, Cancel)), pending := s.pending - {t})
    case Advance => Configure(resources, s)
    case ScrapeBegin(t) => s.(readers := s.readers[t := []])
    case ScrapeStore(t) => s.(readers := s.readers[t := s.readers[t] + [s.stores[|s.readers[t]|]]])
    case ScrapeEnd(t) => s.(readers := s.readers - {t}, scrapes := s.scrapes + [s.readers[t]])
  }

  ghost predicate Runs(resources: seq<string>, s: State, steps: seq<Step>, s': State)
    decreases |steps|
  {
    if steps == [] then s == s'
    else Enabled(s, steps[0]) && Runs(resources, Do(resources, s, steps[0]), steps[1..], s')
  }

  /** What holds while nobody writes: the served stores are one build, of the live context and the current settings. */
  ghost predicate Published(resources: seq<string>, s: State) {
    if s.contexts == 0 then s.stores == [] && s.curShard == 0 && s.curTotal == 0
    else
      && s.contexts - 1 !in s.cancelled
      && s.stores == StoresOf(resources, s.contexts - 1, s.curShard, s.curTotal)
  }

  /** Every context but possibly the last is cancelled. */
  ghost predicate OnlyLastLives(s: State) {
    forall g: nat | g < s.contexts :: g in s.cancelled || g == s.contexts - 1
  }

  /** The stores built so far by the call that holds the lock. */
  ghost predicate BuiltBy(resources: seq<string>, s: State, call: Call, built: seq<Store>) {
    && s.contexts > 0 && |built| <= |resources|
    && built == StoresOf(resources, s.contexts - 1, call.shard, call.total)[..|built|]
  }

  ghost predicate Fresh(s: State) {
    s.contexts > 0 && s.contexts - 1 !in s.cancelled
  }

  ghost predicate WriterInv(resources: seq<string>, s: State, call: Call) {
    match call.pc
    case Cancel => Published(resources, s)
    case NewContext => forall g: nat | g < s.contexts :: g in s.cancelled
    case WithSharding => Fresh(s)
    case WithContext => Fresh(s) && s.builderShard == call.shard && s.builderTotal == call.total
    case Build(built) =>
      && Fresh(s) && s.builderShard == call.shard && s.builderTotal == call.total && s.builderContext == s.contexts - 1
      && BuiltBy(resources, s, call, built)
    case SetStores(built) => Fresh(s) && built == StoresOf(resources, s.contexts - 1, call.shard, call.total)
    case SetShard => Fresh(s) && s.stores == StoresOf(resources, s.contexts - 1, call.shard, call.total)
    case SetTotal =>
      Fresh(s) && s.curShard == call.shard && s.stores == StoresOf(resources, s.contexts - 1, call.shard, call.total)
  }

  /** The stores of one build, or nothing at all. */
  ghost predicate OneBuild(resources: seq<string>, stores: seq<Store>) {
    stores == [] || exists g: nat, shard, total :: stores == StoresOf(resources, g, shard, total)
  }

  ghost predicate Inv(resources: seq<string>, s: State) {
    && OnlyLastLives(s)
    && (forall g | g in s.cancelled :: g < s.contexts)
    && s.cancel == (if s.contexts == 0 then None else Some(s.contexts - 1))
    && (s.writer.Some? ==> s.readers == map[] && WriterInv(resources, s, s.writer.value))
    && (s.writer == None ==> Published(resources, s))
    && (forall t | t in s.readers :: s.readers[t] <= s.stores)
    && (forall k | 0 <= k < |s.scrapes| :: OneBuild(resources, s.scrapes[k]))
  }

  lemma BuildInv(resources: seq<string>, s: State)
    requires Inv(resources, s) && s.writer.Some? && s.writer.value.pc.Build?
    ensures Inv(resources, Configure(resources, s))
  {
  }

  lemma ConfigureInv(resources: seq<string>, s: State)
    requires Inv(resources, s) && s.writer.Some?
    ensures Inv(resources, Configure(resources, s))
  {
    match s.writer.value.pc
    case Build(_) => BuildInv(resources, s);
    case Cancel => assert OnlyLastLives(Configure(resources, s));
    case NewContext =>
    case WithSharding => assert Fresh(Configure(resources, s));
    case WithContext => assert Fresh(Configure(resources, s));
    case SetStores(_) => assert Fresh(Configure(resources, s));
    case SetShard => assert Fresh(Configure(resources, s));
    case SetTotal =>
  }

  lemma StepInv(resources: seq<string>, s: State, step: Step)
    requires Inv(resources, s) && Enabled(s, step)
    ensures Inv(resources, Do(resources, s, step))
  {
    if step.Advance? {
      ConfigureInv(resources, s);
    } else if step.ScrapeEnd? {
      assert s.writer == None;
      assert s.readers[step.t] == s.stores;
      assert OneBuild(resources, s.stores);
    }
  }

  lemma {:induction false} RunInv(resources: seq<string>, s: State, steps: seq<Step>, s': State)
    requires Inv(resources, s) && Runs(resources, s, steps, s')
    ensures Inv(resources, s')
    decreases |steps|
  {
    if steps != [] {
      StepInv(resources, s, steps[0]);
      RunInv(resources, Do(resources, s, steps[0]), steps[1..], s');
    }
  }

  /**
   Over every run of events, concurrent reconfigurations and scrapes: at most one context lives, the last one; a
   scrape shows the stores of one build; and whenever the write lock is free, the served stores were built in the
   live context, with exactly the current settings.
   */
  lemma ReconfigurationIsSound(resources: seq<string>, steps: seq<Step>, s: State)
    requires Runs(resources, START, steps, s)
    ensures forall g: nat | g < s.contexts && g !in s.cancelled :: g == s.contexts - 1
    ensures s.writer == None && s.contexts > 0 ==>
      && s.contexts - 1 !in s.cancelled
      && |s.stores| == |resources|
      && forall k | 0 <= k < |s.stores| :: s.stores[k] == Store(resources[k], s.contexts - 1, s.curShard, s.curTotal)
    ensures forall k | 0 <= k < |s.scrapes| :: OneBuild(resources, s.scrapes[k])
    ensures forall t | t in s.readers :: s.readers[t] <= s.stores && s.writer == None
  {
    assert Inv(resources, START);
    RunInv(resources, START, steps, s);
  }

  // ---- what one call of ConfigureSharding amounts to

  /** The part of the state that a call changes for good. */
  datatype Settings = Settings(
    contexts: nat, cancelled: set<nat>, cancel: Option<nat>, stores: seq<Store>, curShard: int, curTotal: int)

  function SettingsOf(s: State): Settings {
    Settings(s.contexts, s.cancelled, s.cancel, s.stores, s.curShard, s.curTotal)
  }

  /** The old context is cancelled, and one build of a new context is served with the settings it was built for. */
  function Configured(resources: seq<string>, c: Settings, shard: int, total: int): Settings {
    Settings(c.contexts + 1, c.cancelled + (if c.cancel.Some? then {c.cancel.value} else {}), Some(c.contexts),
             StoresOf(resources, c.contexts, shard, total), shard, total)
  }

  /** Statements still to execute. */
  function Remaining(resources: seq<string>, pc: Pc): nat {
    match pc
    case Cancel => |resources| + 8
    case NewContext => |resources| + 7
    case WithSharding => |resources| + 6
    case WithContext => |resources| + 5
    case Build(built) => 4 + if |built| < |resources| then |resources| - |built| else 0
    case SetStores(_) => 3
    case SetShard => 2
    case SetTotal => 1
  }

  /** The state in which the call that holds the lock releases it. */
  function Finish(resources: seq<string>, s: State): State
    decreases if s.writer.Some? then Remaining(resources, s.writer.value.pc) else 0
  {
    if s.writer == None then s else Finish(resources, Configure(resources, s))
  }

  /** The call that holds the lock runs from `s` to `s'`, and nobody else takes a step. */
  ghost predicate RunsAlone(resources: seq<string>, s: State, s': State) {
    exists steps :: Runs(resources, s, steps, s') && forall k | 0 <= k < |steps| :: steps[k] == Advance
  }

  lemma {:induction false} FinishRuns(resources: seq<string>, s: State)
    ensures RunsAlone(resources, s, Finish(resources, s))
    decreases if s.writer.Some? then Remaining(resources, s.writer.value.pc) else 0
  {
    if s.writer == None {
      assert Runs(resources, s, [], s);
    } else {
      var next := Configure(resources, s);
      FinishRuns(resources, next);
      var rest :| Runs(resources, next, rest, Finish(resources, s)) && forall k | 0 <= k < |rest| :: rest[k] == Advance;
      assert ([Advance] + rest)[1..] == rest;
      assert Runs(resources, s, [Advance] + rest, Finish(resources, s));
    }
  }

  /** What `s` has become at the end of a call that is building its stores. */
  ghost predicate EndsAs(resources: seq<string>, s: State, s': State, call: Call) {
    && s'.writer == None
    && SettingsOf(s')
       == Settings(s.contexts, s.cancelled, s.cancel,
                   StoresOf(resources, s.builderContext, s.builderShard, s.builderTotal), call.shard, call.total)
    && s'.pending == s.pending && s'.readers == s.readers && s'.scrapes == s.scrapes
  }

  lemma {:induction false} FinishBuild(resources: seq<string>, s: State, call: Call)
    requires s.writer == Some(call) && call.pc.Build? && |call.pc.built| <= |resources|
    requires call.pc.built == StoresOf(resources, s.builderContext, s.builderShard, s.builderTotal)[..|call.pc.built|]
    ensures EndsAs(resources, s, Finish(resources, s), call)
    decreases |resources| - |call.pc.built|
  {
    var built, all := call.pc.built, StoresOf(resources, s.builderContext, s.builderShard, s.builderTotal);
    var next := Configure(resources, s);
    if |built| < |resources| {
      assert all[..|built| + 1] == all[..|built|] + [all[|built|]];
      FinishBuild(resources, next, next.writer.value);
    } else {
      assert all[..|all|] == all;
      FinishSet(resources, next, next.writer.value);
    }
  }

  lemma FinishSet(resources: seq<string>, s: State, call: Call)
    requires s.writer == Some(call) && call.pc.SetStores?
    ensures Finish(resources, s)
         == s.(stores := call.pc.built, curShard := call.shard, curTotal := call.total, writer := None)
  {
    var a := Configure(resources, s);
    var b := Configure(resources, a);
    var c := Configure(resources, b);
    assert Finish(resources, a) == Finish(resources, b) == Finish(resources, c) == c;
  }

  /** Executed statement by statement from the moment it gets the lock, a call has the effect `Configured` says. */
  lemma CallConfigures(resources: seq<string>, s: State, shard: int, total: int) returns (s': State)
    requires s.writer == Some(Call(shard, total, Cancel))
    ensures RunsAlone(resources, s, s')
    ensures s'.writer == None && SettingsOf(s') == Configured(resources, SettingsOf(s), shard, total)
    ensures s'.pending == s.pending && s'.readers == s.readers && s'.scrapes == s.scrapes
  {
    s' := Finish(resources, s);
    FinishRuns(resources, s);
    var a := Configure(resources, s);
    var b := Configure(resources, a);
    var c := Configure(resources, b);
    var d := Configure(resources, c);
    assert Finish(resources, s) == Finish(resources, a) == Finish(resources, b);
    assert Finish(resources, b) == Finish(resources, c) == Finish(resources, d);
    FinishBuild(resources, d, d.writer.value);
  }

  /** An event for settings that are already current leaves everything as it is. */
  lemma CurrentSettingsStay(resources: seq<string>, s: State, t: nat)
    requires Enabled(s, Check(t, s.curShard, s.curTotal))
    ensures Do(resources, s, Check(t, s.curShard, s.curTotal)) == s
  {
  }

  /** An event for other settings gets the lock when it can, and then leads to one new build with those settings. */
  lemma OtherSettingsAreServed(resources: seq<string>, s: State, t: nat, shard: int, total: int) returns (s': State)
    requires Enabled(s, Check(t, shard, total)) && s.readers == map[]
    requires s.curShard != shard || s.curTotal != total
    ensures var checked := Do(resources, s, Check(t, shard, total));
            Enabled(checked, Lock(t)) && RunsAlone(resources, Do(resources, checked, Lock(t)), s')
    ensures s'.contexts == s.contexts + 1 && s'.curShard == shard && s'.curTotal == total && s'.writer == None
  {
    var checked := Do(resources, s, Check(t, shard, total));
    s' := CallConfigures(resources, Do(resources, checked, Lock(t)), shard, total);
  }

  ghost predicate Reaches(resources: seq<string>, s: State, s': State) {
    exists steps :: Runs(resources, s, steps, s')
  }

  lemma FirstStep(resources: seq<string>, s: State, step: Step, s': State)
    requires Enabled(s, step) && Reaches(resources, Do(resources, s, step), s')
    ensures Reaches(resources, s, s')
  {
    var steps :| Runs(resources, Do(resources, s, step), steps, s');
    assert ([step] + steps)[1..] == steps;
    assert Runs(resources, s, [step] + steps, s');
  }

  lemma {:induction false} ScrapeRest(resources: seq<string>, s: State, t: nat) returns (s': State)
    requires s.writer == None && t in s.readers && s.readers[t] <= s.stores
    ensures Reaches(resources, s, s') && s'.scrapes == s.scrapes + [s.stores]
    decreases |s.stores| - |s.readers[t]|
  {
    var step := if |s.readers[t]| < |s.stores| then ScrapeStore(t) else ScrapeEnd(t);
    s' := Do(resources, s, step);
    if step.ScrapeStore? {
      var n := |s.readers[t]|;
      assert s.stores[..n + 1] == s.stores[..n] + [s.stores[n]];
      s' := ScrapeRest(resources, s', t);
    } else {
      assert s.readers[t] == s.stores;
      assert Runs(resources, s', [], s');
    }
    FirstStep(resources, s, step, s');
  }

  /** Whenever nobody writes, a scrape can be made, and it shows exactly the stores that are served. */
  lemma ScrapeShowsTheStores(resources: seq<string>, s: State, t: nat) returns (s': State)
    requires s.writer == None && t !in s.readers
    ensures Reaches(resources, s, s') && s'.scrapes == s.scrapes + [s.stores]
  {
    s' := ScrapeRest(resources, Do(resources, s, ScrapeBegin(t)), t);
    FirstStep(resources, s, ScrapeBegin(t), s');
  }
}
