/** pkg/listwatch/namespace_denylist.go: hiding the objects of denied namespaces. */
module Denylist {
  import opened Kube
  import opened Seqs
  import opened StoreSpec
  import opened Reflector
  import opened Fresh

  /** The namespace an object counts under: a namespace object counts under its own name. */
  function NamespaceOf(o: Object): string
    requires o.HasMeta()
  {
    if o.isNamespace then o.name else o.namespace
  }

  predicate Denied(denylist: set<string>, o: Object) {
    o.HasMeta() && NamespaceOf(o) in denylist
  }

  function Allowed(denylist: set<string>): Object -> bool {
    (o: Object) => !Denied(denylist, o)
  }

  /** `denylistListerWatcher.List`: the allowed items in order, under the version of the list. */
  method List(denylist: set<string>, next: Result<Listing>) returns (r: Result<Listing>)
    ensures r == if next.Ok? && AllMeta(next.value.items)
                 then Ok(Listing(Filter(next.value.items, Allowed(denylist)), next.value.version))
                 else Err
    ensures r.Ok? ==> forall o: Object :: o in r.value.items <==>
              && o in next.value.items && o.HasMeta()
              && (if o.isNamespace then o.name !in denylist else o.namespace !in denylist)
  {
    if next.Err? {
      return Err;
    }
    var items := next.value.items;
    var kept: seq<Object> := [];
    var i := 0;
    while i < |items|
      invariant 0 <= i <= |items| && KeptSoFar(items, i, Allowed(denylist), kept)
    {
      if !items[i].HasMeta() {
        return Err;
      }
      KeptOneMore(items, i, Allowed(denylist), kept);
      if NamespaceOf(items[i]) !in denylist {
        kept := kept + [items[i]];
      }
      i := i + 1;
    }
    assert items[..i] == items;
    KeptAre(denylist, items);
    r := Ok(Listing(kept, next.value.version));
  }

  /** What is kept of a list: Namespace objects by their name, other objects by their namespace. */
  lemma KeptAre(denylist: set<string>, items: seq<Object>)
    requires AllMeta(items)
    ensures forall o: Object :: o in Filter(items, Allowed(denylist)) <==>
              && o in items && o.HasMeta()
              && (if o.isNamespace then o.name !in denylist else o.namespace !in denylist)
  {
    FilterMembers(items, Allowed(denylist));
  }

  // ---- the filtering goroutine of newDenylistWatch

  datatype Filterer = Selecting | Holding(event: Event) | Gone

  datatype State = State(
    queue: seq<Event>, sourceClosed: bool, filterer: Filterer,
    proxyStopped: bool,       // the proxy's stop channel is closed; the proxy closes it once
    stops: nat,               // how often the wrapped watch was stopped
    closes: nat,              // how often the result channel was closed
    badChannel: bool,         // a send on, or second close of, the result channel
    emitted: seq<Event>, produced: seq<Event>)

  datatype Step =
    | Produce(event: Event) | CloseSource | Stop
    | Take | SeeClosed | Emit | SeeStopped

  predicate Passes(denylist: set<string>, e: Event) {
    e.obj.HasMeta() && !Denied(denylist, e.obj)
  }

  const START := State([], false, Selecting, false, 0, 0, false, [], [])

  predicate Enabled(s: State, step: Step) {
    match step
    case Produce(_) => !s.sourceClosed
    case CloseSource => !s.sourceClosed
    case Stop => true
    case Take => s.filterer == Selecting && s.queue != []
    case SeeClosed => s.filterer == Selecting && s.queue == [] && s.sourceClosed
    case Emit => s.filterer.Holding?
    case SeeStopped => s.filterer != Gone && s.proxyStopped
  }

  function Do(denylist: set<string>, s: State, step: Step): State
    requires Enabled(s, step)
  {
    match step
    case Produce(e) => s.(queue := s.queue + [e], produced := s.produced + [e])
    case CloseSource => s.(sourceClosed := true)
    case Stop => s.(proxyStopped := true)
    case Take =>
      s.(queue := s.queue[1..], filterer := if Passes(denylist, s.queue[0]) then Holding(s.queue[0]) else Selecting)
    case SeeClosed => s.(filterer := Gone, closes := s.closes + 1, badChannel := s.badChannel || s.closes > 0)
    case Emit =>
      s.(filterer := Selecting, emitted := s.emitted + [s.filterer.event], badChannel := s.badChannel || s.closes > 0)
    case SeeStopped =>
      s.(filterer := Gone, stops := s.stops + 1, closes := s.closes + 1, badChannel := s.badChannel || s.closes > 0)
  }

  ghost predicate Runs(denylist: set<string>, s: State, steps: seq<Step>, s': State)
    decreases |steps|
  {
    if steps == [] then s == s'
    else Enabled(s, steps[0]) && Runs(denylist, Do(denylist, s, steps[0]), steps[1..], s')
  }

  function Held(f: Filterer): seq<Event> {
    if f.Holding? then [f.event] else []
  }

  function PassingEvents(denylist: set<string>, es: seq<Event>): seq<Event> {
    Filter(es, (e: Event) => Passes(denylist, e))
  }

  ghost predicate Inv(denylist: set<string>, s: State) {
    && !s.badChannel
    && s.closes == (if s.filterer == Gone then 1 else 0)
    && s.stops <= s.closes
    && (s.stops == 1 ==> s.proxyStopped)
    && (s.filterer != Gone ==>
          PassingEvents(denylist, s.produced) == s.emitted + Held(s.filterer) + PassingEvents(denylist, s.queue))
    && s.emitted <= PassingEvents(denylist, s.produced)
    && (s.filterer == Gone && s.stops == 0 ==> s.sourceClosed && s.emitted == PassingEvents(denylist, s.produced))
  }

  lemma PassingSnoc(denylist: set<string>, es: seq<Event>, e: Event)
    ensures PassingEvents(denylist, es + [e]) == PassingEvents(denylist, es) + PassingEvents(denylist, [e])
  {
    FilterAppend(es, [e], (e: Event) => Passes(denylist, e));
  }

  lemma StepInv(denylist: set<string>, s: State, step: Step)
    requires Inv(denylist, s) && Enabled(s, step)
    ensures Inv(denylist, Do(denylist, s, step))
  {
    var left := s.emitted + Held(s.filterer);
    match step
    case Produce(e) =>
      PassingSnoc(denylist, s.produced, e);
      PassingSnoc(denylist, s.queue, e);
      Assoc(left, PassingEvents(denylist, s.queue), PassingEvents(denylist, [e]));
    case Take =>
      HeadFirst(s.queue, []);
      assert s.emitted + [] == s.emitted;
      if Passes(denylist, s.queue[0]) {
        Assoc(s.emitted, [s.queue[0]], PassingEvents(denylist, s.queue[1..]));
      }
    case SeeClosed => assert s.emitted + [] + [] == s.emitted;
    case Emit => assert left + [] == left;
    case SeeStopped =>
    case _ =>
  }

  lemma {:induction false} RunInv(denylist: set<string>, s: State, steps: seq<Step>, s': State)
    requires Inv(denylist, s) && Runs(denylist, s, steps, s')
    ensures Inv(denylist, s')
    decreases |steps|
  {
    if steps != [] {
      StepInv(denylist, s, steps[0]);
      RunInv(denylist, Do(denylist, s, steps[0]), steps[1..], s');
    }
  }

  /**
   In every interleaving the filtered watch emits a prefix of the allowed events, in order; it closes its result at
   most once and stops the wrapped watch at most once. Left by the closing of its source, it has emitted them all.
   */
  lemma FilteredWatchIsSound(denylist: set<string>, steps: seq<Step>, s: State)
    requires Runs(denylist, START, steps, s)
    ensures s.emitted <= PassingEvents(denylist, s.produced)
    ensures !s.badChannel && s.stops <= s.closes <= 1
    ensures s.filterer == Gone <==> s.closes == 1
    ensures s.closes == 1 && s.stops == 0 ==> s.emitted == PassingEvents(denylist, s.produced)
  {
    RunInv(denylist, START, steps, s);
  }

  /**
   What is emitted was produced, and is not about a denied namespace: neither the namespace itself, nor an object in it.
   Left by the closing of its source, the watch has emitted every such event.
   */
  lemma EmittedIsAllowed(denylist: set<string>, steps: seq<Step>, s: State, e: Event)
    requires Runs(denylist, START, steps, s)
    ensures e in s.emitted ==>
              && e in s.produced && e.obj.HasMeta()
              && (if e.obj.isNamespace then e.obj.name !in denylist else e.obj.namespace !in denylist)
    ensures s.closes == 1 && s.stops == 0 && e in s.produced && e.obj.HasMeta()
            && (if e.obj.isNamespace then e.obj.name !in denylist else e.obj.namespace !in denylist) ==>
              e in s.emitted
  {
    FilteredWatchIsSound(denylist, steps, s);
    FilterMembers(s.produced, (e: Event) => Passes(denylist, e));
    if e in s.emitted {
      assert e in PassingEvents(denylist, s.produced);
    }
  }

  /** The filtered watch once `es` have gone through it. */
  function Through(denylist: set<string>, es: seq<Event>): State {
    START.(emitted := PassingEvents(denylist, es), produced := es)
  }

  /** A state some run of the filtered watch reaches. */
  ghost predicate Reachable(denylist: set<string>, s: State) {
    exists steps :: Runs(denylist, START, steps, s)
  }

  lemma {:induction false} RunsSnoc(denylist: set<string>, s: State, steps: seq<Step>, s': State, step: Step)
    requires Runs(denylist, s, steps, s') && Enabled(s', step)
    ensures Runs(denylist, s, steps + [step], Do(denylist, s', step))
    decreases |steps|
  {
    if steps != [] {
      RunsSnoc(denylist, Do(denylist, s, steps[0]), steps[1..], s', step);
      TailFirst(steps, [step]);
    }
  }

  lemma ReachableStep(denylist: set<string>, s: State, step: Step)
    requires Reachable(denylist, s) && Enabled(s, step)
    ensures Reachable(denylist, Do(denylist, s, step))
  {
    var steps :| Runs(denylist, START, steps, s);
    RunsSnoc(denylist, START, steps, s, step);
  }

  lemma OneThrough(denylist: set<string>, es: seq<Event>, e: Event)
    requires Reachable(denylist, Through(denylist, es))
    ensures Reachable(denylist, Through(denylist, es + [e]))
  {
    var a := Through(denylist, es);
    var b := Do(denylist, a, Produce(e));
    ReachableStep(denylist, a, Produce(e));
    var c := Do(denylist, b, Take);
    ReachableStep(denylist, b, Take);
    PassingSnoc(denylist, es, e);
    assert PassingEvents(denylist, [e]) == if Passes(denylist, e) then [e] else [];
    if Passes(denylist, e) {
      ReachableStep(denylist, c, Emit);
      assert Do(denylist, c, Emit) == Through(denylist, es + [e]);
    } else {
      assert c == Through(denylist, es + [e]);
    }
  }

  lemma {:induction false} AllThrough(denylist: set<string>, es: seq<Event>)
    ensures Reachable(denylist, Through(denylist, es))
    decreases |es|
  {
    if es == [] {
      assert Runs(denylist, START, [], START);
    } else {
      var init, e := es[..|es| - 1], es[|es| - 1];
      AllThrough(denylist, init);
      OneThrough(denylist, init, e);
      assert init + [e] == es;
    }
  }

  /** Whatever the source produces, there is a run that emits every allowed event and closes with its source. */
  lemma FilteredWatchCompletes(denylist: set<string>, es: seq<Event>) returns (s: State)
    ensures Reachable(denylist, s) && s.produced == es && s.closes == 1 && s.stops == 0
    ensures s.emitted == PassingEvents(denylist, es)
  {
    AllThrough(denylist, es);
    var a := Through(denylist, es);
    ReachableStep(denylist, a, CloseSource);
    var b := Do(denylist, a, CloseSource);
    ReachableStep(denylist, b, SeeClosed);
    s := Do(denylist, b, SeeClosed);
  }

  /** Once stopped, the goroutine can leave whatever it is doing, and then stops the wrapped watch. */
  lemma StopTakesEffect(denylist: set<string>, s: State)
    requires s.filterer != Gone
    ensures Enabled(s, Stop) && Enabled(Do(denylist, s, Stop), SeeStopped)
    ensures var s' := Do(denylist, Do(denylist, s, Stop), SeeStopped);
            s'.filterer == Gone && s'.stops == s.stops + 1 && s'.closes == s.closes + 1 && s'.emitted == s.emitted
  {
  }

  // ---- denying commutes with the store

  /** The filter refuses a list that holds an object without metadata; no namespace denied means no filter. */
  predicate Refused(denylist: set<string>, items: seq<Object>) {
    denylist != {} && !AllMeta(items)
  }

  /** The operation that arrives behind the deny filter; an event without metadata is dropped. */
  function ArrivesFiltered(denylist: set<string>, input: Input): Option<Op> {
    match input
    case Listed(items) => if AllMeta(items) then Some(Replace(Filter(items, Allowed(denylist)))) else None
    case ListFailed => None
    case Watched(event) => if Passes(denylist, event) then Reflect(input) else None
  }

  /** `newDenylistListerWatcher` leaves the wrapped lister-watcher alone if no namespace is denied. */
  function Arrives(denylist: set<string>): Input -> Option<Op> {
    (input: Input) => if denylist == {} then Reflect(input) else ArrivesFiltered(denylist, input)
  }

  /** The objects held behind the deny filter, and without it. */
  ghost function Filtered(denylist: set<string>, inputs: seq<Input>): map<Uid, Object> {
    Fed(Self, Arrives(denylist), inputs)
  }

  ghost function Unfiltered(inputs: seq<Input>): map<Uid, Object> {
    Fed(Self, Reflect, inputs)
  }

  ghost function Allow(denylist: set<string>, m: map<Uid, Object>): map<Uid, Object> {
    map u | u in m && !Denied(denylist, m[u]) :: m[u]
  }

  ghost predicate Commutes(denylist: set<string>, inputs: seq<Input>) {
    Filtered(denylist, inputs) == Allow(denylist, Unfiltered(inputs))
  }

  /** The last item about its UID is denied, while an earlier item about it is allowed. */
  predicate Overridden(denylist: set<string>, items: seq<Object>, i: nat, j: nat) {
    && i < j < |items| && AllMeta(items)
    && items[i].uid == items[j].uid && !Denied(denylist, items[i]) && Denied(denylist, items[j])
    && forall k | j < k < |items| :: items[k].uid != items[j].uid
  }

  /** The item is the last about its UID among those before the first item without metadata, and it is allowed. */
  predicate Final(denylist: set<string>, items: seq<Object>, i: nat) {
    var prefix := MetaPrefix(items);
    && i < |prefix| && !Denied(denylist, prefix[i])
    && forall k | i < k < |prefix| :: prefix[k].uid != prefix[i].uid
  }

  /** The store holds the final items of the list, and no other objects. */
  predicate NothingNew(denylist: set<string>, stored: map<Uid, Object>, items: seq<Object>) {
    && (forall i | 0 <= i < |MetaPrefix(items)| && Final(denylist, items, i) ::
          MetaPrefix(items)[i].uid in stored && stored[MetaPrefix(items)[i].uid] == MetaPrefix(items)[i])
    && (forall u | u in stored ::
          exists i :: 0 <= i < |MetaPrefix(items)| && Final(denylist, items, i) && MetaPrefix(items)[i].uid == u)
  }

  /**
   A denied object arrives under a UID for which the filtered store holds an allowed one; or a list is refused that has
   something new to say.
   */
  ghost predicate Clashes(denylist: set<string>, stored: map<Uid, Object>, input: Input) {
    match input
    case Listed(items) =>
      if Refused(denylist, items) then !NothingNew(denylist, stored, items)
      else exists i: nat, j: nat :: Overridden(denylist, items, i, j)
    case ListFailed => false
    case Watched(event) =>
      event.kind in {Added, Modified, Deleted} && Denied(denylist, event.obj) && event.obj.uid in stored
  }

  /** What an unfiltered store takes of a list: the last item about a UID before the failure, if it is allowed. */
  lemma TakenIsFinal(denylist: set<string>, items: seq<Object>, i: nat)
    requires Final(denylist, items, i)
    ensures var o := MetaPrefix(items)[i];
            var taken := Allow(denylist, InsertAll(Self, map[], items));
            o.uid in taken && taken[o.uid] == o
  {
    var prefix := MetaPrefix(items);
    InsertAllPrefix(Self, map[], items);
    InsertAllLast(Self, prefix, prefix[i].uid);
    LastOfSome(prefix, i);
    var j := LastOfIsLast(prefix, prefix[i].uid);
    assert j == i;
  }

  lemma FinalIsTaken(denylist: set<string>, items: seq<Object>, u: Uid) returns (i: nat)
    requires u in Allow(denylist, InsertAll(Self, map[], items))
    ensures Final(denylist, items, i) && MetaPrefix(items)[i].uid == u
  {
    InsertAllPrefix(Self, map[], items);
    InsertAllLast(Self, MetaPrefix(items), u);
    i := LastOfIsLast(MetaPrefix(items), u);
  }

  lemma NothingNewMeans(denylist: set<string>, stored: map<Uid, Object>, items: seq<Object>)
    requires NothingNew(denylist, stored, items)
    ensures stored == Allow(denylist, InsertAll(Self, map[], items))
  {
    var prefix, taken := MetaPrefix(items), Allow(denylist, InsertAll(Self, map[], items));
    forall u ensures (u in stored <==> u in taken) && (u in stored && u in taken ==> stored[u] == taken[u]) {
      if u in stored {
        var i :| 0 <= i < |prefix| && Final(denylist, items, i) && prefix[i].uid == u;
        TakenIsFinal(denylist, items, i);
      } else if u in taken {
        var i := FinalIsTaken(denylist, items, u);
      }
    }
  }

  lemma TakenIsNothingNew(denylist: set<string>, items: seq<Object>)
    ensures NothingNew(denylist, Allow(denylist, InsertAll(Self, map[], items)), items)
  {
    var prefix, taken := MetaPrefix(items), Allow(denylist, InsertAll(Self, map[], items));
    forall i | 0 <= i < |prefix| && Final(denylist, items, i)
      ensures prefix[i].uid in taken && taken[prefix[i].uid] == prefix[i]
    {
      TakenIsFinal(denylist, items, i);
    }
    forall u | u in taken
      ensures exists i :: 0 <= i < |prefix| && Final(denylist, items, i) && prefix[i].uid == u
    {
      var i := FinalIsTaken(denylist, items, u);
    }
  }

  /** Comparing with the list's final items is comparing with what an unfiltered store takes of the list. */
  lemma NothingNewIff(denylist: set<string>, stored: map<Uid, Object>, items: seq<Object>)
    ensures NothingNew(denylist, stored, items) <==> stored == Allow(denylist, InsertAll(Self, map[], items))
  {
    TakenIsNothingNew(denylist, items);
    if NothingNew(denylist, stored, items) {
      NothingNewMeans(denylist, stored, items);
    }
  }

  lemma {:induction false} LastAllowed(denylist: set<string>, items: seq<Object>, u: Uid)
    requires AllMeta(items)
    ensures var kept := LastOf(Filter(items, Allowed(denylist)), u);
            && (LastOf(items, u).Some? && !Denied(denylist, LastOf(items, u).value) ==> kept == LastOf(items, u))
            && (kept.Some? ==> exists i: nat :: i < |items| && items[i].uid == u && !Denied(denylist, items[i]))
    decreases |items|
  {
    if items != [] {
      var n := |items| - 1;
      var init, o := items[..n], items[n];
      LastAllowed(denylist, init, u);
      FilterSnoc(items, n, Allowed(denylist));
      assert items[..n + 1] == items && init + [o] == items;
      LastOfSnoc(init, o, u);
      if Denied(denylist, o) {
        assert Filter(init, Allowed(denylist)) + [] == Filter(init, Allowed(denylist));
      } else {
        LastOfSnoc(Filter(init, Allowed(denylist)), o, u);
        assert items[n] == o;
      }
    }
  }

  lemma KeptIfAllowed(denylist: set<string>, items: seq<Object>, i: nat)
    requires AllMeta(items) && i < |items| && !Denied(denylist, items[i])
    ensures LastOf(Filter(items, Allowed(denylist)), items[i].uid).Some?
  {
    var kept := Filter(items, Allowed(denylist));
    FilterMembers(items, Allowed(denylist));
    assert items[i] in items && items[i] in kept;
    var k :| 0 <= k < |kept| && kept[k] == items[i];
    LastOfSome(kept, k);
  }

  ghost predicate ListCommutes(denylist: set<string>, items: seq<Object>) {
    InsertAll(Self, map[], Filter(items, Allowed(denylist)))
      == Allow(denylist, InsertAll(Self, map[], items))
  }

  lemma KeptMeta(denylist: set<string>, items: seq<Object>)
    requires AllMeta(items)
    ensures AllMeta(Filter(items, Allowed(denylist)))
  {
    var kept := Filter(items, Allowed(denylist));
    FilterMembers(items, Allowed(denylist));
    forall i | 0 <= i < |kept| ensures kept[i].HasMeta() {
      assert kept[i] in kept;
    }
  }

  lemma ListClash(denylist: set<string>, items: seq<Object>, i: nat, j: nat)
    requires Overridden(denylist, items, i, j)
    ensures !ListCommutes(denylist, items)
  {
    var u := items[i].uid;
    var kept := Filter(items, Allowed(denylist));
    KeptMeta(denylist, items);
    InsertAllLast(Self, kept, u);
    InsertAllLast(Self, items, u);
    KeptIfAllowed(denylist, items, i);
    LastOfSome(items, j);
    var last := LastOfIsLast(items, u);
    assert last == j;
    assert u in InsertAll(Self, map[], kept);
    assert u !in Allow(denylist, InsertAll(Self, map[], items));
  }

  /** A UID held behind the filter only: a later denied item overrides an allowed one. */
  lemma HeldOnlyFiltered(denylist: set<string>, items: seq<Object>, u: Uid) returns (i: nat, j: nat)
    requires AllMeta(items)
    requires u in InsertAll(Self, map[], Filter(items, Allowed(denylist)))
    requires u !in Allow(denylist, InsertAll(Self, map[], items))
    ensures Overridden(denylist, items, i, j)
  {
    KeptMeta(denylist, items);
    InsertAllLast(Self, Filter(items, Allowed(denylist)), u);
    InsertAllLast(Self, items, u);
    LastAllowed(denylist, items, u);
    i :| i < |items| && items[i].uid == u && !Denied(denylist, items[i]);
    LastOfSome(items, i);
    j := LastOfIsLast(items, u);
  }

  lemma ListNoClash(denylist: set<string>, items: seq<Object>)
    requires AllMeta(items) && !exists i: nat, j: nat :: Overridden(denylist, items, i, j)
    ensures ListCommutes(denylist, items)
  {
    var kept := Filter(items, Allowed(denylist));
    KeptMeta(denylist, items);
    var f, g := InsertAll(Self, map[], kept), Allow(denylist, InsertAll(Self, map[], items));
    forall u ensures u in f <==> u in g
      ensures u in f && u in g ==> f[u] == g[u]
    {
      InsertAllLast(Self, kept, u);
      InsertAllLast(Self, items, u);
      LastAllowed(denylist, items, u);
      if u in f && u !in g {
        var i, j := HeldOnlyFiltered(denylist, items, u);
      }
    }
  }

  lemma WatchStep(denylist: set<string>, f: map<Uid, Object>, g: map<Uid, Object>, x: Input)
    requires denylist != {} && x.Watched? && f == Allow(denylist, g)
    ensures Absorb(Self, f, Arrives(denylist)(x)) == Allow(denylist, Absorb(Self, g, Reflect(x)))
       <==> !Clashes(denylist, f, x)
  {
    if Reflect(x).Some? && Denied(denylist, x.event.obj) {
      assert Allow(denylist, Absorb(Self, g, Reflect(x))) == f - {x.event.obj.uid};
    }
  }

  lemma ListStep(denylist: set<string>, items: seq<Object>)
    requires AllMeta(items)
    ensures ListCommutes(denylist, items) <==> !exists i: nat, j: nat :: Overridden(denylist, items, i, j)
  {
    if i: nat, j: nat :| Overridden(denylist, items, i, j) {
      ListClash(denylist, items, i, j);
    } else {
      ListNoClash(denylist, items);
    }
  }

  /** With no namespace denied there is no filter, and nothing to clash with. */
  lemma NoFilter(inputs: seq<Input>, x: Input)
    ensures Commutes({}, inputs)
    ensures !Clashes({}, Filtered({}, inputs), x)
  {
    SameArrivals(inputs);
    assert Allow({}, Unfiltered(inputs)) == Unfiltered(inputs);
  }

  lemma {:induction false} SameArrivals(inputs: seq<Input>)
    ensures Filtered({}, inputs) == Unfiltered(inputs)
    decreases |inputs|
  {
    if inputs != [] {
      SameArrivals(inputs[..|inputs| - 1]);
    }
  }

  /** One more input keeps filter and store in step, or a list puts them in step, exactly if it does not clash. */
  lemma CommutesStep(denylist: set<string>, inputs: seq<Input>, x: Input)
    requires x.Listed? || Commutes(denylist, inputs)
    ensures Commutes(denylist, inputs + [x]) <==> !Clashes(denylist, Filtered(denylist, inputs), x)
  {
    if denylist == {} {
      NoFilter(inputs, x);
      NoFilter(inputs + [x], x);
    } else {
      FedSnoc(Self, Arrives(denylist), inputs, x);
      FedSnoc(Self, Reflect, inputs, x);
      if x.Watched? {
        WatchStep(denylist, Filtered(denylist, inputs), Unfiltered(inputs), x);
      } else if x.Listed? && AllMeta(x.items) {
        ListStep(denylist, x.items);
      } else if x.Listed? {
        NothingNewIff(denylist, Filtered(denylist, inputs), x.items);
      }
    }
  }

  ghost predicate ClashesAt(denylist: set<string>, inputs: seq<Input>, i: nat)
    requires i < |inputs|
  {
    Clashes(denylist, Filtered(denylist, inputs[..i]), inputs[i])
  }

  /** The same, along the prefixes of a run. */
  lemma CommutesStepAt(denylist: set<string>, inputs: seq<Input>, i: nat)
    requires i < |inputs| && Commutes(denylist, inputs[..i])
    ensures Commutes(denylist, inputs[..i + 1]) <==> !ClashesAt(denylist, inputs, i)
  {
    CommutesStep(denylist, inputs[..i], inputs[i]);
    assert inputs[..i] + [inputs[i]] == inputs[..i + 1];
  }

  ghost predicate NoClash(denylist: set<string>, inputs: seq<Input>) {
    forall i | 0 <= i < |inputs| :: !ClashesAt(denylist, inputs, i)
  }

  lemma {:induction false} NoClashCommutes(denylist: set<string>, inputs: seq<Input>, i: nat)
    requires NoClash(denylist, inputs) && i <= |inputs|
    ensures Commutes(denylist, inputs[..i])
  {
    if i > 0 {
      NoClashCommutes(denylist, inputs, i - 1);
      CommutesStepAt(denylist, inputs, i - 1);
    }
  }

  /**
   List-then-watch through the deny filter is, at every moment of the run, the unfiltered store restricted to the
   allowed namespaces, if and only if no input of the run clashes with what is stored.
   */
  lemma DenyingCommutes(denylist: set<string>, inputs: seq<Input>)
    ensures (forall i | 0 <= i <= |inputs| :: Commutes(denylist, inputs[..i])) <==> NoClash(denylist, inputs)
  {
    if NoClash(denylist, inputs) {
      forall i | 0 <= i <= |inputs| ensures Commutes(denylist, inputs[..i]) {
        NoClashCommutes(denylist, inputs, i);
      }
    }
    if forall i | 0 <= i <= |inputs| :: Commutes(denylist, inputs[..i]) {
      forall i | 0 <= i < |inputs| ensures !ClashesAt(denylist, inputs, i) {
        CommutesStepAt(denylist, inputs, i);
        assert Commutes(denylist, inputs[..i + 1]);
      }
    }
  }

  // ---- an object never changes its namespace

  predicate Fixed(denylist: set<string>, denied: Uid -> bool, o: Object) {
    o.HasMeta() ==> (Denied(denylist, o) <==> denied(o.uid))
  }

  predicate FixedIn(denylist: set<string>, denied: Uid -> bool, input: Input) {
    match input
    case Listed(items) => forall k | 0 <= k < |items| :: Fixed(denylist, denied, items[k])
    case ListFailed => true
    case Watched(event) => Fixed(denylist, denied, event.obj)
  }

  /** Whether an object is denied depends on its UID alone, as it does in Kubernetes. */
  predicate FixedNamespaces(denylist: set<string>, denied: Uid -> bool, inputs: seq<Input>) {
    forall i | 0 <= i < |inputs| :: FixedIn(denylist, denied, inputs[i])
  }

  lemma ListedAreAllowed(denylist: set<string>, items: seq<Object>, u: Uid)
    requires AllMeta(items)
    requires u in InsertAll(Self, map[], Filter(items, Allowed(denylist)))
    ensures exists i: nat :: i < |items| && items[i].uid == u && !Denied(denylist, items[i])
  {
    KeptMeta(denylist, items);
    InsertAllLast(Self, Filter(items, Allowed(denylist)), u);
    LastAllowed(denylist, items, u);
  }

  /** What one input brings into the filtered store is allowed. */
  lemma ArrivesAllowed(denylist: set<string>, denied: Uid -> bool, f: map<Uid, Object>, x: Input, u: Uid)
    requires denylist != {} && FixedIn(denylist, denied, x)
    requires u in Absorb(Self, f, Arrives(denylist)(x)) && (u in f ==> !denied(u))
    ensures !denied(u)
  {
    if x.Listed? && AllMeta(x.items) {
      ListedAreAllowed(denylist, x.items, u);
    }
  }

  lemma {:induction false} StoredAreAllowed(denylist: set<string>, denied: Uid -> bool, inputs: seq<Input>, u: Uid)
    requires denylist != {} && FixedNamespaces(denylist, denied, inputs)
    requires u in Filtered(denylist, inputs)
    ensures !denied(u)
    decreases |inputs|
  {
    var init, x := inputs[..|inputs| - 1], inputs[|inputs| - 1];
    if u in Filtered(denylist, init) {
      StoredAreAllowed(denylist, denied, init, u);
    }
    ArrivesAllowed(denylist, denied, Filtered(denylist, init), x, u);
  }

  /** With namespaces fixed, denying commutes with the store on every run whose last list was accepted. */
  lemma {:induction false} DenyingCommutesWithFixedNamespaces(denylist: set<string>, denied: Uid -> bool,
                                                              inputs: seq<Input>)
    requires Settled(inputs) && FixedNamespaces(denylist, denied, inputs)
    ensures Commutes(denylist, inputs)
    decreases |inputs|
  {
    if denylist == {} {
      NoFilter(inputs, ListFailed);
    } else if inputs != [] {
      var init, x := inputs[..|inputs| - 1], inputs[|inputs| - 1];
      assert init + [x] == inputs && FixedIn(denylist, denied, x);
      if !x.Listed? {
        DenyingCommutesWithFixedNamespaces(denylist, denied, init);
      }
      if x.Watched? && x.event.obj.HasMeta() && x.event.obj.uid in Filtered(denylist, init) {
        StoredAreAllowed(denylist, denied, init, x.event.obj.uid);
      }
      CommutesStep(denylist, init, x);
    }
  }

  lemma AddedIsStored(denylist: set<string>, o: Object)
    requires o.HasMeta() && !Denied(denylist, o)
    ensures Filtered(denylist, [Watched(Event(Added, o))]) == Unfiltered([Watched(Event(Added, o))]) == map[o.uid := o]
  {
    var x := Watched(Event(Added, o));
    assert [] + [x] == [x];
    assert Arrives(denylist)(x) == Reflect(x) == Some(Add(o));
    FedSnoc(Self, Arrives(denylist), [], x);
    FedSnoc(Self, Reflect, [], x);
  }

  /** An object is shown exactly if neither it nor its namespace is denied. */
  lemma ShownIff(denylist: set<string>, o: Object)
    requires o.HasMeta()
    ensures Filtered(denylist, [Watched(Event(Added, o))])
         == if (if o.isNamespace then o.name !in denylist else o.namespace !in denylist) then map[o.uid := o] else map[]
  {
    if Denied(denylist, o) {
      FedSnoc(Self, Arrives(denylist), [], Watched(Event(Added, o)));
      assert [] + [Watched(Event(Added, o))] == [Watched(Event(Added, o))];
    } else {
      AddedIsStored(denylist, o);
    }
  }

  /** A namespace that changes under one UID breaks it: the filter never sees the object go. */
  lemma ChangedNamespaceLingers(denylist: set<string>, before: Object, after: Object)
    requires before.HasMeta() && after.HasMeta() && before.uid == after.uid
    requires !Denied(denylist, before) && Denied(denylist, after)
    ensures !Commutes(denylist, [Watched(Event(Added, before))] + [Watched(Event(Modified, after))])
  {
    AddedIsStored(denylist, before);
    CommutesStep(denylist, [Watched(Event(Added, before))], Watched(Event(Modified, after)));
  }

  /** So does every refused list: an allowed object that it does not mention stays behind. */
  lemma RefusedListLingers(denylist: set<string>, items: seq<Object>) returns (inputs: seq<Input>)
    requires Refused(denylist, items)
    ensures Commutes(denylist, inputs) && !Commutes(denylist, inputs + [Listed(items)])
  {
    var u := FreshUid([Listed(items)]);
    assert !Mentions([Listed(items)][0], u);
    var namespace := FreshName(denylist);
    var o := Object(u, false, "", namespace, "");
    inputs := [Watched(Event(Added, o))];
    AddedIsStored(denylist, o);
    CommutesStep(denylist, inputs, Listed(items));
    NotListed(items, u);
    NothingNewIff(denylist, Filtered(denylist, inputs), items);
  }

  /**
   A list keeps every run in step iff the filter does not refuse it, and no later item of it replaces an allowed object
   by a denied one.
   */
  lemma ListCondition(denylist: set<string>, items: seq<Object>)
    ensures (forall inputs | Commutes(denylist, inputs) :: Commutes(denylist, inputs + [Listed(items)]))
       <==> !Refused(denylist, items) && !exists i: nat, j: nat :: Overridden(denylist, items, i, j)
  {
    if Refused(denylist, items) {
      var inputs := RefusedListLingers(denylist, items);
    } else {
      forall inputs
        ensures Commutes(denylist, inputs + [Listed(items)])
           <==> !Clashes(denylist, Filtered(denylist, inputs), Listed(items))
      {
        CommutesStep(denylist, inputs, Listed(items));
      }
      assert Commutes(denylist, []);
    }
  }
}
