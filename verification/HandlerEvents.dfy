/** pkg/metricshandler: what a sequence of StatefulSet events, handled one after the other, leaves behind. */
module HandlerEvents {
  import opened Kube
  import opened Jump
  import opened Ordinal
  import opened Handler

  /** An informer event: `AddFunc(ss)`, or `UpdateFunc(old, ss)` with the two resource versions. */
  datatype SetEvent =
    | SetAdded(ss: StatefulSet)
    | SetUpdated(oldVersion: string, newVersion: string, ss: StatefulSet)

  /** The settings an event asks for: none for another set, an unchanged version, or a pod name that does not parse. */
  function Asks(setName: string, podName: string, event: SetEvent): Option<(int, int)> {
    if event.ss.name != setName || (event.SetUpdated? && event.oldVersion == event.newVersion) then None
    else
      match SettingsFromStatefulSet(event.ss, podName)
      case Err => None
      case Ok(settings) => Some(settings)
  }

  class MetricsHandler {
    const resources: seq<string>
    var contexts: nat
    var cancelled: set<nat>
    var cancel: Option<nat>
    var stores: seq<Store>
    var curShard: int
    var curTotalShards: int

    /** The served stores are one build, in the only context that is not cancelled, with the current settings. */
    ghost predicate Valid()
      reads this
    {
      && cancel == (if contexts == 0 then None else Some(contexts - 1))
      && (forall g: nat :: g in cancelled <==> g < contexts - 1)
      && stores == (if contexts == 0 then [] else StoresOf(resources, contexts - 1, curShard, curTotalShards))
    }

    ghost function View(): Settings
      reads this
    {
      Settings(contexts, cancelled, cancel, stores, curShard, curTotalShards)
    }

    constructor (resources: seq<string>)
      ensures Valid() && contexts == 0 && curShard == 0 && curTotalShards == 0 && this.resources == resources
    {
      this.resources := resources;
      contexts, cancelled, cancel, stores, curShard, curTotalShards := 0, {}, None, [], 0, 0;
    }

    method ConfigureSharding(shard: int, total: int)
      requires Valid()
      modifies this
      ensures Valid()
      ensures View() == Configured(resources, old(View()), shard, total)
      ensures |stores| == |resources| && forall k | 0 <= k < |stores| ::
        stores[k] == Store(resources[k], old(contexts), shard, total)
    {
      if cancel.Some? {
        cancelled := cancelled + {cancel.value};
      }
      cancel := Some(contexts);
      contexts := contexts + 1;
      var built: seq<Store> := [];
      while |built| < |resources|
        invariant |built| <= |resources|
        invariant built == StoresOf(resources, contexts - 1, shard, total)[..|built|]
      {
        ghost var all := StoresOf(resources, contexts - 1, shard, total);
        assert all[..|built| + 1] == all[..|built|] + [all[|built|]];
        built := built + [Store(resources[|built|], contexts - 1, shard, total)];
      }
      stores := built;
      curShard := shard;
      curTotalShards := total;
    }

    /** The bodies of `AddFunc` and `UpdateFunc`. */
    method Handle(setName: string, podName: string, event: SetEvent)
      requires Valid()
      modifies this
      ensures Valid()
      ensures Seen(contexts > 0, curShard, curTotalShards)
           == Handled(setName, podName, old(Seen(contexts > 0, curShard, curTotalShards)), event)
      ensures contexts <= old(contexts) + 1
    {
      if event.ss.name != setName {
        return;
      }
      if event.SetUpdated? && event.oldVersion == event.newVersion {
        return;
      }
      match SettingsFromStatefulSet(event.ss, podName)
      case Err => return;
      case Ok(settings) =>
        var sameSettings := curShard == settings.0 && curTotalShards == settings.1;
        if !sameSettings {
          ConfigureSharding(settings.0, settings.1);
        }
    }
  }

  /** What can be seen of a handler: whether it has built stores, and with which settings. */
  datatype View = Seen(configured: bool, shard: int, total: int)

  function Handled(setName: string, podName: string, v: View, event: SetEvent): View {
    match Asks(setName, podName, event)
    case None => v
    case Some((shard, total)) => if v.shard == shard && v.total == total then v else Seen(true, shard, total)
  }

  function HandledAll(setName: string, podName: string, events: seq<SetEvent>): View {
    if events == [] then Seen(false, 0, 0)
    else Handled(setName, podName, HandledAll(setName, podName, events[..|events| - 1]), events[|events| - 1])
  }

  /** The settings asked for last, found by looking backwards. */
  function LastAsked(setName: string, podName: string, events: seq<SetEvent>): Option<(int, int)> {
    if events == [] then None
    else
      match Asks(setName, podName, events[|events| - 1])
      case Some(settings) => Some(settings)
      case None => LastAsked(setName, podName, events[..|events| - 1])
  }

  /** Some event asks for settings other than shard 0 of 0, the zero values a new handler starts with. */
  ghost predicate AsksForShards(setName: string, podName: string, events: seq<SetEvent>) {
    exists i :: 0 <= i < |events| && Asks(setName, podName, events[i]) !in {None, Some((0, 0))}
  }

  /**
   The settings are those asked for last. Stores exist exactly if some event asked for other settings than the zero
   values: a first StatefulSet event with zero replicas for pod 0 looks unchanged and builds nothing.
   */
  lemma {:induction false} LastEventWins(setName: string, podName: string, events: seq<SetEvent>)
    ensures var v := HandledAll(setName, podName, events);
            && (v.shard, v.total) == (match LastAsked(setName, podName, events) case Some(s) => s case None => (0, 0))
            && (v.configured <==> AsksForShards(setName, podName, events))
            && (!v.configured ==> v.shard == 0 && v.total == 0)
    decreases |events|
  {
    if events != [] {
      var n := |events| - 1;
      LastEventWins(setName, podName, events[..n]);
      AskedSnoc(setName, podName, events);
    }
  }

  lemma AskedSnoc(setName: string, podName: string, events: seq<SetEvent>)
    requires events != []
    ensures var n := |events| - 1;
            AsksForShards(setName, podName, events) <==>
              AsksForShards(setName, podName, events[..n]) || Asks(setName, podName, events[n]) !in {None, Some((0, 0))}
  {
  }

  // ---- what events do, without reference to what they ask for

  lemma HandledAllSnoc(setName: string, podName: string, events: seq<SetEvent>, event: SetEvent)
    ensures HandledAll(setName, podName, events + [event])
         == Handled(setName, podName, HandledAll(setName, podName, events), event)
  {
    assert (events + [event])[..|events|] == events;
  }

  /** An event tells something new: an addition, or an update to another version. */
  predicate IsNews(event: SetEvent) {
    match event
    case SetAdded(_) => true
    case SetUpdated(oldVersion, newVersion, _) => oldVersion != newVersion
  }

  /** News about its StatefulSet puts pod `k` on shard `k` of the replicas, whatever came before. */
  lemma NewsIsFollowed(events: seq<SetEvent>, event: SetEvent, k: nat)
    requires IsNews(event) && k < TWO31
    ensures var setName := event.ss.name;
            var v := HandledAll(setName, setName + "-" + Itoa(k), events + [event]);
            && v.shard == k
            && v.total == (match event.ss.replicas case Some(n) => n case None => 1)
            && (v.total != 0 ==> v.configured)
  {
    var setName, podName := event.ss.name, event.ss.name + "-" + Itoa(k);
    assert podName == PodName(setName, k);
    SettingsOfPod(event.ss, k);
    HandledAllSnoc(setName, podName, events, event);
    LastEventWins(setName, podName, events);
  }

  /** An event of another StatefulSet, or an update to the same version, changes nothing. */
  lemma NoNewsIsIgnored(setName: string, podName: string, events: seq<SetEvent>, event: SetEvent)
    requires event.ss.name != setName || !IsNews(event)
    ensures HandledAll(setName, podName, events + [event]) == HandledAll(setName, podName, events)
  {
    HandledAllSnoc(setName, podName, events, event);
  }

  /** Nor does any event to a pod whose name holds no number where the ordinal should be. */
  lemma NoOrdinalIsIgnored(setName: string, podName: string, events: seq<SetEvent>, event: SetEvent)
    requires !IsInteger(if setName + "-" <= podName then podName[|setName| + 1..] else podName)
    ensures HandledAll(setName, podName, events + [event]) == HandledAll(setName, podName, events)
  {
    HandledAllSnoc(setName, podName, events, event);
    AtoiAcceptsIff(TrimPrefix(podName, setName + "-"));
  }

  /** The failing input: a new pod 0 whose StatefulSet is first seen with zero replicas builds no stores. */
  lemma ZeroReplicasFirst(name: string)
    ensures HandledAll(name, PodName(name, 0), [SetAdded(StatefulSet(name, Some(0)))]) == Seen(false, 0, 0)
  {
    SettingsOfPod(StatefulSet(name, Some(0)), 0);
    assert [SetAdded(StatefulSet(name, Some(0)))][..0] == [];
  }
}
