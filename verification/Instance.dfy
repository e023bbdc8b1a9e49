/**
 One instance from end to end: the sharding filter and the reflector feed the stores, and a request writes them out.
 What the code of an instance writes is what the equivalence of shards speaks about.
 */
module Instance {
  import opened Kube
  import opened Seqs
  import opened Jump
  import opened Exposition
  import opened Generator
  import opened StoreSpec
  import opened Scrape
  import opened MetricsStore
  import opened Reflector
  import opened Sharding
  import opened Equivalence

  /** The store has followed the run of its resource. */
  ghost predicate Synced(h: Hasher, shard: int, total: int, r: Resource, store: MetricsStore)
    requires h.Valid() && total < TWO32
    reads store
  {
    && store.Valid() && store.gens == r.gens && store.headers == Headers(r.gens)
    && store.metrics == Stored(h, shard, total, r)
  }

  /** The sharding filter in front of the reflector. */
  method Filtered(h: Hasher, shard: int, total: int, input: Input) returns (passed: Option<Input>)
    requires h.Valid() && total < TWO32
    ensures passed == Pass(h, shard, total, input)
    ensures input.Listed? && !AllMeta(input.items) && (shard != 0 || total != 1) ==> passed == Some(ListFailed)
  {
    if shard == 0 && total == 1 {
      return Some(input);
    }
    match input
    case Listed(items) =>
      var r := Sharding.List(h, shard, total, items);
      passed := Some(r);
    case ListFailed => passed := Some(input);
    case Watched(event) =>
      var keep := true;
      if event.obj.HasMeta() {
        keep := Keep(h, shard, total, event.obj.uid);
      }
      passed := if keep then Some(input) else None;
  }

  /** The reflector: what it does to its store with one list or one event. */
  method Deliver(store: MetricsStore, input: Input)
    requires store.Valid()
    modifies store
    ensures store.Valid()
    ensures store.metrics == Absorb(Renderer(store.gens), old(store.metrics), Reflect(input))
    ensures input.Watched? && input.event.obj.HasMeta() && input.event.kind in {Added, Modified} ==>
              store.Stores(old(store.metrics), input.event.obj, store.metrics)
    ensures input.Watched? && input.event.obj.HasMeta() && input.event.kind == Deleted ==>
              forall u :: u in store.metrics <==> u in old(store.metrics) && u != input.event.obj.uid
    ensures input.ListFailed? ==> store.metrics == old(store.metrics)
    ensures input.Watched? && (!input.event.obj.HasMeta() || input.event.kind in {Bookmark, Error}) ==>
              store.metrics == old(store.metrics)
  {
    match input
    case Listed(items) => var _ := store.Replace(items);
    case ListFailed =>
    case Watched(event) =>
      if event.obj.HasMeta() {
        match event.kind
        case Added => var _ := store.Add(event.obj);
        case Modified => var _ := store.Update(event.obj);
        case Deleted => var _ := store.Delete(event.obj);
        case Bookmark =>
        case Error =>
      }
  }

  /** A new store, fed a whole run of lists and events through the sharding filter. */
  method Follow(h: Hasher, shard: int, total: int, included: string -> bool, families: seq<FamilyGenerator>,
                inputs: seq<Input>) returns (store: MetricsStore)
    requires h.Valid() && total < TWO32
    ensures fresh(store)
    ensures Synced(h, shard, total, Resource(Filter(families, (g: FamilyGenerator) => included(g.name)), inputs), store)
  {
    store := BuildStore(included, families);
    var i := 0;
    while i < |inputs|
      invariant 0 <= i <= |inputs|
      invariant store.Valid()
      invariant store.metrics == Fed(Renderer(store.gens), Arrives(h, shard, total), inputs[..i])
    {
      assert inputs[..i + 1][..i] == inputs[..i];
      var passed := Filtered(h, shard, total, inputs[i]);
      if passed.Some? {
        Deliver(store, passed.value);
      }
      i := i + 1;
    }
    assert inputs[..i] == inputs;
  }

  lemma {:induction false} ConcatSnoc(parts: seq<string>, part: string)
    ensures Concat(parts + [part]) == Concat(parts) + part
  {
    if parts == [] {
      assert [part][1..] == [] && parts + [part] == [part];
    } else {
      ConcatSnoc(parts[1..], part);
      TailFirst(parts, [part]);
    }
  }

  /** The stores are in order, and come with the iteration orders of a scrape. */
  ghost predicate Ready(stores: seq<MetricsStore>, orders: seq<seq<seq<Uid>>>)
    reads stores
  {
    |stores| == |orders| && forall i | 0 <= i < |stores| :: ReadyOne(stores[i], orders[i])
  }

  ghost predicate ReadyOne(store: MetricsStore, orders: seq<seq<Uid>>)
    reads store
  {
    store.Valid() && AreOrders(orders, |store.headers|, store.metrics.Keys)
  }

  /** What `WriteAll` writes for the store. */
  ghost function StoreText(store: MetricsStore, orders: seq<seq<Uid>>): string
    requires ReadyOne(store, orders)
    reads store
  {
    TextFrom(store.headers, store.metrics, orders, 0)
  }

  /** The loop of `ServeHTTP`: the stores one after the other. */
  method WriteStores(stores: seq<MetricsStore>, orders: seq<seq<seq<Uid>>>, w: Builder)
    returns (ghost parts: seq<string>)
    requires Ready(stores, orders) && w.text == ""
    modifies w
    ensures |parts| == |stores| && w.text == Concat(parts)
    ensures Ready(stores, orders) && forall k | 0 <= k < |stores| :: parts[k] == StoreText(stores[k], orders[k])
  {
    parts := [];
    var i := 0;
    while i < |stores|
      invariant 0 <= i <= |stores| && |parts| == i
      invariant Ready(stores, orders)
      invariant forall k | 0 <= k < i :: parts[k] == StoreText(stores[k], orders[k])
      invariant w.text == Concat(parts)
    {
      ghost var part := StoreText(stores[i], orders[i]);
      stores[i].WriteAll(w, orders[i]);
      ConcatSnoc(parts, part);
      parts := parts + [part];
      i := i + 1;
    }
  }

  lemma SyncedServes(h: Hasher, shard: int, total: int, r: Resource, store: MetricsStore, orders: seq<seq<Uid>>)
    requires h.Valid() && total < TWO32
    requires Synced(h, shard, total, r, store) && ReadyOne(store, orders)
    ensures Serves(h, shard, total, r, StoreText(store, orders))
  {
  }

  /** A request, in any iteration order of every map: its text is one the equivalence speaks about. */
  method ServeStores(h: Hasher, shard: int, total: int, ghost resources: seq<Resource>, stores: seq<MetricsStore>,
                     orders: seq<seq<seq<Uid>>>, w: Builder)
    requires h.Valid() && total < TWO32
    requires |stores| == |resources| && forall i | 0 <= i < |stores| :: Synced(h, shard, total, resources[i], stores[i])
    requires Ready(stores, orders) && w.text == ""
    modifies w
    ensures ServesAll(h, shard, total, resources, w.text)
  {
    ghost var parts := WriteStores(stores, orders, w);
    forall k | 0 <= k < |stores| ensures Serves(h, shard, total, resources[k], parts[k]) {
      SyncedServes(h, shard, total, resources[k], stores[k], orders[k]);
    }
    assert ServesParts(h, shard, total, resources, parts);
  }
}
