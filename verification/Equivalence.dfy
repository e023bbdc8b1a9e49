/** Sharding is invisible in the union of the scrapes: all shards together expose what one unsharded instance does. */
module Equivalence {
  import opened Kube
  import opened Seqs
  import opened Text
  import opened Jump
  import opened Generator
  import opened StoreSpec
  import opened Scrape
  import opened MetricsStore
  import opened Reflector
  import opened Sharding
  import opened Ordinal

  /** One enabled resource: its (filtered) generators, and what its lister-watcher has delivered so far. */
  datatype Resource = Resource(gens: seq<FamilyGenerator>, inputs: seq<Input>)

  ghost predicate AllGeneratorsOk(resources: seq<Resource>) {
    forall i | 0 <= i < |resources| :: GeneratorsOk(resources[i].gens)
  }

  predicate AllSettled(resources: seq<Resource>) {
    forall i | 0 <= i < |resources| :: Settled(resources[i].inputs)
  }

  /** The objects an instance holds, and what its store holds for them. */
  ghost function Live(h: Hasher, shard: int, total: int, inputs: seq<Input>): map<Uid, Object>
    requires h.Valid() && total < TWO32
  {
    Fed(Self, Arrives(h, shard, total), inputs)
  }

  ghost function Stored(h: Hasher, shard: int, total: int, r: Resource): Entries
    requires h.Valid() && total < TWO32
  {
    Fed(Renderer(r.gens), Arrives(h, shard, total), r.inputs)
  }

  /** `text` is what `WriteAll` writes for the store of `r`, in some iteration order of each family. */
  ghost predicate Serves(h: Hasher, shard: int, total: int, r: Resource, text: string)
    requires h.Valid() && total < TWO32
  {
    var m := Stored(h, shard, total, r);
    && Uniform(m, |Headers(r.gens)|)
    && exists orders :: AreOrders(orders, |Headers(r.gens)|, m.Keys) && text == TextFrom(Headers(r.gens), m, orders, 0)
  }

  function Concat(parts: seq<string>): string {
    if parts == [] then "" else parts[0] + Concat(parts[1..])
  }

  ghost predicate ServesParts(h: Hasher, shard: int, total: int, resources: seq<Resource>, parts: seq<string>)
    requires h.Valid() && total < TWO32
  {
    |parts| == |resources| && forall i | 0 <= i < |parts| :: Serves(h, shard, total, resources[i], parts[i])
  }

  /** `text` is what `ServeHTTP` writes: the stores of all resources, one after the other. */
  ghost predicate ServesAll(h: Hasher, shard: int, total: int, resources: seq<Resource>, text: string)
    requires h.Valid() && total < TWO32
  {
    exists parts :: ServesParts(h, shard, total, resources, parts) && text == Concat(parts)
  }

  // ---- the lines of one instance

  ghost function ResourceLines(h: Hasher, shard: int, total: int, r: Resource): multiset<string>
    requires h.Valid() && total < TWO32
  {
    var live := Live(h, shard, total, r.inputs);
    Sum(live.Keys, ObjectLinesOf(r.gens, live, 0))
  }

  ghost function InstanceLines(h: Hasher, shard: int, total: int, resources: seq<Resource>): multiset<string>
    requires h.Valid() && total < TWO32
  {
    if resources == [] then multiset{}
    else ResourceLines(h, shard, total, resources[0]) + InstanceLines(h, shard, total, resources[1..])
  }

  /** A served text is a scrape of the live objects. */
  lemma ServedScrape(h: Hasher, shard: int, total: int, r: Resource, text: string) returns (orders: seq<seq<Uid>>)
    requires h.Valid() && total < TWO32
    requires Serves(h, shard, total, r, text)
    ensures var live := Live(h, shard, total, r.inputs);
            AreOrders(orders, |r.gens|, live.Keys) && text == ScrapeText(r.gens, live, orders)
  {
    var live, m := Live(h, shard, total, r.inputs), Stored(h, shard, total, r);
    FedIsContents(Self, Arrives(h, shard, total), r.inputs);
    FedIsContents(Renderer(r.gens), Arrives(h, shard, total), r.inputs);
    StoreHoldsRendering(r.gens, Arrived(Arrives(h, shard, total), r.inputs));
    assert m == RenderAll(r.gens, live);
    orders :| AreOrders(orders, |Headers(r.gens)|, m.Keys) && text == TextFrom(Headers(r.gens), m, orders, 0);
  }

  lemma ServedLines(h: Hasher, shard: int, total: int, r: Resource, text: string)
    requires h.Valid() && total < TWO32
    requires GeneratorsOk(r.gens) && Serves(h, shard, total, r, text)
    ensures multiset(DataLines(text)) == ResourceLines(h, shard, total, r) && Terminated(text)
  {
    var live := Live(h, shard, total, r.inputs);
    var orders := ServedScrape(h, shard, total, r, text);
    ScrapeLinesAreObjectLines(r.gens, live, orders);
    ScrapeTerminated(r.gens, live, orders, 0);
  }

  lemma DataLinesConcat(a: string, b: string)
    requires Terminated(a)
    ensures multiset(DataLines(a + b)) == multiset(DataLines(a)) + multiset(DataLines(b))
  {
    LinesConcat(a, b);
    FilterAppend(Lines(a), Lines(b), IsSampleLine);
  }

  lemma {:induction false} ServedPartsLines(h: Hasher, shard: int, total: int, resources: seq<Resource>,
                                            parts: seq<string>)
    requires h.Valid() && total < TWO32
    requires AllGeneratorsOk(resources) && ServesParts(h, shard, total, resources, parts)
    ensures multiset(DataLines(Concat(parts))) == InstanceLines(h, shard, total, resources)
  {
    if parts == [] {
      LinesEmpty();
    } else {
      ServedLines(h, shard, total, resources[0], parts[0]);
      ServedPartsLines(h, shard, total, resources[1..], parts[1..]);
      DataLinesConcat(parts[0], Concat(parts[1..]));
    }
  }

  lemma ServedAllLines(h: Hasher, shard: int, total: int, resources: seq<Resource>, text: string)
    requires h.Valid() && total < TWO32
    requires AllGeneratorsOk(resources) && ServesAll(h, shard, total, resources, text)
    ensures multiset(DataLines(text)) == InstanceLines(h, shard, total, resources)
  {
    var parts :| ServesParts(h, shard, total, resources, parts) && text == Concat(parts);
    ServedPartsLines(h, shard, total, resources, parts);
  }

  // ---- the lines of all shards

  ghost function ShardLines(h: Hasher, n: int, resources: seq<Resource>): nat -> multiset<string>
    requires h.Valid() && n <= TWO31
  {
    (k: nat) => InstanceLines(h, k, n, resources)
  }

  /** The UIDs, among those held unsharded, that belong to the first `k` shards. */
  ghost function OwnedBelow(h: Hasher, n: int, keys: set<Uid>, k: int): set<Uid>
    requires h.Valid() && n <= TWO31
  {
    set u | u in keys && ShardOf(h, u, n) < k
  }

  lemma ResourceShare(h: Hasher, n: int, r: Resource, k: nat)
    requires h.Valid() && 1 <= n <= TWO31 && k < n
    requires Settled(r.inputs)
    ensures var live := Live(h, 0, 1, r.inputs);
            var f := ObjectLinesOf(r.gens, live, 0);
            Sum(OwnedBelow(h, n, live.Keys, k), f) + ResourceLines(h, k, n, r)
            == Sum(OwnedBelow(h, n, live.Keys, k + 1), f)
  {
    var live, mine := Live(h, 0, 1, r.inputs), Live(h, k, n, r.inputs);
    ShardIsRestriction(h, k, n, r.inputs, Self);
    assert mine == Restrict(live, Owns(h, k, n));
    var f := ObjectLinesOf(r.gens, live, 0);
    SumSame(mine.Keys, ObjectLinesOf(r.gens, mine, 0), f);
    var below := OwnedBelow(h, n, live.Keys, k);
    assert OwnedBelow(h, n, live.Keys, k + 1) == below + mine.Keys;
    SumDisjoint(below, mine.Keys, f);
  }

  ghost function SharesBelow(h: Hasher, n: int, resources: seq<Resource>, k: nat): multiset<string>
    requires h.Valid() && n <= TWO31
  {
    if resources == [] then multiset{}
    else
      var live := Live(h, 0, 1, resources[0].inputs);
      Sum(OwnedBelow(h, n, live.Keys, k), ObjectLinesOf(resources[0].gens, live, 0))
      + SharesBelow(h, n, resources[1..], k)
  }

  lemma {:induction false} SharesNone(h: Hasher, n: int, resources: seq<Resource>)
    requires h.Valid() && 1 <= n <= TWO31
    ensures SharesBelow(h, n, resources, 0) == multiset{}
  {
    if resources != [] {
      SharesNone(h, n, resources[1..]);
      assert OwnedBelow(h, n, Live(h, 0, 1, resources[0].inputs).Keys, 0) == {};
    }
  }

  lemma {:induction false} SharesStep(h: Hasher, n: int, resources: seq<Resource>, k: nat)
    requires h.Valid() && 1 <= n <= TWO31 && k < n
    requires AllSettled(resources)
    ensures SharesBelow(h, n, resources, k) + InstanceLines(h, k, n, resources) == SharesBelow(h, n, resources, k + 1)
  {
    if resources != [] {
      ResourceShare(h, n, resources[0], k);
      SharesStep(h, n, resources[1..], k);
    }
  }

  lemma {:induction false} SharesAll(h: Hasher, n: int, resources: seq<Resource>)
    requires h.Valid() && 1 <= n <= TWO31
    ensures SharesBelow(h, n, resources, n) == InstanceLines(h, 0, 1, resources)
  {
    if resources != [] {
      SharesAll(h, n, resources[1..]);
      var live := Live(h, 0, 1, resources[0].inputs);
      assert OwnedBelow(h, n, live.Keys, n) == live.Keys;
    }
  }

  lemma ShardsAreShares(h: Hasher, n: nat, resources: seq<Resource>)
    requires h.Valid() && 1 <= n <= TWO31
    requires AllSettled(resources)
    ensures SumTo(ShardLines(h, n, resources), n) == SharesBelow(h, n, resources, n)
  {
    var shares := (k: nat) => SharesBelow(h, n, resources, k);
    SharesNone(h, n, resources);
    forall k: nat | k < n ensures shares(k) + ShardLines(h, n, resources)(k) == shares(k + 1) {
      SharesStep(h, n, resources, k);
    }
    Telescope(ShardLines(h, n, resources), shares, n);
  }

  /** The sample lines of several texts, counted together. */
  ghost function UnionLines(texts: seq<string>): multiset<string> {
    if texts == [] then multiset{} else UnionLines(texts[..|texts| - 1]) + multiset(DataLines(texts[|texts| - 1]))
  }

  lemma {:induction false} UnionIsSum(texts: seq<string>, f: nat -> multiset<string>)
    requires forall k: nat | k < |texts| :: multiset(DataLines(texts[k])) == f(k)
    ensures UnionLines(texts) == SumTo(f, |texts|)
    decreases |texts|
  {
    if texts != [] {
      UnionIsSum(texts[..|texts| - 1], f);
    }
  }

  lemma UnionOfServed(h: Hasher, n: int, resources: seq<Resource>, texts: seq<string>)
    requires h.Valid() && n <= TWO31
    requires AllGeneratorsOk(resources)
    requires forall k | 0 <= k < |texts| :: ServesAll(h, k, n, resources, texts[k])
    ensures UnionLines(texts) == SumTo(ShardLines(h, n, resources), |texts|)
  {
    forall k: nat | k < |texts| ensures multiset(DataLines(texts[k])) == ShardLines(h, n, resources)(k) {
      ServedAllLines(h, k, n, resources, texts[k]);
    }
    UnionIsSum(texts, ShardLines(h, n, resources));
  }

  /**
   For every number of shards, every run of lists and watch events, and every map iteration order anywhere:
   the sample lines of the shards, counted together, are those of one unsharded instance fed the same run.
   */
  lemma ShardsExposeTheUnshardedLines(h: Hasher, n: int, resources: seq<Resource>, texts: seq<string>, whole: string)
    requires h.Valid() && 1 <= n <= TWO31
    requires AllGeneratorsOk(resources) && AllSettled(resources)
    requires |texts| == n && forall k | 0 <= k < n :: ServesAll(h, k, n, resources, texts[k])
    requires ServesAll(h, 0, 1, resources, whole)
    ensures UnionLines(texts) == multiset(DataLines(whole))
  {
    UnionOfServed(h, n, resources, texts);
    ShardsAreShares(h, n, resources);
    SharesAll(h, n, resources);
    ServedAllLines(h, 0, 1, resources, whole);
  }

  /** What a pod serves after it has read its settings from its own name and its StatefulSet. */
  ghost predicate PodServes(h: Hasher, ss: StatefulSet, podName: string, resources: seq<Resource>, text: string)
    requires h.Valid()
  {
    match SettingsFromStatefulSet(ss, podName)
    case Err => false
    case Ok((shard, total)) => total < TWO32 && ServesAll(h, shard, total, resources, text)
  }

  function Replicas(ss: StatefulSet): int {
    if ss.replicas.Some? then ss.replicas.value else 1
  }

  /** Auto-sharding: the pods `name-0` .. `name-(n-1)` of a StatefulSet of `n` replicas (one, if unset) do the same. */
  lemma PodsExposeTheUnshardedLines(h: Hasher, ss: StatefulSet, resources: seq<Resource>, texts: seq<string>,
                                    whole: string)
    requires h.Valid() && 1 <= Replicas(ss) < TWO31
    requires AllGeneratorsOk(resources) && AllSettled(resources)
    requires |texts| == Replicas(ss)
    requires forall k | 0 <= k < |texts| :: PodServes(h, ss, PodName(ss.name, k), resources, texts[k])
    requires ServesAll(h, 0, 1, resources, whole)
    ensures UnionLines(texts) == multiset(DataLines(whole))
  {
    forall k | 0 <= k < |texts| ensures ServesAll(h, k, Replicas(ss), resources, texts[k]) {
      SettingsOfPod(ss, k);
      assert PodServes(h, ss, PodName(ss.name, k), resources, texts[k]);
    }
    ShardsExposeTheUnshardedLines(h, Replicas(ss), resources, texts, whole);
  }

  /** Every object is kept by exactly one pod of the StatefulSet. */
  lemma ExactlyOnePodKeeps(h: Hasher, ss: StatefulSet, u: Uid)
    requires h.Valid() && 1 <= Replicas(ss) < TWO31
    ensures var k := ShardOf(h, u, Replicas(ss));
            && 0 <= k < Replicas(ss)
            && forall j: nat | j < Replicas(ss) ::
                 && SettingsFromStatefulSet(ss, PodName(ss.name, j)) == Ok((j, Replicas(ss)))
                 && (Owns(h, j, Replicas(ss))(u) <==> j == k)
  {
    forall j: nat | j < Replicas(ss)
      ensures SettingsFromStatefulSet(ss, PodName(ss.name, j)) == Ok((j, Replicas(ss)))
    {
      SettingsOfPod(ss, j);
    }
  }
}
