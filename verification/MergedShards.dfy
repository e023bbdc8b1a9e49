/**
 Shards are processes of their own: each has its own multi-watch over the same sources, and sees its own interleaving.
 They still expose together what one unsharded instance, with an interleaving of its own, exposes.
 */
module MergedShards {
  import opened Kube
  import opened Jump
  import opened StoreSpec
  import opened Reflector
  import opened Generator
  import opened Scrape
  import opened Sharding
  import opened MergedStore
  import MultiLister
  import opened Equivalence

  /** Runs of the same resources that leave an unsharded store alike. */
  ghost predicate SameRuns(h: Hasher, a: seq<Resource>, b: seq<Resource>)
    requires h.Valid()
  {
    && |a| == |b|
    && forall i | 0 <= i < |a| ::
         a[i].gens == b[i].gens && Live(h, 0, 1, a[i].inputs) == Live(h, 0, 1, b[i].inputs)
  }

  lemma SameShardLines(h: Hasher, shard: int, total: int, a: Resource, b: Resource)
    requires h.Valid() && total < TWO32 && Settled(a.inputs) && Settled(b.inputs)
    requires a.gens == b.gens && Live(h, 0, 1, a.inputs) == Live(h, 0, 1, b.inputs)
    ensures ResourceLines(h, shard, total, a) == ResourceLines(h, shard, total, b)
  {
    ShardIsRestriction(h, shard, total, a.inputs, Self);
    ShardIsRestriction(h, shard, total, b.inputs, Self);
  }

  lemma {:induction false} SameInstanceLines(h: Hasher, shard: int, total: int, a: seq<Resource>, b: seq<Resource>)
    requires h.Valid() && total < TWO32 && AllSettled(a) && AllSettled(b) && SameRuns(h, a, b)
    ensures InstanceLines(h, shard, total, a) == InstanceLines(h, shard, total, b)
  {
    if a != [] {
      SameShardLines(h, shard, total, a[0], b[0]);
      SameInstanceLines(h, shard, total, a[1..], b[1..]);
    }
  }

  /** The headline, for shards that each follow a run of their own. */
  lemma OwnRunsExposeTheUnshardedLines(h: Hasher, n: int, runs: seq<seq<Resource>>, resources: seq<Resource>,
                                       texts: seq<string>, whole: string)
    requires h.Valid() && 1 <= n <= TWO31
    requires |runs| == |texts| == n
    requires AllGeneratorsOk(resources) && AllSettled(resources)
    requires forall k | 0 <= k < n :: AllSettled(runs[k]) && SameRuns(h, runs[k], resources)
    requires forall k | 0 <= k < n :: ServesAll(h, k, n, runs[k], texts[k])
    requires ServesAll(h, 0, 1, resources, whole)
    ensures UnionLines(texts) == multiset(DataLines(whole))
  {
    forall k: nat | k < n ensures multiset(DataLines(texts[k])) == ShardLines(h, n, resources)(k) {
      ServedAllLines(h, k, n, runs[k], texts[k]);
      SameInstanceLines(h, k, n, runs[k], resources);
    }
    UnionIsSum(texts, ShardLines(h, n, resources));
    ShardsAreShares(h, n, resources);
    SharesAll(h, n, resources);
    ServedAllLines(h, 0, 1, resources, whole);
  }

  // ---- a list, then merged watches

  /** What the sources of a resource have to say: a list each, and the events of the watch that follows it. */
  datatype Feed = Feed(gens: seq<FamilyGenerator>, lists: seq<Result<Listing>>, ps: seq<seq<Event>>)

  function Watches(d: Delivered): (inputs: seq<Input>)
    ensures |inputs| == |d|
  {
    seq(|d|, k requires 0 <= k < |d| => Watched(d[k].1))
  }

  function RunOf(items: seq<Object>, d: Delivered): seq<Input> {
    [Listed(items)] + Watches(d)
  }

  /** The run is the merged list and some merge of the watches. */
  ghost predicate Follows(inputs: seq<Input>, feed: Feed)
    requires MultiLister.AllOk(feed.lists)
  {
    exists d :: IsMerge(d, feed.ps) && inputs == RunOf(MultiLister.Items(feed.lists), d)
  }

  /** The lists succeed and are accepted, and for every UID all watches that report it end in the same effect. */
  ghost predicate FeedOk(feed: Feed) {
    && MultiLister.AllOk(feed.lists)
    && (forall i | 0 <= i < |feed.lists| :: AllMeta(feed.lists[i].value.items))
    && forall u :: SameOutcome(Self, feed.ps, u)
  }

  lemma {:induction false} FindSource(lists: seq<Result<Listing>>, n: nat, k: nat) returns (i: nat)
    requires MultiLister.AllOk(lists) && n <= |lists| && k < MultiLister.Offset(lists, n)
    ensures i < n && MultiLister.Offset(lists, i) <= k < MultiLister.Offset(lists, i) + |lists[i].value.items|
  {
    if k < MultiLister.Offset(lists, n - 1) {
      i := FindSource(lists, n - 1, k);
    } else {
      i := n - 1;
    }
  }

  /** Every item of the merged list is an item of some source. */
  lemma FromSomeSource(lists: seq<Result<Listing>>, k: nat) returns (i: nat, j: nat)
    requires MultiLister.AllOk(lists) && k < |MultiLister.Items(lists)|
    ensures i < |lists| && j < |lists[i].value.items| && MultiLister.Items(lists)[k] == lists[i].value.items[j]
  {
    MultiLister.ItemsHoldAll(lists);
    i := FindSource(lists, |lists|, k);
    j := k - MultiLister.Offset(lists, i);
  }

  lemma MergedListMeta(lists: seq<Result<Listing>>)
    requires MultiLister.AllOk(lists) && forall i | 0 <= i < |lists| :: AllMeta(lists[i].value.items)
    ensures AllMeta(MultiLister.Items(lists))
  {
    forall k | 0 <= k < |MultiLister.Items(lists)| ensures MultiLister.Items(lists)[k].HasMeta() {
      var i, j := FromSomeSource(lists, k);
    }
  }

  /** After the merged list the store holds exactly the objects that some source lists. */
  lemma StoreAfterMergedList(lists: seq<Result<Listing>>, u: Uid)
    requires MultiLister.AllOk(lists) && forall i | 0 <= i < |lists| :: AllMeta(lists[i].value.items)
    ensures u in InsertAll(Self, map[], MultiLister.Items(lists)) <==>
              exists i, k :: 0 <= i < |lists| && 0 <= k < |lists[i].value.items| && About(lists[i].value.items[k], u)
  {
    var items := MultiLister.Items(lists);
    MergedListMeta(lists);
    MultiLister.ItemsHoldAll(lists);
    InsertAllLast(Self, items, u);
    if LastOf(items, u).Some? {
      var k := LastOfIsLast(items, u);
      var i, j := FromSomeSource(lists, k);
      assert About(lists[i].value.items[j], u);
    }
    if i, k :| 0 <= i < |lists| && 0 <= k < |lists[i].value.items| && About(lists[i].value.items[k], u) {
      LastOfSome(items, MultiLister.Offset(lists, i) + k);
    }
  }

  lemma {:induction false} RunIsMerged(h: Hasher, items: seq<Object>, d: Delivered)
    requires h.Valid() && AllMeta(items)
    ensures Settled(RunOf(items, d))
    ensures Live(h, 0, 1, RunOf(items, d)) == Merged(Self, InsertAll(Self, map[], items), d)
    decreases |d|
  {
    var run := RunOf(items, d);
    if d == [] {
      assert run == [] + [Listed(items)];
      FedSnoc(Self, Arrives(h, 0, 1), [], Listed(items));
    } else {
      var init := d[..|d| - 1];
      RunIsMerged(h, items, init);
      assert run[..|run| - 1] == RunOf(items, init) && run[|run| - 1] == Watched(d[|d| - 1].1);
    }
  }

  lemma FollowersAgree(h: Hasher, a: seq<Input>, b: seq<Input>, feed: Feed)
    requires h.Valid() && FeedOk(feed) && Follows(a, feed) && Follows(b, feed)
    ensures Settled(a) && Settled(b) && Live(h, 0, 1, a) == Live(h, 0, 1, b)
  {
    var items := MultiLister.Items(feed.lists);
    var d :| IsMerge(d, feed.ps) && a == RunOf(items, d);
    var d' :| IsMerge(d', feed.ps) && b == RunOf(items, d');
    MergedListMeta(feed.lists);
    RunIsMerged(h, items, d);
    RunIsMerged(h, items, d');
    MergeOrderIsIrrelevant(Self, InsertAll(Self, map[], items), feed.ps);
  }

  /** Resources that follow the feeds, each in an interleaving of its own. */
  ghost predicate AllFollow(resources: seq<Resource>, feeds: seq<Feed>) {
    && |resources| == |feeds|
    && forall i | 0 <= i < |feeds| ::
         && resources[i].gens == feeds[i].gens
         && MultiLister.AllOk(feeds[i].lists) && Follows(resources[i].inputs, feeds[i])
  }

  lemma AllFollowersAgree(h: Hasher, a: seq<Resource>, b: seq<Resource>, feeds: seq<Feed>)
    requires h.Valid() && (forall i | 0 <= i < |feeds| :: FeedOk(feeds[i]))
    requires AllFollow(a, feeds) && AllFollow(b, feeds)
    ensures AllSettled(a) && AllSettled(b) && SameRuns(h, a, b)
  {
    forall i | 0 <= i < |feeds|
      ensures Settled(a[i].inputs) && Settled(b[i].inputs) && Live(h, 0, 1, a[i].inputs) == Live(h, 0, 1, b[i].inputs)
    {
      FollowersAgree(h, a[i].inputs, b[i].inputs, feeds[i]);
    }
  }

  /**
   Once every shard and the unsharded instance have received the lists and all events of all watches, each in an
   interleaving of its own, the sample lines of the shards, counted together, are those of the unsharded instance.
   */
  lemma MergedShardsExposeTheUnshardedLines(h: Hasher, n: int, feeds: seq<Feed>, runs: seq<seq<Resource>>,
                                            resources: seq<Resource>, texts: seq<string>, whole: string)
    requires h.Valid() && 1 <= n <= TWO31
    requires (forall i | 0 <= i < |feeds| :: FeedOk(feeds[i])) && AllGeneratorsOk(resources)
    requires |runs| == |texts| == n && AllFollow(resources, feeds)
    requires forall k | 0 <= k < n :: AllFollow(runs[k], feeds)
    requires forall k | 0 <= k < n :: ServesAll(h, k, n, runs[k], texts[k])
    requires ServesAll(h, 0, 1, resources, whole)
    ensures UnionLines(texts) == multiset(DataLines(whole))
  {
    forall k | 0 <= k < n ensures AllSettled(runs[k]) && SameRuns(h, runs[k], resources) {
      AllFollowersAgree(h, runs[k], resources, feeds);
    }
    AllFollowersAgree(h, resources, resources, feeds);
    OwnRunsExposeTheUnshardedLines(h, n, runs, resources, texts, whole);
  }
}
