/**
 Where sharding stops being invisible: a list that holds an object without metadata. The sharding filter refuses such
 a list and leaves its store alone, while an unsharded instance replaces its store by the part before that object. Only
 the next list repairs it.
 */
module EquivalenceLimit {
  import opened Kube
  import opened Seqs
  import opened Jump
  import opened Exposition
  import opened Generator
  import opened StoreSpec
  import opened Scrape
  import opened Reflector
  import opened Sharding
  import opened Equivalence
  import opened Fresh

  ghost predicate LinesAgree(h: Hasher, n: nat, r: Resource)
    requires h.Valid() && n <= TWO31
  {
    SumTo(ShardLines(h, n, [r]), n) == InstanceLines(h, 0, 1, [r])
  }

  lemma AgreesWhenSettled(h: Hasher, n: nat, r: Resource)
    requires h.Valid() && 1 <= n <= TWO31
    requires Settled(r.inputs)
    ensures LinesAgree(h, n, r)
  {
    ShardsAreShares(h, n, [r]);
    SharesAll(h, n, [r]);
  }

  predicate NoLists(inputs: seq<Input>) {
    forall i | 0 <= i < |inputs| :: !inputs[i].Listed?
  }

  /** The run goes on with a list, and then without one. */
  function After(r: Resource, items: seq<Object>, tail: seq<Input>): Resource {
    r.(inputs := r.inputs + [Listed(items)] + tail)
  }

  lemma {:induction false} SettledAfter(inputs: seq<Input>, items: seq<Object>, tail: seq<Input>)
    requires AllMeta(items) && NoLists(tail)
    ensures Settled(inputs + [Listed(items)] + tail)
    decreases |tail|
  {
    var run := inputs + [Listed(items)] + tail;
    if tail != [] {
      SettledAfter(inputs, items, tail[..|tail| - 1]);
      assert run[..|run| - 1] == inputs + [Listed(items)] + tail[..|tail| - 1];
    }
  }

  // ---- what the store of an instance holds for one UID

  /** What the store of an instance holds for a UID. */
  ghost function LiveAt(h: Hasher, shard: int, total: int, inputs: seq<Input>, u: Uid): Option<Object>
    requires h.Valid() && total < TWO32
  {
    var live := Live(h, shard, total, inputs);
    if u in live then Some(live[u]) else None
  }

  lemma OtherKeeps(h: Hasher, shard: int, total: int, inputs: seq<Input>, x: Input, u: Uid)
    requires h.Valid() && total < TWO32 && !x.Listed? && !Mentions(x, u)
    ensures LiveAt(h, shard, total, inputs + [x], u) == LiveAt(h, shard, total, inputs, u)
  {
    FedSnoc(Self, Arrives(h, shard, total), inputs, x);
  }

  lemma {:induction false} TailKeeps(h: Hasher, shard: int, total: int, inputs: seq<Input>, tail: seq<Input>, u: Uid)
    requires h.Valid() && total < TWO32 && NoLists(tail)
    requires forall i | 0 <= i < |tail| :: !Mentions(tail[i], u)
    ensures LiveAt(h, shard, total, inputs + tail, u) == LiveAt(h, shard, total, inputs, u)
    decreases |tail|
  {
    if tail == [] {
      assert inputs + tail == inputs;
    } else {
      var init, x := tail[..|tail| - 1], tail[|tail| - 1];
      TailKeeps(h, shard, total, inputs, init, u);
      OtherKeeps(h, shard, total, inputs + init, x, u);
      Assoc(inputs, init, [x]);
      assert init + [x] == tail;
    }
  }

  /** After a refused list: a shard keeps what it had, the unsharded store has lost what the list does not hold. */
  lemma AfterRefused(h: Hasher, shard: int, total: int, inputs: seq<Input>, items: seq<Object>, u: Uid)
    requires h.Valid() && total < TWO32 && !AllMeta(items) && !Mentions(Listed(items), u)
    ensures LiveAt(h, shard, total, inputs + [Listed(items)], u)
         == if shard == 0 && total == 1 then None else LiveAt(h, shard, total, inputs, u)
  {
    FedSnoc(Self, Arrives(h, shard, total), inputs, Listed(items));
    NotListed(items, u);
  }

  // ---- a family that shows one UID only

  ghost function Spot(u: Uid): FamilyGenerator {
    FamilyGenerator("spot", "", "gauge", (o: Object) => if About(o, u) then [Metric([], [], ONE)] else [])
  }

  lemma SpotOk(u: Uid)
    ensures GeneratorsOk([Spot(u)])
  {
    forall o: Object ensures AllPaired(Spot(u).generate(o)) {
    }
  }

  lemma {:induction false} LatestIsAbout(ops: seq<Op>, u: Uid)
    requires Latest(ops, u).Some?
    ensures About(Latest(ops, u).value, u)
    decreases |ops|
  {
    match Last(ops)
    case Replace(list) => var _ := LastOfIsLast(MetaPrefix(list), u);
    case Add(o) => if !About(o, u) { LatestIsAbout(Init(ops), u); }
    case Update(o) => if !About(o, u) { LatestIsAbout(Init(ops), u); }
    case Delete(o) => if !About(o, u) { LatestIsAbout(Init(ops), u); }
  }

  lemma LiveIsAbout(h: Hasher, shard: int, total: int, inputs: seq<Input>, u: Uid)
    requires h.Valid() && total < TWO32
    ensures LiveAt(h, shard, total, inputs, u).Some? ==> About(LiveAt(h, shard, total, inputs, u).value, u)
  {
    var ops := Arrived(Arrives(h, shard, total), inputs);
    FedIsContents(Self, Arrives(h, shard, total), inputs);
    StoreIsLatest(Self, ops, u);
    if Latest(ops, u).Some? {
      LatestIsAbout(ops, u);
    }
  }

  /** The family exposes a line exactly if the store holds the UID. */
  lemma SpotLines(h: Hasher, shard: int, total: int, inputs: seq<Input>, u: Uid)
    requires h.Valid() && total < TWO32
    ensures ResourceLines(h, shard, total, Resource([Spot(u)], inputs)) == multiset{} <==>
              LiveAt(h, shard, total, inputs, u) == None
  {
    var live := Live(h, shard, total, inputs);
    var f := ObjectLinesOf([Spot(u)], live, 0);
    forall v | v in live ensures f(v) == multiset{} <==> v != u {
      LiveIsAbout(h, shard, total, inputs, v);
      SpotLine(u, live[v]);
    }
    if u in live {
      SumTake(live.Keys, f, u);
    } else {
      SumZero(live.Keys, f);
    }
  }

  lemma SpotLine(u: Uid, o: Object)
    ensures ObjectLines([Spot(u)], o, 0) == multiset{} <==> !About(o, u)
  {
    var lines := SampleLines("spot", Spot(u).generate(o));
    assert ObjectLines([Spot(u)], o, 0) == multiset(lines);
    if About(o, u) {
      assert lines[0] in multiset(lines);
    } else {
      assert lines == [];
    }
  }

  lemma OneInstance(h: Hasher, shard: int, total: int, r: Resource)
    requires h.Valid() && total < TWO32
    ensures InstanceLines(h, shard, total, [r]) == ResourceLines(h, shard, total, r)
  {
    assert [r][1..] == [];
  }

  lemma {:induction false} SumToTerm<U>(f: nat -> multiset<U>, n: nat, k: nat)
    requires k < n && f(k) != multiset{}
    ensures SumTo(f, n) != multiset{}
  {
    if k < n - 1 {
      SumToTerm(f, n - 1, k);
    }
  }

  // ---- the exact condition

  /** For every refused list and whatever follows it short of a list, some settled run comes out different. */
  lemma ListWithoutMetaDiverges(h: Hasher, n: nat, items: seq<Object>, tail: seq<Input>) returns (r: Resource)
    requires h.Valid() && 1 < n <= TWO31
    requires !AllMeta(items) && NoLists(tail)
    ensures GeneratorsOk(r.gens) && Settled(r.inputs)
    ensures LinesAgree(h, n, r) && !LinesAgree(h, n, After(r, items, tail))
  {
    var u := FreshUid([Listed(items)] + tail);
    assert !Mentions(([Listed(items)] + tail)[0], u);
    assert forall i | 0 <= i < |tail| :: tail[i] == ([Listed(items)] + tail)[i + 1];
    var o := Object(u, false, "", "", "");
    r := Resource([Spot(u)], [Watched(Event(Added, o))]);
    SpotOk(u);
    AgreesWhenSettled(h, n, r);
    var k := ShardOf(h, u, n);
    var before := r.inputs + [Listed(items)];
    Spotted(h, k, n, o);
    AfterRefused(h, k, n, r.inputs, items, u);
    TailKeeps(h, k, n, before, tail, u);
    AfterRefused(h, 0, 1, r.inputs, items, u);
    TailKeeps(h, 0, 1, before, tail, u);
    DivergesAt(h, n, k, u, before + tail);
  }

  lemma Spotted(h: Hasher, shard: int, total: int, o: Object)
    requires h.Valid() && total < TWO32 && o.HasMeta() && Owns(h, shard, total)(o.uid)
    ensures LiveAt(h, shard, total, [Watched(Event(Added, o))], o.uid) == Some(o)
  {
    var x := Watched(Event(Added, o));
    assert [] + [x] == [x];
    FedSnoc(Self, Arrives(h, shard, total), [], x);
  }

  lemma DivergesAt(h: Hasher, n: nat, k: nat, u: Uid, inputs: seq<Input>)
    requires h.Valid() && k < n <= TWO31
    requires LiveAt(h, k, n, inputs, u).Some? && LiveAt(h, 0, 1, inputs, u) == None
    ensures !LinesAgree(h, n, Resource([Spot(u)], inputs))
  {
    var r := Resource([Spot(u)], inputs);
    SpotLines(h, k, n, inputs, u);
    SpotLines(h, 0, 1, inputs, u);
    OneInstance(h, k, n, r);
    OneInstance(h, 0, 1, r);
    SumToTerm(ShardLines(h, n, [r]), n, k);
  }

  lemma OneShardAgrees(h: Hasher, r: Resource)
    requires h.Valid()
    ensures LinesAgree(h, 1, r)
  {
    assert SumTo(ShardLines(h, 1, [r]), 0) == multiset{};
  }

  /**
   A list keeps every run in which shards and unsharded instance agree in agreement, until the next list, iff there is
   one shard or each item has metadata.
   */
  lemma EquivalenceCondition(h: Hasher, n: nat, items: seq<Object>, tail: seq<Input>)
    requires h.Valid() && 1 <= n <= TWO31
    requires NoLists(tail)
    ensures (forall r: Resource | GeneratorsOk(r.gens) && LinesAgree(h, n, r) ::
               LinesAgree(h, n, After(r, items, tail)))
       <==> n == 1 || AllMeta(items)
  {
    if n == 1 {
      forall r: Resource ensures LinesAgree(h, n, After(r, items, tail)) {
        OneShardAgrees(h, After(r, items, tail));
      }
    } else if AllMeta(items) {
      forall r: Resource | GeneratorsOk(r.gens) ensures LinesAgree(h, n, After(r, items, tail)) {
        SettledAfter(r.inputs, items, tail);
        AgreesWhenSettled(h, n, After(r, items, tail));
      }
    } else {
      var r := ListWithoutMetaDiverges(h, n, items, tail);
      assert !LinesAgree(h, n, After(r, items, tail));
    }
  }
}
