/** pkg/sharding: the UID hash filter in front of the reflector. */
module Sharding {
  import opened Kube
  import opened Seqs
  import opened Jump
  import opened StoreSpec
  import opened Reflector

  /** The foreign parts of the shard computation: FNV-1a over a UID, and float64 rounding. */
  datatype Hasher = Hasher(fnv: Uid -> U64, rnd: real -> real) {
    ghost predicate Valid() {
      Rounding(rnd)
    }
  }

  function ShardOf(h: Hasher, u: Uid, total: int): (shard: int)
    requires h.Valid() && total < TWO32
    ensures 1 <= total <= TWO31 ==> 0 <= shard < total
    ensures total < 1 ==> shard == -1
  {
    Bucket(h.rnd, h.fnv(u), total)
  }

  /** The UIDs a shard keeps. */
  function Owns(h: Hasher, shard: int, total: int): Uid -> bool
    requires h.Valid() && total < TWO32
  {
    (u: Uid) => ShardOf(h, u, total) == shard
  }

  /** `sharding.keep`. */
  method Keep(h: Hasher, shard: int, total: int, u: Uid) returns (keep: bool)
    requires h.Valid() && total < TWO32
    ensures keep <==> Bucket(h.rnd, h.fnv(u), total) == shard
  {
    var bucket := Hash(h.rnd, h.fnv(u), total);
    keep := bucket == shard;
  }

  method KeepItem(h: Hasher, shard: int, total: int, o: Object, ghost p: Object -> bool) returns (keep: bool)
    requires h.Valid() && total < TWO32 && o.HasMeta() && p == Keeper(Owns(h, shard, total))
    ensures keep == p(o)
  {
    keep := Keep(h, shard, total, o.uid);
  }

  /** The loop of `shardedListWatch.List`; `p` is what the shard keeps. */
  method KeepItems(h: Hasher, shard: int, total: int, items: seq<Object>, ghost p: Object -> bool) returns (r: Input)
    requires h.Valid() && total < TWO32 && p == Keeper(Owns(h, shard, total))
    ensures r == if AllMeta(items) then Listed(Filter(items, p)) else ListFailed
  {
    var kept: seq<Object> := [];
    var i := 0;
    while i < |items|
      invariant 0 <= i <= |items| && KeptSoFar(items, i, p, kept)
    {
      if !items[i].HasMeta() {
        return ListFailed;
      }
      KeptOneMore(items, i, p, kept);
      var keep := KeepItem(h, shard, total, items[i], p);
      if keep {
        kept := kept + [items[i]];
      }
      i := i + 1;
    }
    assert items[..i] == items;
    r := Listed(kept);
  }

  /** `shardedListWatch.List`: the kept items in order, or an error if an item has no metadata. */
  method List(h: Hasher, shard: int, total: int, items: seq<Object>) returns (r: Input)
    requires h.Valid() && total < TWO32
    ensures r == if AllMeta(items) then Listed(Filter(items, Keeper(Owns(h, shard, total)))) else ListFailed
  {
    r := KeepItems(h, shard, total, items, Keeper(Owns(h, shard, total)));
  }

  /** What passes `shardedListWatch`. */
  function PassFilter(h: Hasher, shard: int, total: int, input: Input): Option<Input>
    requires h.Valid() && total < TWO32
  {
    match input
    case Listed(items) =>
      if AllMeta(items) then Some(Listed(Filter(items, Keeper(Owns(h, shard, total)))))
      else Some(ListFailed)
    case ListFailed => Some(ListFailed)
    case Watched(event) => if Keeps(Owns(h, shard, total), event.obj) then Some(input) else None
  }

  /** What passes the lister-watcher of a shard; shard 0 of 1 skips the filter. */
  function Pass(h: Hasher, shard: int, total: int, input: Input): Option<Input>
    requires h.Valid() && total < TWO32
  {
    if shard == 0 && total == 1 then Some(input) else PassFilter(h, shard, total, input)
  }

  /** The operation that reaches the store of a shard. */
  function Arrives(h: Hasher, shard: int, total: int): Input -> Option<Op>
    requires h.Valid() && total < TWO32
  {
    (input: Input) =>
      match Pass(h, shard, total, input)
      case None => None
      case Some(passed) => Reflect(passed)
  }

  // ---- one input

  /** The shard-0-of-1 shortcut passes what the filter would pass, except for a list the filter refuses. */
  lemma ShortcutKeepsAll(h: Hasher, input: Input)
    requires h.Valid()
    ensures Pass(h, 0, 1, input) == PassFilter(h, 0, 1, input) <==> Good(input)
  {
    if input.Listed? && AllMeta(input.items) {
      FilterAll(input.items, Keeper(Owns(h, 0, 1)));
    }
  }

  /** The operation that arrives behind a filter of operations by UID. */
  function ArrivesFiltered(p: Uid -> bool, input: Input): Option<Op> {
    match Reflect(input)
    case None => None
    case Some(op) => FilterOp(p, op)
  }

  lemma ListOwned(h: Hasher, shard: int, total: int, items: seq<Object>)
    requires h.Valid() && total < TWO32
    ensures Arrives(h, shard, total)(Listed(items)) == ArrivesFiltered(Owns(h, shard, total), Listed(items))
       <==> AllMeta(items) || (shard == 0 && total == 1)
  {
    if shard == 0 && total == 1 {
      FilterAll(items, Keeper(Owns(h, shard, total)));
    }
  }

  /** Filtering then reflecting is reflecting then filtering the operation, except for a list the filter refuses. */
  lemma ReflectOwned(h: Hasher, shard: int, total: int, input: Input)
    requires h.Valid() && total < TWO32
    ensures Arrives(h, shard, total)(input) == ArrivesFiltered(Owns(h, shard, total), input)
       <==> Good(input) || (shard == 0 && total == 1)
  {
    if input.Listed? {
      ListOwned(h, shard, total, input.items);
    }
  }

  // ---- whole runs

  /** One more input: a list makes the restriction true whatever was stored, anything else keeps it true. */
  lemma RestrictOne<V>(h: Hasher, shard: int, total: int, r: Object -> V, mine: map<Uid, V>, all: map<Uid, V>, x: Input)
    requires h.Valid() && total < TWO32 && Good(x)
    requires x.Listed? || mine == Restrict(all, Owns(h, shard, total))
    ensures Absorb(r, mine, Arrives(h, shard, total)(x)) == Restrict(Absorb(r, all, Reflect(x)), Owns(h, shard, total))
  {
    ReflectOwned(h, shard, total, x);
    if Reflect(x).Some? {
      FilterOneOp(r, Owns(h, shard, total), all, Reflect(x).value);
    }
  }

  /**
   The contents of a shard's store are the unsharded contents restricted to the UIDs of the shard, whenever the last
   list was one that the filter accepts.
   */
  lemma {:induction false} ShardIsRestriction<V>(h: Hasher, shard: int, total: int, inputs: seq<Input>, r: Object -> V)
    requires h.Valid() && total < TWO32
    requires Settled(inputs)
    ensures Fed(r, Arrives(h, shard, total), inputs)
         == Restrict(Fed(r, Arrives(h, 0, 1), inputs), Owns(h, shard, total))
    decreases |inputs|
  {
    if inputs != [] {
      var init, x := inputs[..|inputs| - 1], inputs[|inputs| - 1];
      if !x.Listed? {
        ShardIsRestriction(h, shard, total, init, r);
      }
      RestrictOne(h, shard, total, r, Fed(r, Arrives(h, shard, total), init), Fed(r, Arrives(h, 0, 1), init), x);
    }
  }

  /** One more shard: an object stays with its shard, or moves to the new one. */
  lemma ScalingOutMovesOnlyToNewShard(h: Hasher, total: int, u: Uid, shard: int)
    requires h.Valid() && 1 <= total < TWO31
    ensures Owns(h, shard, total + 1)(u) ==> Owns(h, shard, total)(u) || shard == total
  {
    GrowMovesOnlyToNewBucket(h.rnd, h.fnv(u), total);
  }

  /** The UID decides: with two shards or more, any two UIDs are told apart by some shard under some hash of them. */
  lemma UidMatters(u: Uid, v: Uid, total: int) returns (h: Hasher, shard: int)
    requires u != v && 2 <= total < TWO32
    ensures h.Valid() && Owns(h, shard, total)(u) && !Owns(h, shard, total)(v)
  {
    var key := KeyMatters(total);
    h := Hasher((x: Uid) => if x == u then key else 0, Unrounded);
    shard := ShardOf(h, u, total);
  }
}
