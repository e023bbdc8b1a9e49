/**
 What a store holds after a sequence of operations, for any rendering of objects. Rendering with the identity
 gives the cache of objects that the metrics store replaces; rendering to text gives the metrics store.
 */
module StoreSpec {
  import opened Kube
  import opened Seqs

  /** The writing operations of `cache.Store`. */
  datatype Op = Add(o: Object) | Update(o: Object) | Delete(o: Object) | Replace(list: seq<Object>)

  /** `Add`, which fails and changes nothing on an object without metadata. */
  function Insert<V>(r: Object -> V, m: map<Uid, V>, o: Object): map<Uid, V> {
    if o.HasMeta() then m[o.uid := r(o)] else m
  }

  function Remove<V>(m: map<Uid, V>, o: Object): map<Uid, V> {
    if o.HasMeta() then m - {o.uid} else m
  }

  /** Adds a list in order, giving up at the first object without metadata. */
  function InsertAll<V>(r: Object -> V, m: map<Uid, V>, list: seq<Object>): map<Uid, V>
    decreases |list|
  {
    if list == [] || !list[0].HasMeta() then m
    else InsertAll(r, Insert(r, m, list[0]), list[1..])
  }

  function Apply<V>(r: Object -> V, m: map<Uid, V>, op: Op): map<Uid, V> {
    match op
    case Add(o) => Insert(r, m, o)
    case Update(o) => Insert(r, m, o)
    case Delete(o) => Remove(m, o)
    case Replace(list) => InsertAll(r, map[], list)
  }

  function Last(ops: seq<Op>): Op
    requires ops != []
  {
    ops[|ops| - 1]
  }

  function Init(ops: seq<Op>): seq<Op>
    requires ops != []
  {
    ops[..|ops| - 1]
  }

  /** The contents of an initially empty store after the operations. */
  function Contents<V>(r: Object -> V, ops: seq<Op>): map<Uid, V> {
    if ops == [] then map[] else Apply(r, Contents(r, Init(ops)), Last(ops))
  }

  lemma ContentsSnoc<V>(r: Object -> V, ops: seq<Op>, op: Op)
    ensures Contents(r, ops + [op]) == Apply(r, Contents(r, ops), op)
  {
  }

  /** One operation more, or none. */
  function Absorb<V>(r: Object -> V, m: map<Uid, V>, op: Option<Op>): map<Uid, V> {
    match op
    case None => m
    case Some(op) => Apply(r, m, op)
  }

  /** The objects themselves, as the rendering of the cache that the metrics store replaces. */
  function Self(o: Object): Object {
    o
  }

  // ---- the reference: the latest live object per UID, found by looking backwards

  /** The part of a list that precedes its first object without metadata. */
  function MetaPrefix(list: seq<Object>): (prefix: seq<Object>)
    ensures prefix <= list && AllMeta(prefix)
    ensures prefix == list <==> AllMeta(list)
    ensures |prefix| < |list| ==> !list[|prefix|].HasMeta()
  {
    if list == [] || !list[0].HasMeta() then []
    else [list[0]] + MetaPrefix(list[1..])
  }

  /** The last object of the list that has the UID. */
  function LastOf(list: seq<Object>, u: Uid): Option<Object> {
    if list == [] then None
    else
      var o := list[|list| - 1];
      if o.HasMeta() && o.uid == u then Some(o) else LastOf(list[..|list| - 1], u)
  }

  lemma LastOfSnoc(list: seq<Object>, o: Object, u: Uid)
    ensures LastOf(list + [o], u) == if About(o, u) then Some(o) else LastOf(list, u)
  {
  }

  predicate About(o: Object, u: Uid) {
    o.HasMeta() && o.uid == u
  }

  function Latest(ops: seq<Op>, u: Uid): Option<Object> {
    if ops == [] then None
    else
      match Last(ops)
      case Add(o) => if About(o, u) then Some(o) else Latest(Init(ops), u)
      case Update(o) => if About(o, u) then Some(o) else Latest(Init(ops), u)
      case Delete(o) => if About(o, u) then None else Latest(Init(ops), u)
      case Replace(list) => LastOf(MetaPrefix(list), u)
  }

  /** `m` holds exactly the rendering of `found`. */
  ghost predicate Holds<V>(r: Object -> V, m: map<Uid, V>, u: Uid, found: Option<Object>) {
    match found
    case None => u !in m
    case Some(o) => u in m && m[u] == r(o)
  }

  lemma {:induction false} InsertAllSnoc<V>(r: Object -> V, m: map<Uid, V>, list: seq<Object>, o: Object)
    requires AllMeta(list) && o.HasMeta()
    ensures InsertAll(r, m, list + [o]) == Insert(r, InsertAll(r, m, list), o)
    decreases |list|
  {
    if list == [] {
      assert list + [o] == [o];
      assert [o][1..] == [];
    } else {
      InsertAllSnoc(r, Insert(r, m, list[0]), list[1..], o);
      TailFirst(list, [o]);
    }
  }

  lemma {:induction false} InsertAllPrefix<V>(r: Object -> V, m: map<Uid, V>, list: seq<Object>)
    ensures InsertAll(r, m, list) == InsertAll(r, m, MetaPrefix(list))
    decreases |list|
  {
    if list != [] && list[0].HasMeta() {
      InsertAllPrefix(r, Insert(r, m, list[0]), list[1..]);
      assert MetaPrefix(list)[1..] == MetaPrefix(list[1..]);
    }
  }

  lemma {:induction false} InsertAllLast<V>(r: Object -> V, list: seq<Object>, u: Uid)
    requires AllMeta(list)
    ensures Holds(r, InsertAll(r, map[], list), u, LastOf(list, u))
    decreases |list|
  {
    if list != [] {
      var init, o := list[..|list| - 1], list[|list| - 1];
      InsertAllLast(r, init, u);
      InsertAllSnoc(r, map[], init, o);
      assert init + [o] == list;
    }
  }

  lemma {:induction false} LastOfSome(list: seq<Object>, i: nat)
    requires i < |list| && list[i].HasMeta()
    ensures LastOf(list, list[i].uid).Some?
    decreases |list|
  {
    if i < |list| - 1 {
      LastOfSome(list[..|list| - 1], i);
    }
  }

  /** What `LastOf` finds is in the list, and nothing about the UID comes after it. */
  lemma {:induction false} LastOfIsLast(list: seq<Object>, u: Uid) returns (j: nat)
    requires LastOf(list, u).Some?
    ensures j < |list| && LastOf(list, u) == Some(list[j]) && About(list[j], u)
    ensures forall k | j < k < |list| :: !About(list[k], u)
    decreases |list|
  {
    if About(list[|list| - 1], u) {
      j := |list| - 1;
    } else {
      j := LastOfIsLast(list[..|list| - 1], u);
    }
  }

  /**
   After any operations, failed ones included, the store is the rendering of the latest live object of each UID;
   a failed `Replace` leaves the part of its list that comes before the failure.
   */
  lemma {:induction false} StoreIsLatest<V>(r: Object -> V, ops: seq<Op>, u: Uid)
    ensures Holds(r, Contents(r, ops), u, Latest(ops, u))
    decreases |ops|
  {
    if ops != [] {
      StoreIsLatest(r, Init(ops), u);
      if Last(ops).Replace? {
        InsertAllPrefix(r, map[], Last(ops).list);
        InsertAllLast(r, MetaPrefix(Last(ops).list), u);
      }
    }
  }

  /** Rendering on every event equals keeping the objects and rendering them on demand. */
  lemma RenderEagerIsRenderOnDemand<V>(r: Object -> V, ops: seq<Op>)
    ensures var objects := Contents(Self, ops);
            Contents(r, ops) == map u | u in objects :: r(objects[u])
  {
    var objects, m := Contents(Self, ops), Contents(r, ops);
    forall u ensures u in m <==> u in objects
      ensures u in objects ==> m[u] == r(objects[u])
    {
      StoreIsLatest(r, ops, u);
      StoreIsLatest(Self, ops, u);
    }
  }

  // ---- filtering by UID

  function Restrict<V>(m: map<Uid, V>, p: Uid -> bool): map<Uid, V> {
    map u | u in m && p(u) :: m[u]
  }

  predicate Keeps(p: Uid -> bool, o: Object) {
    !o.HasMeta() || p(o.uid)
  }

  /** The objects a UID filter lets through. */
  function Keeper(p: Uid -> bool): Object -> bool {
    (o: Object) => Keeps(p, o)
  }

  /** What a loop over a list has kept of the first `i` items, all of which have metadata. */
  ghost predicate KeptSoFar(items: seq<Object>, i: nat, p: Object -> bool, kept: seq<Object>) {
    i <= |items| && AllMeta(items[..i]) && kept == Filter(items[..i], p)
  }

  lemma KeptOneMore(items: seq<Object>, i: nat, p: Object -> bool, kept: seq<Object>)
    requires KeptSoFar(items, i, p, kept) && i < |items| && items[i].HasMeta()
    ensures KeptSoFar(items, i + 1, p, if p(items[i]) then kept + [items[i]] else kept)
  {
    FilterSnoc(items, i, p);
    assert items[..i + 1] == items[..i] + [items[i]];
  }

  /** What an operation becomes behind a UID filter: objects that are not kept never arrive. */
  function FilterOp(p: Uid -> bool, op: Op): Option<Op> {
    match op
    case Add(o) => if Keeps(p, o) then Some(op) else None
    case Update(o) => if Keeps(p, o) then Some(op) else None
    case Delete(o) => if Keeps(p, o) then Some(op) else None
    case Replace(list) => Some(Replace(Filter(list, Keeper(p))))
  }

  function FilterOps(p: Uid -> bool, ops: seq<Op>): seq<Op> {
    if ops == [] then []
    else
      match FilterOp(p, Last(ops))
      case None => FilterOps(p, Init(ops))
      case Some(op) => FilterOps(p, Init(ops)) + [op]
  }

  lemma {:induction false} InsertAllFilter<V>(r: Object -> V, p: Uid -> bool, m: map<Uid, V>, list: seq<Object>)
    ensures InsertAll(r, Restrict(m, p), Filter(list, Keeper(p)))
         == Restrict(InsertAll(r, m, list), p)
    decreases |list|
  {
    if list != [] && list[0].HasMeta() {
      var o := list[0];
      InsertAllFilter(r, p, Insert(r, m, o), list[1..]);
      if Keeps(p, o) {
        assert Restrict(Insert(r, m, o), p) == Insert(r, Restrict(m, p), o);
      } else {
        assert Restrict(Insert(r, m, o), p) == Restrict(m, p);
      }
    }
  }

  /** Filtering one operation is filtering what it leaves in the store. */
  lemma FilterOneOp<V>(r: Object -> V, p: Uid -> bool, m: map<Uid, V>, op: Op)
    ensures Absorb(r, Restrict(m, p), FilterOp(p, op)) == Restrict(Apply(r, m, op), p)
  {
    if op.Replace? {
      InsertAllFilter(r, p, map[], op.list);
      assert Restrict<V>(map[], p) == map[];
    }
  }

  /** Filtering what arrives is filtering what is stored; an object without metadata passes, and fails behind it. */
  lemma {:induction false} FilterCommutes<V>(r: Object -> V, p: Uid -> bool, ops: seq<Op>)
    ensures Contents(r, FilterOps(p, ops)) == Restrict(Contents(r, ops), p)
    decreases |ops|
  {
    if ops != [] {
      FilterCommutes(r, p, Init(ops));
      FilterOneOp(r, p, Contents(r, Init(ops)), Last(ops));
      if FilterOp(p, Last(ops)).Some? {
        ContentsSnoc(r, FilterOps(p, Init(ops)), FilterOp(p, Last(ops)).value);
      }
    }
  }
}
