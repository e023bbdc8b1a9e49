/** pkg/listwatch: listing several sources as one, and handing each source its own resource version back. */
module MultiLister {
  import opened Kube
  import opened Seqs
  import opened Text

  predicate AllOk(lists: seq<Result<Listing>>) {
    forall i | 0 <= i < |lists| :: lists[i].Ok?
  }

  function Versions(lists: seq<Result<Listing>>): (vs: seq<string>)
    requires AllOk(lists)
    ensures |vs| == |lists|
  {
    seq(|lists|, i requires 0 <= i < |lists| => lists[i].value.version)
  }

  function Items(lists: seq<Result<Listing>>): seq<Object>
    requires AllOk(lists)
  {
    FlatMap(lists, (l: Result<Listing>) => if l.Ok? then l.value.items else [])
  }

  /** `multiListerWatcher.Watch`: the version each of `n` sources is watched from. */
  function WatchVersions(n: nat, version: string): Result<seq<string>> {
    if version == "" then Ok(seq(n, i => ""))
    else
      var parts := Split(version, '/');
      if |parts| != n then Err else Ok(parts)
  }

  predicate NoSlash(versions: seq<string>) {
    forall i | 0 <= i < |versions| :: '/' !in versions[i]
  }

  lemma JoinNonEmpty(versions: seq<string>)
    ensures Join(versions, '/') == "" <==> versions == [] || versions == [""]
  {
  }

  /**
   Every source is watched from exactly the version its own List returned; versions that hold a slash, and would
   therefore be misrouted, are refused.
   */
  lemma WatchFromListedVersions(versions: seq<string>)
    ensures WatchVersions(|versions|, Join(versions, '/')) == if NoSlash(versions) then Ok(versions) else Err
  {
    JoinNonEmpty(versions);
    if versions == [] || versions == [""] {
      assert seq(|versions|, i => "") == versions;
    } else if NoSlash(versions) {
      SplitJoin(versions, '/');
    } else {
      SplitJoinCount(versions, '/');
    }
  }

  lemma {:induction false} JoinSplit(s: string, c: char)
    ensures Join(Split(s, c), c) == s
  {
    if s != "" {
      JoinSplit(s[1..], c);
      var rest := Split(s[1..], c);
      if s[0] == c {
        assert ([[]] + rest)[1..] == rest;
      } else {
        var parts := [[s[0]] + rest[0]] + rest[1..];
        assert parts[1..] == rest[1..];
        assert |parts| > 1 ==> Join(parts, c) == [s[0]] + (rest[0] + [c] + Join(rest[1..], c));
      }
      assert [s[0]] + s[1..] == s;
    }
  }

  /** A version is accepted only if it has one part per source, and then the parts are its own, in order. */
  lemma WatchVersionsSound(n: nat, version: string)
    ensures match WatchVersions(n, version)
            case Ok(parts) => |parts| == n && (version != "" ==> Join(parts, '/') == version && NoSlash(parts))
            case Err => version != "" && |Split(version, '/')| != n
  {
    JoinSplit(version, '/');
  }

  // ---- what a merged list holds

  /** The number of items of the first `i` lists. */
  function Offset(lists: seq<Result<Listing>>, i: nat): nat
    requires AllOk(lists) && i <= |lists|
  {
    if i == 0 then 0 else Offset(lists, i - 1) + |lists[i - 1].value.items|
  }

  /** `items` are the items of all lists, each at the place its list and its place there give it, and no others. */
  predicate HoldsAll(lists: seq<Result<Listing>>, items: seq<Object>) {
    && AllOk(lists) && |items| == Offset(lists, |lists|)
    && forall i, k | 0 <= i < |lists| && 0 <= k < |lists[i].value.items| ::
         Offset(lists, i) + k < |items| && items[Offset(lists, i) + k] == lists[i].value.items[k]
  }

  /** Watching from the version of the merged list hands every source its own version back, or is refused. */
  predicate VersionsComeBack(lists: seq<Result<Listing>>, version: string) {
    && AllOk(lists)
    && match WatchVersions(|lists|, version)
       case Ok(vs) => |vs| == |lists| && forall i | 0 <= i < |lists| :: vs[i] == lists[i].value.version
       case Err => exists i :: 0 <= i < |lists| && '/' in lists[i].value.version
  }

  lemma {:induction false} OffsetPrefix(lists: seq<Result<Listing>>, n: nat, i: nat)
    requires AllOk(lists) && i <= n <= |lists|
    ensures Offset(lists[..n], i) == Offset(lists, i) <= Offset(lists, n)
  {
    if i > 0 {
      OffsetPrefix(lists, n, i - 1);
    }
    if i < n {
      OffsetPrefix(lists, n - 1, i);
    }
  }

  lemma ItemsSnoc(lists: seq<Result<Listing>>)
    requires AllOk(lists) && lists != []
    ensures Items(lists) == Items(lists[..|lists| - 1]) + lists[|lists| - 1].value.items
  {
  }

  lemma {:induction false} ItemsLength(lists: seq<Result<Listing>>)
    requires AllOk(lists)
    ensures |Items(lists)| == Offset(lists, |lists|)
    decreases |lists|
  {
    if lists != [] {
      var n := |lists| - 1;
      ItemsLength(lists[..n]);
      OffsetPrefix(lists, n, n);
      ItemsSnoc(lists);
    }
  }

  lemma {:induction false} ItemAt(lists: seq<Result<Listing>>, i: nat, k: nat)
    requires AllOk(lists) && i < |lists| && k < |lists[i].value.items|
    ensures Offset(lists, i) + k < |Items(lists)| && Items(lists)[Offset(lists, i) + k] == lists[i].value.items[k]
    decreases |lists|
  {
    var n := |lists| - 1;
    ItemsSnoc(lists);
    ItemsLength(lists[..n]);
    OffsetPrefix(lists, n, n);
    OffsetPrefix(lists, n, i);
    if i < n {
      ItemAt(lists[..n], i, k);
    }
  }

  lemma ItemsHoldAll(lists: seq<Result<Listing>>)
    requires AllOk(lists)
    ensures HoldsAll(lists, Items(lists))
  {
    ItemsLength(lists);
    forall i, k | 0 <= i < |lists| && 0 <= k < |lists[i].value.items|
      ensures Offset(lists, i) + k < |Items(lists)| && Items(lists)[Offset(lists, i) + k] == lists[i].value.items[k]
    {
      ItemAt(lists, i, k);
    }
  }

  lemma ListPromises(lists: seq<Result<Listing>>)
    requires AllOk(lists)
    ensures HoldsAll(lists, Items(lists)) && VersionsComeBack(lists, Join(Versions(lists), '/'))
  {
    ItemsHoldAll(lists);
    WatchFromListedVersions(Versions(lists));
    if i :| 0 <= i < |lists| && '/' in Versions(lists)[i] {
      assert '/' in lists[i].value.version;
    }
  }

  /** `multiListerWatcher.List`: items one after the other, versions joined by slashes, the first error wins. */
  method List(lists: seq<Result<Listing>>) returns (r: Result<Listing>)
    ensures r == if AllOk(lists) then Ok(Listing(Items(lists), Join(Versions(lists), '/'))) else Err
    ensures r.Ok? ==> HoldsAll(lists, r.value.items)
    ensures r.Ok? ==> VersionsComeBack(lists, r.value.version)
  {
    var items: seq<Object>, versions: seq<string> := [], [];
    var i := 0;
    while i < |lists|
      invariant 0 <= i <= |lists|
      invariant AllOk(lists[..i])
      invariant items == Items(lists[..i]) && versions == Versions(lists[..i])
    {
      if lists[i].Err? {
        return Err;
      }
      assert lists[..i + 1] == lists[..i] + [lists[i]];
      FlatMapSnoc(lists[..i], lists[i], (l: Result<Listing>) => if l.Ok? then l.value.items else []);
      items := items + lists[i].value.items;
      versions := versions + [lists[i].value.version];
      i := i + 1;
    }
    assert lists[..i] == lists;
    ListPromises(lists);
    r := Ok(Listing(items, Join(versions, '/')));
  }
}
