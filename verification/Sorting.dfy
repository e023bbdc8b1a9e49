/** The byte-wise order of `sort.Strings`, and sorting by it. */
module Sorting {

  /** Strictly before in lexicographic order. */
  predicate Less(a: string, b: string) {
    b != "" && (a == "" || a[0] < b[0] || (a[0] == b[0] && Less(a[1..], b[1..])))
  }

  predicate LessEq(a: string, b: string) {
    a == b || Less(a, b)
  }

  lemma {:induction false} LessTotal(a: string, b: string)
    ensures Less(a, b) || Less(b, a) || a == b
    ensures !(Less(a, b) && (Less(b, a) || a == b))
  {
    if a != "" && b != "" && a[0] == b[0] {
      LessTotal(a[1..], b[1..]);
      assert a == [a[0]] + a[1..] && b == [b[0]] + b[1..];
    }
  }

  lemma {:induction false} LessTransitive(a: string, b: string, c: string)
    requires Less(a, b) && Less(b, c)
    ensures Less(a, c)
  {
    if a != "" && a[0] == b[0] == c[0] {
      LessTransitive(a[1..], b[1..], c[1..]);
    }
  }

  /** `x` comes before, or equals, every element. */
  predicate Below(x: string, s: seq<string>) {
    forall y | y in s :: LessEq(x, y)
  }

  predicate Sorted(s: seq<string>) {
    s == [] || (Below(s[0], s[1..]) && Sorted(s[1..]))
  }

  function Insert(x: string, s: seq<string>): seq<string> {
    if s == [] || LessEq(x, s[0]) then [x] + s else [s[0]] + Insert(x, s[1..])
  }

  /** Go's `sort.Strings`. */
  function Sort(s: seq<string>): seq<string> {
    if s == [] then [] else Insert(s[0], Sort(s[1..]))
  }

  lemma {:induction false} InsertElements(x: string, s: seq<string>)
    ensures multiset(Insert(x, s)) == multiset{x} + multiset(s)
  {
    if s != [] {
      assert s == [s[0]] + s[1..];
      InsertElements(x, s[1..]);
    }
  }

  lemma BelowAll(x: string, y: string, s: seq<string>)
    requires LessEq(x, y) && Below(y, s)
    ensures Below(x, s)
  {
    forall z | z in s ensures LessEq(x, z) {
      if Less(x, y) && Less(y, z) {
        LessTransitive(x, y, z);
      }
    }
  }

  lemma {:induction false} InsertSorted(x: string, s: seq<string>)
    requires Sorted(s)
    ensures Sorted(Insert(x, s))
  {
    if s != [] {
      var r := Insert(x, s[1..]);
      if LessEq(x, s[0]) {
        BelowAll(x, s[0], s[1..]);
        assert ([x] + s)[1..] == s;
      } else {
        InsertSorted(x, s[1..]);
        InsertElements(x, s[1..]);
        LessTotal(x, s[0]);
        forall y | y in r ensures LessEq(s[0], y) {
          assert y in multiset(r);
        }
        assert ([s[0]] + r)[1..] == r;
      }
    } else {
      assert [x][1..] == [];
    }
  }

  lemma {:induction false} SortSorts(s: seq<string>)
    ensures Sorted(Sort(s)) && multiset(Sort(s)) == multiset(s) && |Sort(s)| == |s|
  {
    if s != [] {
      assert s == [s[0]] + s[1..];
      SortSorts(s[1..]);
      InsertSorted(s[0], Sort(s[1..]));
      InsertElements(s[0], Sort(s[1..]));
      assert |multiset(Sort(s))| == |Sort(s)| && |multiset(s)| == |s|;
    }
  }

  lemma SameHead(a: seq<string>, b: seq<string>)
    requires Sorted(a) && Sorted(b) && multiset(a) == multiset(b) && a != [] && b != []
    ensures a[0] == b[0]
  {
    assert a[0] in multiset(b) && b[0] in multiset(a);
    assert LessEq(b[0], a[0]) && LessEq(a[0], b[0]);
    LessTotal(a[0], b[0]);
  }

  lemma TailElements(s: seq<string>)
    requires s != []
    ensures multiset(s[1..]) == multiset(s) - multiset{s[0]}
  {
    assert s == [s[0]] + s[1..];
  }

  /** A sorted sequence is determined by its elements: sorting forgets the order it started from. */
  lemma {:induction false} SortedUnique(a: seq<string>, b: seq<string>)
    requires Sorted(a) && Sorted(b) && multiset(a) == multiset(b)
    ensures a == b
  {
    assert |multiset(a)| == |a| && |multiset(b)| == |b|;
    if a != [] {
      SameHead(a, b);
      TailElements(a);
      TailElements(b);
      SortedUnique(a[1..], b[1..]);
      assert a == [a[0]] + a[1..];
    }
  }

  /** The first difference decides, and a proper prefix comes first. */
  predicate DiffersAt(a: string, b: string, k: nat) {
    k <= |a| && k < |b| && a[..k] == b[..k] && (k == |a| || a[k] < b[k])
  }

  lemma DiffersHead(a: string, b: string, k: nat)
    requires DiffersAt(a, b, k)
    ensures b != "" && (a == "" || a[0] < b[0] || (k > 0 && a[0] == b[0]))
  {
    if k > 0 {
      assert a[0] == a[..k][0] && b[0] == b[..k][0];
    }
  }

  lemma {:induction false} LessIff(a: string, b: string)
    ensures Less(a, b) <==> exists k: nat :: DiffersAt(a, b, k)
  {
    if a == "" || b == "" || a[0] != b[0] {
      if b != "" && (a == "" || a[0] < b[0]) {
        assert DiffersAt(a, b, 0);
      }
      if k: nat :| DiffersAt(a, b, k) {
        DiffersHead(a, b, k);
      }
    } else {
      LessIff(a[1..], b[1..]);
      if k: nat :| DiffersAt(a[1..], b[1..], k) {
        assert a[..k + 1] == [a[0]] + a[1..][..k] && b[..k + 1] == [b[0]] + b[1..][..k];
        assert DiffersAt(a, b, k + 1);
      }
      if k: nat :| DiffersAt(a, b, k) {
        DiffersHead(a, b, k);
        assert a[1..][..k - 1] == a[..k][1..] && b[1..][..k - 1] == b[..k][1..];
        assert DiffersAt(a[1..], b[1..], k - 1);
      }
    }
  }

  /** A sorted sequence ascends. */
  lemma {:induction false} SortedAscends(s: seq<string>, i: nat, j: nat)
    requires Sorted(s) && i < j < |s|
    ensures LessEq(s[i], s[j])
  {
    if i == 0 {
      assert s[j] == s[1..][j - 1];
    } else {
      SortedAscends(s[1..], i - 1, j - 1);
    }
  }
}
