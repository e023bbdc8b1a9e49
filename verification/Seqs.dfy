/** Filtering sequences, and sums over sets that do not depend on the order of summation. */
module Seqs {

  lemma HeadFirst<T>(a: seq<T>, b: seq<T>)
    requires a != []
    ensures a + b == [a[0]] + (a[1..] + b)
    ensures a == [a[0]] + a[1..]
  {
  }

  lemma TailFirst<T>(a: seq<T>, b: seq<T>)
    requires a != []
    ensures (a + b)[0] == a[0] && (a + b)[1..] == a[1..] + b
  {
  }

  lemma Assoc<T>(a: seq<T>, b: seq<T>, c: seq<T>)
    ensures (a + b) + c == a + (b + c)
  {
  }

  /** The elements that satisfy `p`, in order. */
  function Filter<T>(s: seq<T>, p: T -> bool): (r: seq<T>)
    ensures |r| <= |s|
  {
    if s == [] then []
    else if p(s[0]) then [s[0]] + Filter(s[1..], p)
    else Filter(s[1..], p)
  }

  lemma {:induction false} FilterMembers<T>(s: seq<T>, p: T -> bool)
    ensures forall x | x in Filter(s, p) :: x in s && p(x)
    ensures forall x | x in s :: p(x) ==> x in Filter(s, p)
  {
    if s != [] {
      FilterMembers(s[1..], p);
    }
  }

  /** The positions where `p` holds. */
  function Positions<T>(s: seq<T>, p: T -> bool): (at: seq<nat>)
    ensures forall k | 0 <= k < |at| :: at[k] < |s| && p(s[at[k]])
  {
    if s == [] then []
    else
      var n := |s| - 1;
      Positions(s[..n], p) + (if p(s[n]) then [n] else [])
  }

  lemma {:induction false} PositionsIncrease<T>(s: seq<T>, p: T -> bool, k: nat, l: nat)
    requires k < l < |Positions(s, p)|
    ensures Positions(s, p)[k] < Positions(s, p)[l]
    decreases |s|
  {
    var n := |s| - 1;
    var before := Positions(s[..n], p);
    if l < |before| {
      PositionsIncrease(s[..n], p, k, l);
    } else {
      assert before[k] < |s[..n]|;
    }
  }

  lemma {:induction false} PositionsComplete<T>(s: seq<T>, p: T -> bool, i: nat)
    requires i < |s| && p(s[i])
    ensures i in Positions(s, p)
    decreases |s|
  {
    if i < |s| - 1 {
      PositionsComplete(s[..|s| - 1], p, i);
    }
  }

  /** What filtering means: the elements at the increasing positions where `p` holds, and at no others. */
  lemma {:induction false} FilterIsPositions<T>(s: seq<T>, p: T -> bool)
    ensures var at := Positions(s, p);
            |Filter(s, p)| == |at| && forall k | 0 <= k < |at| :: Filter(s, p)[k] == s[at[k]]
    decreases |s|
  {
    if s != [] {
      var n := |s| - 1;
      FilterIsPositions(s[..n], p);
      assert s[..n + 1] == s;
      FilterSnoc(s, n, p);
    }
  }

  lemma {:induction false} FilterAll<T>(s: seq<T>, p: T -> bool)
    requires forall i | 0 <= i < |s| :: p(s[i])
    ensures Filter(s, p) == s
  {
    if s != [] {
      FilterAll(s[1..], p);
    }
  }

  lemma {:induction false} FilterNone<T>(s: seq<T>, p: T -> bool)
    requires forall i | 0 <= i < |s| :: !p(s[i])
    ensures Filter(s, p) == []
  {
    if s != [] {
      FilterNone(s[1..], p);
    }
  }

  lemma {:induction false} FilterAppend<T>(a: seq<T>, b: seq<T>, p: T -> bool)
    ensures Filter(a + b, p) == Filter(a, p) + Filter(b, p)
  {
    if a == [] {
      assert a + b == b;
    } else {
      FilterAppend(a[1..], b, p);
      TailFirst(a, b);
    }
  }

  lemma FilterSnoc<T>(s: seq<T>, i: nat, p: T -> bool)
    requires i < |s|
    ensures Filter(s[..i + 1], p) == if p(s[i]) then Filter(s[..i], p) + [s[i]] else Filter(s[..i], p)
  {
    assert s[..i + 1] == s[..i] + [s[i]];
    FilterAppend(s[..i], [s[i]], p);
    assert Filter([s[i]], p) == if p(s[i]) then [s[i]] else [];
  }

  /** Each element replaced by a sequence. */
  function FlatMap<T, U>(s: seq<T>, f: T -> seq<U>): seq<U> {
    if s == [] then [] else FlatMap(s[..|s| - 1], f) + f(s[|s| - 1])
  }

  lemma FlatMapSnoc<T, U>(s: seq<T>, x: T, f: T -> seq<U>)
    ensures FlatMap(s + [x], f) == FlatMap(s, f) + f(x)
  {
  }

  /** `order` lists every element of `s` exactly once: one possible iteration order of a Go map. */
  ghost predicate IsOrder<T(!new)>(order: seq<T>, s: set<T>) {
    && (forall x :: x in order <==> x in s)
    && (forall i, j | 0 <= i < j < |order| :: order[i] != order[j])
  }

  /** The multiset sum of `f` over a set. */
  ghost function Sum<T, U>(s: set<T>, f: T -> multiset<U>): multiset<U> {
    if s == {} then multiset{}
    else
      var x :| x in s;
      f(x) + Sum(s - {x}, f)
  }

  lemma {:induction false} SumTake<T, U>(s: set<T>, f: T -> multiset<U>, x: T)
    requires x in s
    ensures Sum(s, f) == f(x) + Sum(s - {x}, f)
  {
    var y :| y in s && Sum(s, f) == f(y) + Sum(s - {y}, f);
    if y != x {
      SumTake(s - {y}, f, x);
      SumTake(s - {x}, f, y);
      assert s - {y} - {x} == s - {x} - {y};
    }
  }

  lemma {:induction false} SumDisjoint<T, U>(a: set<T>, b: set<T>, f: T -> multiset<U>)
    requires a !! b
    ensures Sum(a + b, f) == Sum(a, f) + Sum(b, f)
  {
    if a == {} {
      assert a + b == b;
    } else {
      var x :| x in a;
      SumTake(a, f, x);
      SumTake(a + b, f, x);
      assert a + b - {x} == (a - {x}) + b;
      SumDisjoint(a - {x}, b, f);
    }
  }

  lemma {:induction false} SumSame<T, U>(s: set<T>, f: T -> multiset<U>, g: T -> multiset<U>)
    requires forall x | x in s :: f(x) == g(x)
    ensures Sum(s, f) == Sum(s, g)
  {
    if s != {} {
      var x :| x in s;
      SumTake(s, f, x);
      SumTake(s, g, x);
      SumSame(s - {x}, f, g);
    }
  }

  lemma {:induction false} SumPlus<T, U>(s: set<T>, f: T -> multiset<U>, g: T -> multiset<U>, h: T -> multiset<U>)
    requires forall x | x in s :: h(x) == f(x) + g(x)
    ensures Sum(s, h) == Sum(s, f) + Sum(s, g)
  {
    if s != {} {
      var x :| x in s;
      SumTake(s, f, x);
      SumTake(s, g, x);
      SumTake(s, h, x);
      SumPlus(s - {x}, f, g, h);
    }
  }

  lemma {:induction false} SumZero<T, U>(s: set<T>, f: T -> multiset<U>)
    requires forall x | x in s :: f(x) == multiset{}
    ensures Sum(s, f) == multiset{}
  {
    if s != {} {
      var x :| x in s;
      SumTake(s, f, x);
      SumZero(s - {x}, f);
    }
  }

  /** The sum of the first `n` terms. */
  ghost function SumTo<U>(f: nat -> multiset<U>, n: nat): multiset<U> {
    if n == 0 then multiset{} else SumTo(f, n - 1) + f(n - 1)
  }

  lemma {:induction false} Telescope<U>(f: nat -> multiset<U>, g: nat -> multiset<U>, n: nat)
    requires g(0) == multiset{}
    requires forall k: nat | k < n :: g(k) + f(k) == g(k + 1)
    ensures SumTo(f, n) == g(n)
  {
    if n > 0 {
      Telescope(f, g, n - 1);
      assert g(n - 1) + f(n - 1) == g(n - 1 + 1);
    }
  }

  lemma OrderTail<T(!new)>(order: seq<T>, s: set<T>)
    requires IsOrder(order, s) && order != []
    ensures order[0] in s && IsOrder(order[1..], s - {order[0]})
  {
    var t := order[1..];
    forall x ensures x in t <==> x in s - {order[0]} {
      if x in t {
        var i :| 0 <= i < |t| && t[i] == x;
        assert order[i + 1] == x;
      }
      if x in s - {order[0]} {
        assert x in order;
        var i :| 0 <= i < |order| && order[i] == x;
        assert t[i - 1] == x;
      }
    }
  }
}
