/** pkg/options/types.go: comma-separated flag values, set and printed. */
module Flags {
  import opened Seqs
  import opened Text
  import opened Sorting

  /** `unicode.IsSpace`. */
  predicate IsSpace(c: char) {
    c in {'\t', '\n', '\U{B}', '\U{C}', '\r', ' ', '\U{85}', '\U{A0}', '\U{1680}', '\U{2028}', '\U{2029}', '\U{202F}',
          '\U{205F}', '\U{3000}'}
    || '\U{2000}' <= c <= '\U{200A}'
  }

  function TrimLeft(s: string): string {
    if s != "" && IsSpace(s[0]) then TrimLeft(s[1..]) else s
  }

  function TrimRight(s: string): string {
    if s != "" && IsSpace(s[|s| - 1]) then TrimRight(s[..|s| - 1]) else s
  }

  /** Go's `strings.TrimSpace`. */
  function TrimSpace(s: string): string {
    TrimRight(TrimLeft(s))
  }

  /** Neither empty, nor bounded by spaces, nor holding a comma: what a Set call stores. */
  predicate Canonical(s: string) {
    s != "" && !IsSpace(s[0]) && !IsSpace(s[|s| - 1]) && ',' !in s
  }

  predicate AllCanonical(items: seq<string>) {
    forall i | 0 <= i < |items| :: Canonical(items[i])
  }

  lemma {:induction false} TrimLeftShape(s: string)
    ensures TrimLeft(s) == "" || !IsSpace(TrimLeft(s)[0])
    ensures ',' !in s ==> ',' !in TrimLeft(s)
  {
    if s != "" && IsSpace(s[0]) {
      TrimLeftShape(s[1..]);
    }
  }

  lemma {:induction false} TrimRightShape(s: string)
    ensures TrimRight(s) <= s
    ensures TrimRight(s) == "" || !IsSpace(TrimRight(s)[|TrimRight(s)| - 1])
  {
    if s != "" && IsSpace(s[|s| - 1]) {
      TrimRightShape(s[..|s| - 1]);
    }
  }

  predicate AllSpaces(s: string) {
    forall i | 0 <= i < |s| :: IsSpace(s[i])
  }

  /** The space characters of Unicode, by their code points. */
  lemma SpacesAre(c: char)
    ensures IsSpace(c) <==>
              || 9 <= c as int <= 13 || 0x2000 <= c as int <= 0x200A
              || c as int in {32, 0x85, 0xA0, 0x1680, 0x2028, 0x2029, 0x202F, 0x205F, 0x3000}
  {
  }

  lemma {:induction false} TrimLeftPadded(a: string, s: string)
    requires AllSpaces(a) && (s == "" || !IsSpace(s[0]))
    ensures TrimLeft(a + s) == s
  {
    if a == "" {
      assert a + s == s;
    } else {
      TrimLeftPadded(a[1..], s);
      TailFirst(a, s);
    }
  }

  lemma {:induction false} TrimRightPadded(s: string, b: string)
    requires AllSpaces(b) && (s == "" || !IsSpace(s[|s| - 1]))
    ensures TrimRight(s + b) == s
    decreases |b|
  {
    if b == "" {
      assert s + b == s;
    } else {
      TrimRightPadded(s, b[..|b| - 1]);
      assert (s + b)[..|s + b| - 1] == s + b[..|b| - 1];
    }
  }

  /** Trimming takes off the padding, all of it, and nothing else. */
  lemma TrimPadded(a: string, s: string, b: string)
    requires AllSpaces(a) && AllSpaces(b)
    requires s == "" || (!IsSpace(s[0]) && !IsSpace(s[|s| - 1]))
    ensures TrimSpace(a + s + b) == s
  {
    if s == "" {
      assert a + s + b == (a + b) + "";
      TrimLeftPadded(a + b, "");
    } else {
      Assoc(a, s, b);
      TrimLeftPadded(a, s + b);
      TrimRightPadded(s, b);
    }
  }

  /** The items of a value are its parts without their padding; parts that are all padding count for nothing. */
  lemma {:induction false} CleanPadded(before: seq<string>, items: seq<string>, after: seq<string>, parts: seq<string>)
    requires |before| == |items| == |after| == |parts|
    requires forall i | 0 <= i < |parts| ::
      && AllSpaces(before[i]) && AllSpaces(after[i]) && parts[i] == before[i] + items[i] + after[i]
      && (items[i] == "" || (!IsSpace(items[i][0]) && !IsSpace(items[i][|items[i]| - 1])))
    ensures Clean(parts) == Filter(items, NonEmpty)
    decreases |parts|
  {
    if parts != [] {
      var n := |parts| - 1;
      CleanPadded(before[..n], items[..n], after[..n], parts[..n]);
      TrimPadded(before[n], items[n], after[n]);
      FilterSnoc(items, n, NonEmpty);
      assert items[..n + 1] == items;
    }
  }

  predicate NonEmpty(s: string) {
    s != ""
  }

  lemma TrimmedIsCanonical(s: string)
    requires ',' !in s
    ensures TrimSpace(s) == "" || Canonical(TrimSpace(s))
  {
    TrimLeftShape(s);
    TrimRightShape(TrimLeft(s));
  }

  /** The items of comma-separated parts: trimmed, empty ones left out. */
  function Clean(parts: seq<string>): seq<string> {
    if parts == [] then []
    else
      var item := TrimSpace(parts[|parts| - 1]);
      Clean(parts[..|parts| - 1]) + (if item != "" then [item] else [])
  }

  function Items(value: string): seq<string> {
    Clean(Split(value, ','))
  }

  lemma CleanSnoc(parts: seq<string>, i: nat)
    requires i < |parts|
    ensures Clean(parts[..i + 1])
         == Clean(parts[..i]) + (if TrimSpace(parts[i]) != "" then [TrimSpace(parts[i])] else [])
  {
    assert parts[..i + 1][..i] == parts[..i];
  }

  /** The loop that the three Set methods share. */
  method ParseItems(value: string) returns (items: seq<string>)
    ensures items == Items(value)
  {
    var parts := Split(value, ',');
    items := [];
    var i := 0;
    while i < |parts|
      invariant 0 <= i <= |parts|
      invariant items == Clean(parts[..i])
    {
      CleanSnoc(parts, i);
      var item := TrimSpace(parts[i]);
      if |item| != 0 {
        items := items + [item];
      }
      i := i + 1;
    }
    assert parts[..i] == parts;
  }

  // ---- splitting and printing undo each other

  lemma {:induction false} CleanAppend(a: seq<string>, b: seq<string>)
    ensures Clean(a + b) == Clean(a) + Clean(b)
    decreases |b|
  {
    if b == [] {
      assert a + b == a;
    } else {
      CleanAppend(a, b[..|b| - 1]);
      assert (a + b)[..|a + b| - 1] == a + b[..|b| - 1];
    }
  }

  /** Two Set calls in a row are one Set call with both values, joined by a comma. */
  lemma SetTwiceIsSetJoined(a: string, b: string)
    ensures Items(a + "," + b) == Items(a) + Items(b)
  {
    SplitAt(a, b, ',');
    CleanAppend(Split(a, ','), Split(b, ','));
  }

  lemma {:induction false} CleanIsCanonical(parts: seq<string>)
    requires forall i | 0 <= i < |parts| :: ',' !in parts[i]
    ensures AllCanonical(Clean(parts))
    decreases |parts|
  {
    if parts != [] {
      CleanIsCanonical(parts[..|parts| - 1]);
      TrimmedIsCanonical(parts[|parts| - 1]);
    }
  }

  lemma {:induction false} CleanCanonical(items: seq<string>)
    requires AllCanonical(items)
    ensures Clean(items) == items
    decreases |items|
  {
    if items != [] {
      CleanCanonical(items[..|items| - 1]);
    }
  }

  /** Printing canonical items and setting the result gives the items back, in order and with repetitions. */
  lemma PrintThenSet(items: seq<string>)
    requires AllCanonical(items)
    ensures Items(Join(items, ',')) == items
  {
    if items == [] {
      CleanSnoc([""], 0);
      assert [""][..1] == [""] && [""][..0] == [];
    } else {
      SplitJoin(items, ',');
      CleanCanonical(items);
    }
  }

  /** What any sequence of Set calls stores in a namespace list. */
  function SetAll(values: seq<string>): seq<string> {
    if values == [] then [] else SetAll(values[..|values| - 1]) + Items(values[|values| - 1])
  }

  lemma {:induction false} SetAllCanonical(values: seq<string>)
    ensures AllCanonical(SetAll(values))
    decreases |values|
  {
    if values != [] {
      SetAllCanonical(values[..|values| - 1]);
      CleanIsCanonical(Split(values[|values| - 1], ','));
    }
  }

  /** After any Set calls, printing a namespace list and setting an empty one from it rebuilds it exactly. */
  lemma NamespacesRoundTrip(values: seq<string>)
    ensures Items(Join(SetAll(values), ',')) == SetAll(values)
  {
    SetAllCanonical(values);
    PrintThenSet(SetAll(values));
  }

  lemma SortKeepsElements(items: seq<string>, x: string)
    ensures x in Sort(items) <==> x in items
  {
    SortSorts(items);
    assert x in Sort(items) <==> x in multiset(Sort(items));
  }

  lemma SortedCanonical(items: seq<string>)
    requires AllCanonical(items)
    ensures AllCanonical(Sort(items))
  {
    forall i | 0 <= i < |Sort(items)| ensures Canonical(Sort(items)[i]) {
      SortKeepsElements(items, Sort(items)[i]);
    }
  }

  lemma OrderCanonical(order: seq<string>, items: seq<string>)
    requires AllCanonical(items) && IsOrder(order, set x | x in items)
    ensures AllCanonical(order)
  {
    forall i | 0 <= i < |order| ensures Canonical(order[i]) {
      assert order[i] in order;
    }
  }

  /** Whatever order a set was iterated in, its text is the same. */
  lemma TextForgetsOrder(order: seq<string>, order': seq<string>, elements: set<string>)
    requires IsOrder(order, elements) && IsOrder(order', elements)
    ensures Sort(order) == Sort(order')
  {
    SortSorts(order);
    SortSorts(order');
    OrdersAgree(order, order');
    SortedUnique(Sort(order), Sort(order'));
  }

  /** After any Set calls, printing a set, in whatever order it is iterated, and setting an empty one rebuilds it. */
  lemma SetsRoundTrip(values: seq<string>, order: seq<string>)
    requires IsOrder(order, set x | x in SetAll(values))
    ensures (set x | x in Items(Join(Sort(order), ','))) == (set x | x in SetAll(values))
  {
    SetAllCanonical(values);
    OrderCanonical(order, SetAll(values));
    SortedCanonical(order);
    PrintThenSet(Sort(order));
    forall x ensures x in Sort(order) <==> x in SetAll(values) {
      SortKeepsElements(order, x);
    }
  }

  lemma {:induction false} DistinctCount(s: seq<string>, x: string)
    requires forall i, j | 0 <= i < j < |s| :: s[i] != s[j]
    ensures multiset(s)[x] == if x in s then 1 else 0
  {
    if s != [] {
      DistinctCount(s[1..], x);
      assert s == [s[0]] + s[1..];
    }
  }

  lemma OrdersAgree(a: seq<string>, b: seq<string>)
    requires (forall x :: x in a <==> x in b)
    requires forall i, j | 0 <= i < j < |a| :: a[i] != a[j]
    requires forall i, j | 0 <= i < j < |b| :: b[i] != b[j]
    ensures multiset(a) == multiset(b)
  {
    forall x ensures multiset(a)[x] == multiset(b)[x] {
      DistinctCount(a, x);
      DistinctCount(b, x);
    }
  }

  // ---- the flag types

  /** The items of the value, and what reading them back from their text needs. */
  class NamespaceList {
    var list: seq<string>

    ghost predicate Valid()
      reads this
    {
      AllCanonical(list)
    }

    constructor ()
      ensures Valid() && list == []
    {
      list := [];
    }

    method Set(value: string)
      requires Valid()
      modifies this
      ensures Valid() && list == old(list) + Items(value)
    {
      var items := ParseItems(value);
      CleanIsCanonical(Split(value, ','));
      list := list + items;
    }

    /** Setting an empty list from the text gives this list, in order and with repetitions. */
    method String() returns (s: string)
      requires Valid()
      ensures Items(s) == list
    {
      s := Join(list, ',');
      PrintThenSet(list);
    }
  }

  /** `MetricSet` and `ResourceSet`, which differ in name only. */
  class StringSet {
    var elements: set<string>

    ghost predicate Valid()
      reads this
    {
      forall x | x in elements :: Canonical(x)
    }

    constructor ()
      ensures Valid() && elements == {}
    {
      elements := {};
    }

    method Set(value: string)
      requires Valid()
      modifies this
      ensures Valid() && elements == old(elements) + (set x | x in Items(value))
    {
      var items := ParseItems(value);
      CleanIsCanonical(Split(value, ','));
      elements := elements + (set x | x in items);
    }

    /**
     Collects the elements in the iteration order given, sorts them, and joins them. Setting an empty set from the text
     gives this set, and the text lists each element once, in order.
     */
    method String(order: seq<string>) returns (s: string)
      requires Valid() && IsOrder(order, elements)
      ensures (set x | x in Items(s)) == elements
      ensures Sorted(Items(s)) && |Items(s)| == |order|
    {
      s := Join(Sort(order), ',');
      forall i | 0 <= i < |order| ensures Canonical(order[i]) {
        assert order[i] in order;
      }
      SortedCanonical(order);
      PrintThenSet(Sort(order));
      SortSorts(order);
      forall x ensures x in Sort(order) <==> x in elements {
        SortKeepsElements(order, x);
      }
    }
  }
}
