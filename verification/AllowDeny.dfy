/** pkg/allowdenylist: which metric names are exposed. Regular expressions are foreign and stay abstract. */
module AllowDeny {
  import opened Kube
  import opened Seqs

  /** `regexp.Compile` succeeds, and `MatchString`. */
  datatype Regexps = Regexps(compiles: string -> bool, matches: (string, string) -> bool)

  /** A list, the patterns compiled by the last successful Parse, and the mode. */
  datatype Lists = Lists(isAllow: bool, list: set<string>, parsed: set<string>)

  datatype Op = Include(items: seq<string>) | Exclude(items: seq<string>) | Parse

  function Elements(items: seq<string>): set<string> {
    set x | x in items
  }

  predicate AllCompile(re: Regexps, list: set<string>) {
    forall p | p in list :: re.compiles(p)
  }

  /** The list after an Include or Exclude; the two act in opposite directions in the two modes. */
  function Edited(isAllow: bool, list: set<string>, op: Op): set<string> {
    match op
    case Include(items) => if isAllow then list + Elements(items) else list - Elements(items)
    case Exclude(items) => if isAllow then list - Elements(items) else list + Elements(items)
    case Parse => list
  }

  function Apply(re: Regexps, l: Lists, op: Op): Lists {
    if op.Parse? then (if AllCompile(re, l.list) then l.(parsed := l.list) else l)
    else l.(list := Edited(l.isAllow, l.list, op))
  }

  predicate Matched(re: Regexps, patterns: set<string>, name: string) {
    exists p :: p in patterns && re.matches(p, name)
  }

  predicate Included(re: Regexps, l: Lists, name: string) {
    l.isAllow == Matched(re, l.parsed, name)
  }

  class AllowDenyList {
    const re: Regexps
    var list: set<string>
    var rList: seq<string>
    var isAllowList: bool

    ghost function View(): Lists
      reads this
    {
      Lists(isAllowList, list, Elements(rList))
    }

    constructor (re: Regexps, list: set<string>, isAllowList: bool)
      ensures View() == Lists(isAllowList, list, {}) && this.re == re
    {
      this.re, this.list, this.rList, this.isAllowList := re, list, [], isAllowList;
    }

    /** Compiles the patterns in the iteration order given; a pattern that does not compile leaves all as it was. */
    method Parse(order: seq<string>) returns (failed: bool)
      requires IsOrder(order, list)
      modifies this`rList
      ensures failed <==> exists p :: p in list && !re.compiles(p)
      ensures View() == Apply(re, old(View()), Op.Parse)
      ensures if failed then rList == old(rList) else forall p :: p in rList <==> p in list
    {
      var regexes: seq<string> := [];
      var i := 0;
      while i < |order|
        invariant 0 <= i <= |order|
        invariant regexes == order[..i]
        invariant forall k | 0 <= k < i :: re.compiles(order[k])
        invariant unchanged(this)
      {
        if !re.compiles(order[i]) {
          assert order[i] in list;
          return true;
        }
        regexes := regexes + [order[i]];
        i := i + 1;
      }
      rList := regexes;
      assert regexes == order;
      assert forall p | p in list :: p in order;
      failed := false;
    }

    method Include(items: seq<string>)
      modifies this`list
      ensures View() == Apply(re, old(View()), Op.Include(items))
      ensures forall p :: p in list <==>
                if isAllowList then p in old(list) || p in items else p in old(list) && p !in items
    {
      Edit(items, isAllowList);
    }

    method Exclude(items: seq<string>)
      modifies this`list
      ensures View() == Apply(re, old(View()), Op.Exclude(items))
      ensures forall p :: p in list <==>
                if isAllowList then p in old(list) && p !in items else p in old(list) || p in items
    {
      Edit(items, !isAllowList);
    }

    /** The two loops of Include and Exclude: set or delete every item. */
    method Edit(items: seq<string>, add: bool)
      modifies this`list
      ensures list == if add then old(list) + Elements(items) else old(list) - Elements(items)
    {
      var i := 0;
      while i < |items|
        invariant 0 <= i <= |items|
        invariant list == if add then old(list) + Elements(items[..i]) else old(list) - Elements(items[..i])
      {
        assert Elements(items[..i + 1]) == Elements(items[..i]) + {items[i]};
        list := if add then list + {items[i]} else list - {items[i]};
        i := i + 1;
      }
      assert items[..i] == items;
    }

    method IsIncluded(name: string) returns (included: bool)
      ensures included == Included(re, View(), name)
      ensures included <==> (isAllowList <==> exists k :: 0 <= k < |rList| && re.matches(rList[k], name))
    {
      var matched := false;
      var i := 0;
      while i < |rList| && !matched
        invariant 0 <= i <= |rList|
        invariant matched ==> Matched(re, Elements(rList), name)
        invariant !matched ==> forall k | 0 <= k < i :: !re.matches(rList[k], name)
      {
        matched := re.matches(rList[i], name);
        assert rList[i] in Elements(rList);
        i := i + 1;
      }
      if !matched {
        assert forall p | p in Elements(rList) :: exists k :: 0 <= k < |rList| && rList[k] == p;
      }
      included := if isAllowList then matched else !matched;
    }
  }

  /** `New`: allow and deny lists exclude each other, an empty allow list means denying. */
  method New(re: Regexps, allow: set<string>, deny: set<string>) returns (r: Result<AllowDenyList>)
    ensures r.Err? <==> allow != {} && deny != {}
    ensures r.Ok? ==> fresh(r.value) && r.value.re == re
    ensures r.Ok? ==> r.value.View() == Lists(allow != {}, if allow != {} then allow else deny, {})
  {
    if allow != {} && deny != {} {
      return Err;
    }
    var l := new AllowDenyList(re, if allow != {} then allow else deny, allow != {});
    r := Ok(l);
  }

  // ---- whole histories

  function ApplyAll(re: Regexps, l: Lists, ops: seq<Op>): Lists {
    if ops == [] then l else Apply(re, ApplyAll(re, l, ops[..|ops| - 1]), ops[|ops| - 1])
  }

  /** The list as it stands after the edits among the operations; Parse does not touch it. */
  function ListAfter(isAllow: bool, list: set<string>, ops: seq<Op>): set<string> {
    if ops == [] then list else Edited(isAllow, ListAfter(isAllow, list, ops[..|ops| - 1]), ops[|ops| - 1])
  }

  /** The position of the last Parse that succeeds, looking backwards. */
  function LastGoodParse(re: Regexps, isAllow: bool, list: set<string>, ops: seq<Op>): Option<nat> {
    if ops == [] then None
    else
      var n := |ops| - 1;
      if ops[n].Parse? && AllCompile(re, ListAfter(isAllow, list, ops[..n])) then Some(n)
      else LastGoodParse(re, isAllow, list, ops[..n])
  }

  /** The patterns that answer after the operations: the list as of the last good Parse, or none before any. */
  function Answering(re: Regexps, isAllow: bool, list: set<string>, ops: seq<Op>): set<string> {
    match LastGoodParse(re, isAllow, list, ops)
    case None => {}
    case Some(n) => if n <= |ops| then ListAfter(isAllow, list, ops[..n]) else {}
  }

  lemma {:induction false} LastGoodParseBounded(re: Regexps, isAllow: bool, list: set<string>, ops: seq<Op>)
    ensures LastGoodParse(re, isAllow, list, ops).Some? ==> LastGoodParse(re, isAllow, list, ops).value < |ops|
    decreases |ops|
  {
    if ops != [] {
      LastGoodParseBounded(re, isAllow, list, ops[..|ops| - 1]);
    }
  }

  /** Over every history, `IsIncluded` answers for the list as of the last successful Parse. */
  lemma {:induction false} AnswersForLastParse(re: Regexps, isAllow: bool, list: set<string>, ops: seq<Op>,
                                               name: string)
    ensures ApplyAll(re, Lists(isAllow, list, {}), ops)
         == Lists(isAllow, ListAfter(isAllow, list, ops), Answering(re, isAllow, list, ops))
    ensures Included(re, ApplyAll(re, Lists(isAllow, list, {}), ops), name)
       <==> isAllow == Matched(re, Answering(re, isAllow, list, ops), name)
    decreases |ops|
  {
    if ops != [] {
      var n := |ops| - 1;
      AnswersForLastParse(re, isAllow, list, ops[..n], name);
      LastGoodParseBounded(re, isAllow, list, ops[..n]);
      var last := LastGoodParse(re, isAllow, list, ops[..n]);
      assert last.Some? ==> ops[..n][..last.value] == ops[..last.value];
    }
  }

  /** After a good Parse, a pattern included when allowing shows its names; one excluded when denying hides them. */
  lemma EditsTakeEffect(re: Regexps, l: Lists, items: seq<string>, p: string, name: string)
    requires p in items && re.matches(p, name)
    ensures var after := Apply(re, l, Include(items));
            l.isAllow && AllCompile(re, after.list) ==> Included(re, Apply(re, after, Parse), name)
    ensures var after := Apply(re, l, Exclude(items));
            !l.isAllow && AllCompile(re, after.list) ==> !Included(re, Apply(re, after, Parse), name)
  {
    assert p in Elements(items);
  }

  /** Including when denying undoes excluding, and excluding when allowing undoes including. */
  lemma EditsUndo(re: Regexps, l: Lists, items: seq<string>)
    requires l.list !! Elements(items)
    ensures l.isAllow ==> Apply(re, Apply(re, l, Include(items)), Exclude(items)) == l
    ensures !l.isAllow ==> Apply(re, Apply(re, l, Exclude(items)), Include(items)) == l
  {
    assert l.list + Elements(items) - Elements(items) == l.list;
  }

  /** Including (or excluding) and then parsing never takes a name the other way, in either mode. */
  lemma EditsActOneWay(re: Regexps, l: Lists, items: seq<string>, name: string)
    requires l.parsed == l.list
    ensures var after := Apply(re, Apply(re, l, Include(items)), Parse);
            Included(re, l, name) ==> Included(re, after, name)
    ensures var after := Apply(re, Apply(re, l, Exclude(items)), Parse);
            Included(re, after, name) ==> Included(re, l, name)
  {
    var grown, shrunk := l.list + Elements(items), l.list - Elements(items);
    assert Matched(re, l.list, name) ==> Matched(re, grown, name);
    assert Matched(re, shrunk, name) ==> Matched(re, l.list, name);
  }
}
