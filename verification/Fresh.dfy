/** UIDs and names that a run does not mention. */
module Fresh {
  import opened Kube
  import opened StoreSpec
  import opened Reflector

  predicate Mentions(input: Input, u: Uid) {
    match input
    case Listed(items) => exists i :: 0 <= i < |items| && About(items[i], u)
    case ListFailed => false
    case Watched(event) => About(event.obj, u)
  }

  /** The lengths of all UIDs mentioned are below `bound`. */
  predicate Shorter(input: Input, bound: nat) {
    match input
    case Listed(items) => forall i | 0 <= i < |items| && items[i].HasMeta() :: |items[i].uid| < bound
    case ListFailed => true
    case Watched(event) => event.obj.HasMeta() ==> |event.obj.uid| < bound
  }

  lemma {:induction false} ItemBound(items: seq<Object>) returns (bound: nat)
    ensures Shorter(Listed(items), bound)
  {
    bound := 0;
    if items != [] {
      bound := ItemBound(items[1..]);
      assert forall i | 0 < i < |items| :: items[i] == items[1..][i - 1];
      if items[0].HasMeta() && |items[0].uid| >= bound {
        bound := |items[0].uid| + 1;
      }
    }
  }

  lemma InputBound(input: Input) returns (bound: nat)
    ensures Shorter(input, bound)
  {
    match input
    case Listed(items) => bound := ItemBound(items);
    case ListFailed => bound := 0;
    case Watched(event) => bound := if event.obj.HasMeta() then |event.obj.uid| + 1 else 0;
  }

  lemma {:induction false} RunBound(inputs: seq<Input>) returns (bound: nat)
    ensures forall i | 0 <= i < |inputs| :: Shorter(inputs[i], bound)
  {
    bound := 0;
    if inputs != [] {
      var first := InputBound(inputs[0]);
      var rest := RunBound(inputs[1..]);
      bound := if first > rest then first else rest;
      forall i | 0 <= i < |inputs| ensures Shorter(inputs[i], bound) {
        assert i > 0 ==> inputs[i] == inputs[1..][i - 1];
      }
    }
  }

  lemma FreshUid(inputs: seq<Input>) returns (u: Uid)
    ensures forall i | 0 <= i < |inputs| :: !Mentions(inputs[i], u)
  {
    var bound := RunBound(inputs);
    u := seq(bound, i => 'u');
    forall i | 0 <= i < |inputs| ensures !Mentions(inputs[i], u) {
      assert Shorter(inputs[i], bound);
    }
  }

  lemma {:induction false} LastOfNone(list: seq<Object>, u: Uid)
    requires forall i | 0 <= i < |list| :: !About(list[i], u)
    ensures LastOf(list, u) == None
    decreases |list|
  {
    if list != [] {
      LastOfNone(list[..|list| - 1], u);
    }
  }

  lemma NotListed(items: seq<Object>, u: Uid)
    requires !Mentions(Listed(items), u)
    ensures u !in InsertAll(Self, map[], items)
  {
    InsertAllPrefix(Self, map[], items);
    InsertAllLast(Self, MetaPrefix(items), u);
    forall i | 0 <= i < |MetaPrefix(items)| ensures !About(MetaPrefix(items)[i], u) {
      assert MetaPrefix(items)[i] == items[i];
    }
    LastOfNone(MetaPrefix(items), u);
  }

  lemma {:induction false} LengthBound(names: set<string>) returns (bound: nat)
    ensures forall x | x in names :: |x| < bound
  {
    bound := 0;
    if names != {} {
      var x :| x in names;
      bound := LengthBound(names - {x});
      if |x| >= bound {
        bound := |x| + 1;
      }
    }
  }

  lemma FreshName(names: set<string>) returns (name: string)
    ensures name !in names
  {
    var bound := LengthBound(names);
    name := seq(bound, i => 'n');
  }
}
