/** What a client reads from an instance: the stores of all resources, one after the other, are one exposition. */
module Exposed {
  import opened Kube
  import opened Seqs
  import opened Text
  import opened Jump
  import opened Parser
  import opened Format
  import opened Generator
  import opened Scrape
  import opened Legality
  import opened Sharding
  import opened Equivalence

  /** A family, and the live objects it is about. */
  datatype Shown = Shown(g: FamilyGenerator, live: map<Uid, Object>)

  ghost function ShownOf(gens: seq<FamilyGenerator>, live: map<Uid, Object>): (xs: seq<Shown>)
    ensures |xs| == |gens|
  {
    seq(|gens|, i requires 0 <= i < |gens| => Shown(gens[i], live))
  }

  /** The families of all resources, in the order they are served. */
  ghost function AllShown(h: Hasher, shard: int, total: int, resources: seq<Resource>): seq<Shown>
    requires h.Valid() && total < TWO32
  {
    if resources == [] then []
    else
      ShownOf(resources[0].gens, Live(h, shard, total, resources[0].inputs))
      + AllShown(h, shard, total, resources[1..])
  }

  /** The group is the print of the family, in some order of the objects. */
  ghost predicate Prints(x: Shown, group: Group) {
    exists order :: IsOrder(order, x.live.Keys) && group == GroupOf(x.g, x.live, order)
  }

  ghost predicate AllPrint(xs: seq<Shown>, groups: seq<Group>) {
    |groups| == |xs| && forall k | 0 <= k < |xs| :: Prints(xs[k], groups[k])
  }

  lemma AllPrintAppend(xs: seq<Shown>, groups: seq<Group>, xs': seq<Shown>, groups': seq<Group>)
    requires AllPrint(xs, groups) && AllPrint(xs', groups')
    ensures AllPrint(xs + xs', groups + groups')
  {
  }

  lemma StorePrints(gens: seq<FamilyGenerator>, live: map<Uid, Object>, orders: seq<seq<Uid>>)
    requires AreOrders(orders, |gens|, live.Keys)
    ensures AllPrint(ShownOf(gens, live), GroupsFrom(gens, live, orders, 0))
  {
    forall k | 0 <= k < |gens| ensures Prints(ShownOf(gens, live)[k], GroupsFrom(gens, live, orders, 0)[k]) {
      assert IsOrder(orders[k], live.Keys);
    }
  }

  lemma {:induction false} ReadParts(h: Hasher, shard: int, total: int, resources: seq<Resource>, parts: seq<string>)
    returns (groups: seq<Group>)
    requires h.Valid() && total < TWO32
    requires AllGeneratorsOk(resources) && ServesParts(h, shard, total, resources, parts)
    ensures ReadGroups(Lines(Concat(parts))) == Some(groups) && AllPrint(AllShown(h, shard, total, resources), groups)
    ensures EndsSamples(Lines(Concat(parts))) && Terminated(Concat(parts))
  {
    if resources == [] {
      LinesEmpty();
      groups := [];
    } else {
      var r, live := resources[0], Live(h, shard, total, resources[0].inputs);
      var more := ReadParts(h, shard, total, resources[1..], parts[1..]);
      var orders := ServedScrape(h, shard, total, r, parts[0]);
      var rest, mine := Lines(Concat(parts[1..])), GroupsFrom(r.gens, live, orders, 0);
      ReadScrapeFrom(r.gens, live, orders, 0, rest, more);
      HeaderFirst(r.gens, live, orders, 0, rest);
      ScrapeTerminated(r.gens, live, orders, 0);
      LinesConcat(parts[0], Concat(parts[1..]));
      TerminatedConcat(parts[0], Concat(parts[1..]));
      groups := mine + more;
      StorePrints(r.gens, live, orders);
      AllPrintAppend(ShownOf(r.gens, live), mine, AllShown(h, shard, total, resources[1..]), more);
    }
  }

  // ---- the exact condition

  predicate NamesApart(x: Shown, y: Shown) {
    NamesTaken(x.g.name, SkipBlanks(x.g.kind)) !! NamesTaken(y.g.name, SkipBlanks(y.g.kind))
  }

  /** Every family obeys the rules of the format, and no two of all resources take the same name. */
  ghost predicate ShownLegal(xs: seq<Shown>) {
    && (forall k | 0 <= k < |xs| :: FamilyLegal(xs[k].g, xs[k].live))
    && (forall i, j | 0 <= i < j < |xs| :: NamesApart(xs[i], xs[j]))
  }

  /** What is read of a family: its header, unescaped, and the samples of the live objects, in some order. */
  ghost predicate Fits(x: Shown, group: Group) {
    && group.name == x.g.name && group.kind == SkipBlanks(x.g.kind)
    && Some(group.help) == Unescape(SkipBlanks(x.g.help))
    && multiset(group.samples) == Sum(x.live.Keys, SamplesOf(x.g, x.live))
  }

  lemma PrintLegalIff(x: Shown, group: Group)
    requires Prints(x, group)
    ensures group.name == x.g.name && group.kind == x.g.kind
    ensures GroupLegal(group) <==> FamilyLegal(x.g, x.live)
    ensures GroupLegal(group) ==> Fits(x, Decoded(group))
  {
    var order :| IsOrder(order, x.live.Keys) && group == GroupOf(x.g, x.live, order);
    GroupLegalIff(x.g, x.live, order);
    GroupSamples(x.g, x.live, order, x.live.Keys);
  }

  lemma PrintsLegalIff(xs: seq<Shown>, groups: seq<Group>)
    requires AllPrint(xs, groups)
    ensures Legal(groups) <==> ShownLegal(xs)
    ensures Legal(groups) ==> forall k | 0 <= k < |xs| :: Fits(xs[k], DecodedAll(groups)[k])
  {
    forall k | 0 <= k < |xs|
      ensures groups[k].name == xs[k].g.name && groups[k].kind == xs[k].g.kind
      ensures GroupLegal(groups[k]) <==> FamilyLegal(xs[k].g, xs[k].live)
      ensures GroupLegal(groups[k]) ==> Fits(xs[k], Decoded(groups[k]))
    {
      PrintLegalIff(xs[k], groups[k]);
    }
    assert DistinctNames(groups) <==> forall i, j | 0 <= i < j < |xs| :: NamesApart(xs[i], xs[j]);
  }

  /**
   Whatever an instance serves reads as one contiguous group per family of all its resources, HELP and TYPE first, in
   every map iteration order, iff every family of the live objects obeys the rules of the format and no two families of
   all resources take the same name.
   */
  lemma ServedTextReadsAsGroups(h: Hasher, shard: int, total: int, resources: seq<Resource>, text: string)
    requires h.Valid() && total < TWO32
    requires AllGeneratorsOk(resources) && ServesAll(h, shard, total, resources, text)
    ensures var xs, r := AllShown(h, shard, total, resources), ReadExposition(text);
            && (r.Some? <==> ShownLegal(xs))
            && (r.Some? ==> |r.value| == |xs| && forall k | 0 <= k < |xs| :: Fits(xs[k], r.value[k]))
  {
    var parts :| ServesParts(h, shard, total, resources, parts) && text == Concat(parts);
    var groups := ReadParts(h, shard, total, resources, parts);
    PrintsLegalIff(AllShown(h, shard, total, resources), groups);
    ReadWhole(text, groups);
  }
}
