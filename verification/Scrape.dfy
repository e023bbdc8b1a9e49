/** The text a scrape writes, whatever order Go's maps are iterated in, and what a reader makes of it. */
module Scrape {
  import opened Kube
  import opened Seqs
  import opened Text
  import opened Exposition
  import opened Parser
  import opened Generator

  type Entries = map<Uid, seq<string>>

  /** What `Add` stores for an object: the text of each of its families. */
  function Rendered(families: seq<Family>): (texts: seq<string>)
    ensures |texts| == |families|
  {
    seq(|families|, i requires 0 <= i < |families| => FamilyText(families[i]))
  }

  function Renderer(gens: seq<FamilyGenerator>): Object -> seq<string> {
    (o: Object) => Rendered(Compose(gens, o))
  }

  /** Every entry has a text for every header, so no index of a scrape is out of range. */
  ghost predicate Uniform(m: Entries, n: nat) {
    forall u | u in m :: |m[u]| == n
  }

  /** One iteration order of the map for each header. */
  ghost predicate AreOrders(orders: seq<seq<Uid>>, n: nat, keys: set<Uid>) {
    |orders| == n && forall i | 0 <= i < n :: IsOrder(orders[i], keys)
  }

  /** The texts at index `i` of the entries, in the given order. */
  ghost function Column(m: Entries, order: seq<Uid>, i: nat): string
    requires forall u | u in order :: u in m && i < |m[u]|
  {
    if order == [] then "" else m[order[0]][i] + Column(m, order[1..], i)
  }

  /** The scrape from header `i` on. */
  ghost function TextFrom(headers: seq<string>, m: Entries, orders: seq<seq<Uid>>, i: nat): string
    requires Uniform(m, |headers|) && AreOrders(orders, |headers|, m.Keys) && i <= |headers|
    decreases |headers| - i
  {
    if i == |headers| then ""
    else headers[i] + "\n" + Column(m, orders[i], i) + TextFrom(headers, m, orders, i + 1)
  }

  // ---- a scrape, seen from the objects that are live

  ghost function RenderAll(gens: seq<FamilyGenerator>, objects: map<Uid, Object>): (m: Entries)
    ensures m.Keys == objects.Keys && Uniform(m, |gens|)
  {
    map u | u in objects :: Rendered(Compose(gens, objects[u]))
  }

  ghost function ScrapeFrom(gens: seq<FamilyGenerator>, objects: map<Uid, Object>, orders: seq<seq<Uid>>,
                            i: nat): string
    requires AreOrders(orders, |gens|, objects.Keys) && i <= |gens|
  {
    TextFrom(Headers(gens), RenderAll(gens, objects), orders, i)
  }

  /** The whole text written for a store that holds these objects. */
  ghost function ScrapeText(gens: seq<FamilyGenerator>, objects: map<Uid, Object>, orders: seq<seq<Uid>>): string
    requires AreOrders(orders, |gens|, objects.Keys)
  {
    ScrapeFrom(gens, objects, orders, 0)
  }

  /** Generators whose names, headers and label keys keep clear of the format's delimiters. */
  ghost predicate GeneratorOk(g: FamilyGenerator) {
    && NameOk(g.name) && '\n' !in g.help && '\n' !in g.kind
    && forall o: Object :: AllOk(g.generate(o))
  }

  ghost predicate GeneratorsOk(gens: seq<FamilyGenerator>) {
    forall i | 0 <= i < |gens| :: GeneratorOk(gens[i])
  }

  /** The metrics of one family over all objects, in the given order. */
  ghost function MetricsIn(g: FamilyGenerator, objects: map<Uid, Object>, order: seq<Uid>): (ms: Metrics)
    requires forall u | u in order :: u in objects
  {
    if order == [] then [] else g.generate(objects[order[0]]) + MetricsIn(g, objects, order[1..])
  }

  lemma {:induction false} MetricsInOk(g: FamilyGenerator, objects: map<Uid, Object>, order: seq<Uid>)
    requires GeneratorOk(g)
    requires forall u | u in order :: u in objects
    ensures AllOk(MetricsIn(g, objects, order))
  {
    if order != [] {
      MetricsInOk(g, objects, order[1..]);
      assert AllOk(g.generate(objects[order[0]]));
    }
  }

  lemma SampleLinesAppend(name: string, a: Metrics, b: Metrics)
    ensures AllPaired(a + b)
    ensures SampleLines(name, a + b) == SampleLines(name, a) + SampleLines(name, b)
  {
  }

  /** A column is the print of one family that gathers the metrics of all objects. */
  lemma {:induction false} ColumnIsFamily(gens: seq<FamilyGenerator>, objects: map<Uid, Object>, order: seq<Uid>,
                                          i: nat)
    requires i < |gens|
    requires forall u | u in order :: u in objects
    ensures Column(RenderAll(gens, objects), order, i)
         == FamilyText(Family(gens[i].name, gens[i].kind, MetricsIn(gens[i], objects, order)))
  {
    if order != [] {
      ColumnIsFamily(gens, objects, order[1..], i);
      var a, b := gens[i].generate(objects[order[0]]), MetricsIn(gens[i], objects, order[1..]);
      SampleLinesAppend(gens[i].name, a, b);
      UnlinesAppend(SampleLines(gens[i].name, a), SampleLines(gens[i].name, b));
    }
  }

  // ---- lines of a scrape

  ghost function FamilyLinesIn(g: FamilyGenerator, objects: map<Uid, Object>, order: seq<Uid>): seq<string>
    requires forall u | u in order :: u in objects
  {
    SampleLines(g.name, MetricsIn(g, objects, order))
  }

  lemma HeaderNoNewline(g: FamilyGenerator)
    requires GeneratorOk(g)
    ensures '\n' !in HelpLine(g) && '\n' !in TypeLine(g)
  {
  }

  /** A section of the scrape: HELP line, TYPE line, then exactly the sample lines of the family. */
  lemma SectionLines(gens: seq<FamilyGenerator>, objects: map<Uid, Object>, orders: seq<seq<Uid>>, i: nat)
    requires GeneratorsOk(gens) && AreOrders(orders, |gens|, objects.Keys) && i < |gens|
    ensures Lines(ScrapeFrom(gens, objects, orders, i))
         == [HelpLine(gens[i]), TypeLine(gens[i])]
          + (FamilyLinesIn(gens[i], objects, orders[i]) + Lines(ScrapeFrom(gens, objects, orders, i + 1)))
  {
    var g := gens[i];
    var family := Family(g.name, g.kind, MetricsIn(g, objects, orders[i]));
    var rest := ScrapeFrom(gens, objects, orders, i + 1);
    ColumnIsFamily(gens, objects, orders[i], i);
    MetricsInOk(g, objects, orders[i]);
    FamilyLines(family);
    LinesConcat(FamilyText(family), rest);
    HeaderNoNewline(g);
    var tail := FamilyText(family) + rest;
    LinesAt(TypeLine(g), tail);
    LinesAt(HelpLine(g), TypeLine(g) + "\n" + tail);
    SectionText(HelpLine(g), TypeLine(g), FamilyText(family), rest);
  }

  lemma SectionText(help: string, kind: string, text: string, rest: string)
    ensures (help + "\n" + kind) + "\n" + text + rest == help + "\n" + (kind + "\n" + (text + rest))
  {
  }

  lemma ColumnTerminated(gens: seq<FamilyGenerator>, objects: map<Uid, Object>, order: seq<Uid>, i: nat)
    requires GeneratorsOk(gens) && i < |gens|
    requires forall u | u in order :: u in objects
    ensures Terminated(Column(RenderAll(gens, objects), order, i))
  {
    ColumnIsFamily(gens, objects, order, i);
    MetricsInOk(gens[i], objects, order);
    FamilyLines(Family(gens[i].name, gens[i].kind, MetricsIn(gens[i], objects, order)));
  }

  lemma {:induction false} ScrapeTerminated(gens: seq<FamilyGenerator>, objects: map<Uid, Object>,
                                            orders: seq<seq<Uid>>, i: nat)
    requires GeneratorsOk(gens) && AreOrders(orders, |gens|, objects.Keys) && i <= |gens|
    ensures Terminated(ScrapeFrom(gens, objects, orders, i))
    decreases |gens| - i
  {
    if i < |gens| {
      ScrapeTerminated(gens, objects, orders, i + 1);
      ColumnTerminated(gens, objects, orders[i], i);
      var column := Column(RenderAll(gens, objects), orders[i], i);
      TerminatedConcat(Headers(gens)[i] + "\n", column);
      TerminatedConcat(Headers(gens)[i] + "\n" + column, ScrapeFrom(gens, objects, orders, i + 1));
    }
  }

  // ---- reading a scrape

  ghost function GroupsFrom(gens: seq<FamilyGenerator>, objects: map<Uid, Object>, orders: seq<seq<Uid>>, i: nat):
    (groups: seq<Group>)
    requires AreOrders(orders, |gens|, objects.Keys) && i <= |gens|
    ensures |groups| == |gens| - i
    ensures forall k | 0 <= k < |groups| :: groups[k] == GroupOf(gens[i + k], objects, orders[i + k])
    decreases |gens| - i
  {
    if i == |gens| then []
    else [GroupOf(gens[i], objects, orders[i])] + GroupsFrom(gens, objects, orders, i + 1)
  }

  ghost function GroupOf(g: FamilyGenerator, objects: map<Uid, Object>, order: seq<Uid>): Group
    requires forall u | u in order :: u in objects
  {
    Group(g.name, g.help, g.kind, Samples(g.name, MetricsIn(g, objects, order)))
  }

  lemma ReadHeader(prefix: string, name: string, text: string)
    requires NameOk(name)
    ensures ReadComment(prefix, prefix + name + " " + text) == Some((name, text))
  {
    var line := prefix + name + " " + text;
    assert line[..|prefix|] == prefix;
    assert line[|prefix|..] == name + (" " + text);
    CutAt(name, " " + text, {' '});
    assert (" " + text)[1..] == text;
  }

  /** What follows a family begins with a header, or with whatever follows the scrape. */
  lemma HeaderFirst(gens: seq<FamilyGenerator>, objects: map<Uid, Object>, orders: seq<seq<Uid>>, i: nat,
                    rest: seq<string>)
    requires GeneratorsOk(gens) && AreOrders(orders, |gens|, objects.Keys) && i <= |gens| && EndsSamples(rest)
    ensures EndsSamples(Lines(ScrapeFrom(gens, objects, orders, i)) + rest)
  {
    if i < |gens| {
      SectionLines(gens, objects, orders, i);
    } else {
      LinesEmpty();
      assert [] + rest == rest;
    }
  }

  /** One group in front: what reading the rest gives is put behind it. */
  lemma ReadGroupsCons(g: FamilyGenerator, samples: seq<Sample>, lines: seq<string>, rest: seq<string>,
                       groups: seq<Group>)
    requires NameOk(g.name)
    requires ReadSamples(lines, g.name) == Some((samples, rest))
    requires ReadGroups(rest) == Some(groups)
    ensures ReadGroups([HelpLine(g), TypeLine(g)] + lines)
         == Some([Group(g.name, g.help, g.kind, samples)] + groups)
  {
    ReadHeader("# HELP ", g.name, g.help);
    ReadHeader("# TYPE ", g.name, g.kind);
    assert ([HelpLine(g), TypeLine(g)] + lines)[2..] == lines;
  }

  lemma LinesAssoc(header: seq<string>, samples: seq<string>, lines: seq<string>, rest: seq<string>)
    ensures header + (samples + lines) + rest == header + (samples + (lines + rest))
  {
  }

  /** A scrape in front of more lines: its groups in front of theirs. */
  lemma {:induction false} ReadScrapeFrom(gens: seq<FamilyGenerator>, objects: map<Uid, Object>, orders: seq<seq<Uid>>,
                                          i: nat, rest: seq<string>, more: seq<Group>)
    requires GeneratorsOk(gens) && AreOrders(orders, |gens|, objects.Keys) && i <= |gens|
    requires EndsSamples(rest) && ReadGroups(rest) == Some(more)
    ensures ReadGroups(Lines(ScrapeFrom(gens, objects, orders, i)) + rest)
         == Some(GroupsFrom(gens, objects, orders, i) + more)
    decreases |gens| - i
  {
    if i < |gens| {
      var g, lines := gens[i], Lines(ScrapeFrom(gens, objects, orders, i + 1));
      ReadScrapeFrom(gens, objects, orders, i + 1, rest, more);
      SectionLines(gens, objects, orders, i);
      LinesAssoc([HelpLine(g), TypeLine(g)], FamilyLinesIn(g, objects, orders[i]), lines, rest);
      HeaderFirst(gens, objects, orders, i + 1, rest);
      MetricsInOk(g, objects, orders[i]);
      ReadSampleLines(g.name, MetricsIn(g, objects, orders[i]), lines + rest);
      ReadGroupsCons(g, Samples(g.name, MetricsIn(g, objects, orders[i])),
                     FamilyLinesIn(g, objects, orders[i]) + (lines + rest), lines + rest,
                     GroupsFrom(gens, objects, orders, i + 1) + more);
      Assoc([GroupOf(g, objects, orders[i])], GroupsFrom(gens, objects, orders, i + 1), more);
    } else {
      LinesEmpty();
      assert [] + rest == rest;
      assert [] + more == more;
    }
  }

  /** The lines of a scrape are whole, and read as one group per family, in generator order, HELP and TYPE first. */
  lemma ScrapeGroups(gens: seq<FamilyGenerator>, objects: map<Uid, Object>, orders: seq<seq<Uid>>)
    requires GeneratorsOk(gens) && AreOrders(orders, |gens|, objects.Keys)
    ensures Terminated(ScrapeText(gens, objects, orders))
    ensures ReadGroups(Lines(ScrapeText(gens, objects, orders))) == Some(GroupsFrom(gens, objects, orders, 0))
  {
    var lines, groups := Lines(ScrapeText(gens, objects, orders)), GroupsFrom(gens, objects, orders, 0);
    ReadScrapeFrom(gens, objects, orders, 0, [], []);
    assert lines + [] == lines;
    assert groups + [] == groups;
    ScrapeTerminated(gens, objects, orders, 0);
  }

  // ---- the samples do not depend on the order

  ghost function SamplesOf(g: FamilyGenerator, objects: map<Uid, Object>): Uid -> multiset<Sample> {
    (u: Uid) => if u in objects then multiset(Samples(g.name, g.generate(objects[u]))) else multiset{}
  }

  lemma SamplesAppend(name: string, a: Metrics, b: Metrics)
    ensures AllPaired(a + b)
    ensures Samples(name, a + b) == Samples(name, a) + Samples(name, b)
  {
  }

  /** A group's samples, counted, are the sum over the live objects: no trace of the order is left. */
  lemma {:induction false} GroupSamples(g: FamilyGenerator, objects: map<Uid, Object>, order: seq<Uid>, keys: set<Uid>)
    requires IsOrder(order, keys) && keys <= objects.Keys
    ensures multiset(Samples(g.name, MetricsIn(g, objects, order))) == Sum(keys, SamplesOf(g, objects))
    decreases |order|
  {
    if order == [] {
      assert keys == {};
    } else {
      OrderTail(order, keys);
      GroupSamples(g, objects, order[1..], keys - {order[0]});
      SumTake(keys, SamplesOf(g, objects), order[0]);
      SamplesAppend(g.name, g.generate(objects[order[0]]), MetricsIn(g, objects, order[1..]));
    }
  }

  // ---- the sample lines do not depend on the order either

  predicate IsSampleLine(line: string) {
    line == "" || line[0] != '#'
  }

  /** The lines of a text that are not comments. */
  function DataLines(text: string): seq<string> {
    Filter(Lines(text), IsSampleLine)
  }

  ghost function LinesOf(g: FamilyGenerator, objects: map<Uid, Object>): Uid -> multiset<string> {
    (u: Uid) => if u in objects then multiset(SampleLines(g.name, g.generate(objects[u]))) else multiset{}
  }

  /** The sample lines of one object, over the families from `i` on. */
  ghost function ObjectLines(gens: seq<FamilyGenerator>, o: Object, i: nat): multiset<string>
    requires i <= |gens|
    decreases |gens| - i
  {
    if i == |gens| then multiset{}
    else multiset(SampleLines(gens[i].name, gens[i].generate(o))) + ObjectLines(gens, o, i + 1)
  }

  ghost function ObjectLinesOf(gens: seq<FamilyGenerator>, objects: map<Uid, Object>, i: nat): Uid -> multiset<string>
    requires i <= |gens|
  {
    (u: Uid) => if u in objects then ObjectLines(gens, objects[u], i) else multiset{}
  }

  lemma {:induction false} FamilyLinesSum(g: FamilyGenerator, objects: map<Uid, Object>, order: seq<Uid>,
                                          keys: set<Uid>)
    requires IsOrder(order, keys) && keys <= objects.Keys
    ensures multiset(FamilyLinesIn(g, objects, order)) == Sum(keys, LinesOf(g, objects))
    decreases |order|
  {
    if order == [] {
      assert keys == {};
    } else {
      OrderTail(order, keys);
      FamilyLinesSum(g, objects, order[1..], keys - {order[0]});
      SumTake(keys, LinesOf(g, objects), order[0]);
      SampleLinesAppend(g.name, g.generate(objects[order[0]]), MetricsIn(g, objects, order[1..]));
    }
  }

  lemma SectionDataLines(gens: seq<FamilyGenerator>, objects: map<Uid, Object>, orders: seq<seq<Uid>>, i: nat)
    requires GeneratorsOk(gens) && AreOrders(orders, |gens|, objects.Keys) && i < |gens|
    ensures DataLines(ScrapeFrom(gens, objects, orders, i))
         == FamilyLinesIn(gens[i], objects, orders[i]) + DataLines(ScrapeFrom(gens, objects, orders, i + 1))
  {
    SectionLines(gens, objects, orders, i);
    var header := [HelpLine(gens[i]), TypeLine(gens[i])];
    var lines, rest := FamilyLinesIn(gens[i], objects, orders[i]), Lines(ScrapeFrom(gens, objects, orders, i + 1));
    FilterAppend(header, lines + rest, IsSampleLine);
    FilterAppend(lines, rest, IsSampleLine);
    FilterNone(header, IsSampleLine);
    var ms := MetricsIn(gens[i], objects, orders[i]);
    MetricsInOk(gens[i], objects, orders[i]);
    forall k | 0 <= k < |lines| ensures IsSampleLine(lines[k]) {
      SampleLineShape(gens[i].name, ms[k]);
    }
    FilterAll(lines, IsSampleLine);
  }

  lemma {:induction false} ScrapeLinesSum(gens: seq<FamilyGenerator>, objects: map<Uid, Object>,
                                          orders: seq<seq<Uid>>, i: nat)
    requires GeneratorsOk(gens) && AreOrders(orders, |gens|, objects.Keys) && i <= |gens|
    ensures multiset(DataLines(ScrapeFrom(gens, objects, orders, i)))
         == Sum(objects.Keys, ObjectLinesOf(gens, objects, i))
    decreases |gens| - i
  {
    if i == |gens| {
      SumZero(objects.Keys, ObjectLinesOf(gens, objects, i));
      LinesEmpty();
    } else {
      SectionDataLines(gens, objects, orders, i);
      FamilyLinesSum(gens[i], objects, orders[i], objects.Keys);
      ScrapeLinesSum(gens, objects, orders, i + 1);
      SumPlus(objects.Keys, LinesOf(gens[i], objects), ObjectLinesOf(gens, objects, i + 1),
              ObjectLinesOf(gens, objects, i));
    }
  }

  /** The sample lines of a scrape, counted, are the sum of the lines of the live objects. */
  lemma ScrapeLinesAreObjectLines(gens: seq<FamilyGenerator>, objects: map<Uid, Object>, orders: seq<seq<Uid>>)
    requires GeneratorsOk(gens) && AreOrders(orders, |gens|, objects.Keys)
    ensures multiset(DataLines(ScrapeText(gens, objects, orders))) == Sum(objects.Keys, ObjectLinesOf(gens, objects, 0))
  {
    ScrapeLinesSum(gens, objects, orders, 0);
  }
}
