/** When a scrape is a legal exposition: a condition on the generators and the live objects, in no particular order. */
module Legality {
  import opened Kube
  import opened Seqs
  import opened Exposition
  import opened Parser
  import opened Format
  import opened Generator
  import opened Scrape

  function LabelsOf(m: Metric): Labels
    requires m.Paired()
  {
    Zip(m.labelKeys, m.labelValues, 0)
  }

  /** Two metrics of one family that would be the same series. */
  predicate SameSeries(a: Metric, b: Metric)
    requires a.Paired() && b.Paired()
  {
    LabelSet(LabelsOf(a)) == LabelSet(LabelsOf(b))
  }

  predicate Unique(ms: Metrics) {
    forall i, j | 0 <= i < j < |ms| :: !SameSeries(ms[i], ms[j])
  }

  predicate Apart(a: Metrics, b: Metrics) {
    forall i, j | 0 <= i < |a| && 0 <= j < |b| :: !SameSeries(a[i], b[j])
  }

  predicate SamplesLegal(kind: string, ms: Metrics) {
    forall i | 0 <= i < |ms| :: SampleLegal(kind, LabelsOf(ms[i]))
  }

  /** No object shows a series twice, and no two objects show the same one. */
  ghost predicate UniqueAmong(g: FamilyGenerator, objects: map<Uid, Object>, uids: set<Uid>)
    requires uids <= objects.Keys
  {
    && (forall u | u in uids :: Unique(g.generate(objects[u])))
    && (forall u, v | u in uids && v in uids && u != v :: Apart(g.generate(objects[u]), g.generate(objects[v])))
  }

  /** The family of the live objects obeys the rules of the format. */
  ghost predicate FamilyLegal(g: FamilyGenerator, objects: map<Uid, Object>) {
    && HeaderLegal(g.name, g.help, g.kind)
    && (forall u | u in objects :: SamplesLegal(SkipBlanks(g.kind), g.generate(objects[u])))
    && UniqueAmong(g, objects, objects.Keys)
  }

  // ---- from the metrics of all objects, in some order, to the objects

  lemma {:induction false} SamplesLegalIn(kind: string, g: FamilyGenerator, objects: map<Uid, Object>, order: seq<Uid>)
    requires forall u | u in order :: u in objects
    ensures SamplesLegal(kind, MetricsIn(g, objects, order)) <==>
              forall u | u in order :: SamplesLegal(kind, g.generate(objects[u]))
  {
    if order != [] {
      SamplesLegalIn(kind, g, objects, order[1..]);
      SamplesLegalAppend(kind, g.generate(objects[order[0]]), MetricsIn(g, objects, order[1..]));
      HeadFirst(order, []);
    }
  }

  lemma SamplesLegalAppend(kind: string, a: Metrics, b: Metrics)
    ensures AllPaired(a + b)
    ensures SamplesLegal(kind, a + b) <==> SamplesLegal(kind, a) && SamplesLegal(kind, b)
  {
    var ms := a + b;
    if SamplesLegal(kind, ms) {
      forall i | 0 <= i < |a| ensures SampleLegal(kind, LabelsOf(a[i])) {
        assert ms[i] == a[i];
      }
      forall i | 0 <= i < |b| ensures SampleLegal(kind, LabelsOf(b[i])) {
        assert ms[|a| + i] == b[i];
      }
    }
  }

  lemma ApartAppend(a: Metrics, b: Metrics, c: Metrics)
    ensures AllPaired(b + c)
    ensures Apart(a, b + c) <==> Apart(a, b) && Apart(a, c)
  {
    var ms := b + c;
    if Apart(a, ms) {
      forall i, j | 0 <= i < |a| && 0 <= j < |b| ensures !SameSeries(a[i], b[j]) {
        assert ms[j] == b[j];
      }
      forall i, j | 0 <= i < |a| && 0 <= j < |c| ensures !SameSeries(a[i], c[j]) {
        assert ms[|b| + j] == c[j];
      }
    }
  }

  lemma {:induction false} ApartIn(a: Metrics, g: FamilyGenerator, objects: map<Uid, Object>, order: seq<Uid>)
    requires forall u | u in order :: u in objects
    ensures Apart(a, MetricsIn(g, objects, order)) <==> forall u | u in order :: Apart(a, g.generate(objects[u]))
  {
    if order != [] {
      ApartIn(a, g, objects, order[1..]);
      ApartAppend(a, g.generate(objects[order[0]]), MetricsIn(g, objects, order[1..]));
      HeadFirst(order, []);
    }
  }

  lemma UniqueAppend(a: Metrics, b: Metrics)
    ensures AllPaired(a + b)
    ensures Unique(a + b) <==> Unique(a) && Unique(b) && Apart(a, b)
  {
    var ms := a + b;
    if Unique(ms) {
      forall i, j | 0 <= i < j < |a| ensures !SameSeries(a[i], a[j]) {
        assert ms[i] == a[i] && ms[j] == a[j];
      }
      forall i, j | 0 <= i < j < |b| ensures !SameSeries(b[i], b[j]) {
        assert ms[|a| + i] == b[i] && ms[|a| + j] == b[j];
      }
      forall i, j | 0 <= i < |a| && 0 <= j < |b| ensures !SameSeries(a[i], b[j]) {
        assert ms[i] == a[i] && ms[|a| + j] == b[j];
      }
    }
  }

  lemma ApartSymmetric(a: Metrics, b: Metrics)
    ensures Apart(a, b) <==> Apart(b, a)
  {
  }

  lemma UniqueAmongTake(g: FamilyGenerator, objects: map<Uid, Object>, uids: set<Uid>, u: Uid)
    requires uids <= objects.Keys && u in uids
    ensures UniqueAmong(g, objects, uids) <==>
              && Unique(g.generate(objects[u])) && UniqueAmong(g, objects, uids - {u})
              && forall v | v in uids - {u} :: Apart(g.generate(objects[u]), g.generate(objects[v]))
  {
    forall v | v in uids - {u} {
      ApartSymmetric(g.generate(objects[u]), g.generate(objects[v]));
    }
  }

  lemma {:induction false} UniqueIn(g: FamilyGenerator, objects: map<Uid, Object>, order: seq<Uid>, uids: set<Uid>)
    requires IsOrder(order, uids) && uids <= objects.Keys
    ensures Unique(MetricsIn(g, objects, order)) <==> UniqueAmong(g, objects, uids)
    decreases |order|
  {
    if order == [] {
      assert uids == {};
    } else {
      var u, rest := order[0], order[1..];
      OrderTail(order, uids);
      UniqueIn(g, objects, rest, uids - {u});
      UniqueAppend(g.generate(objects[u]), MetricsIn(g, objects, rest));
      ApartIn(g.generate(objects[u]), g, objects, rest);
      UniqueAmongTake(g, objects, uids, u);
    }
  }

  lemma UniqueSamples(name: string, ms: Metrics)
    ensures UniqueSeries(Samples(name, ms)) <==> Unique(ms)
  {
    forall i, j | 0 <= i < j < |ms|
      ensures LabelSet(Samples(name, ms)[i].labels) == LabelSet(Samples(name, ms)[j].labels)
         <==> SameSeries(ms[i], ms[j])
    {
    }
  }

  /** The printed group is legal iff the family of the live objects is, in every iteration order. */
  lemma GroupLegalIff(g: FamilyGenerator, objects: map<Uid, Object>, order: seq<Uid>)
    requires IsOrder(order, objects.Keys)
    ensures GroupLegal(GroupOf(g, objects, order)) <==> FamilyLegal(g, objects)
  {
    var ms := MetricsIn(g, objects, order);
    var samples := Samples(g.name, ms);
    SamplesLegalIn(SkipBlanks(g.kind), g, objects, order);
    assert forall i | 0 <= i < |ms| :: samples[i].labels == LabelsOf(ms[i]);
    UniqueIn(g, objects, order, objects.Keys);
    UniqueSamples(g.name, ms);
  }

  // ---- a scrape of one store

  /** No two families take the same name. */
  predicate DistinctFamilies(gens: seq<FamilyGenerator>) {
    forall i, j | 0 <= i < j < |gens| ::
      NamesTaken(gens[i].name, SkipBlanks(gens[i].kind)) !! NamesTaken(gens[j].name, SkipBlanks(gens[j].kind))
  }

  lemma NamesDistinctAlike(gens: seq<FamilyGenerator>, groups: seq<Group>)
    requires |gens| == |groups|
    requires forall k | 0 <= k < |gens| :: groups[k].name == gens[k].name && groups[k].kind == gens[k].kind
    ensures DistinctNames(groups) <==> DistinctFamilies(gens)
  {
  }

  /** Two families of one name never make a legal exposition. */
  lemma RepeatedNameIsIllegal(gens: seq<FamilyGenerator>, i: nat, j: nat)
    requires i < j < |gens| && gens[i].name == gens[j].name
    ensures !DistinctFamilies(gens)
  {
    assert gens[i].name in NamesTaken(gens[i].name, SkipBlanks(gens[i].kind));
    assert gens[j].name in NamesTaken(gens[j].name, SkipBlanks(gens[j].kind));
  }

  /** Families that are no summaries or histograms only need different names. */
  lemma PlainNamesSuffice(gens: seq<FamilyGenerator>)
    requires forall i | 0 <= i < |gens| :: SkipBlanks(gens[i].kind) in {"counter", "gauge", "untyped"}
    requires forall i, j | 0 <= i < j < |gens| :: gens[i].name != gens[j].name
    ensures DistinctFamilies(gens)
  {
    assert "counter" !in {"summary", "histogram"} && "gauge" !in {"summary", "histogram"};
    assert "untyped"[0] != "summary"[0] && "untyped" !in {"summary", "histogram"};
    forall i | 0 <= i < |gens| ensures NamesTaken(gens[i].name, SkipBlanks(gens[i].kind)) == {gens[i].name} {
    }
  }

  ghost predicate AllLegal(gens: seq<FamilyGenerator>, objects: map<Uid, Object>) {
    (forall k | 0 <= k < |gens| :: FamilyLegal(gens[k], objects)) && DistinctFamilies(gens)
  }

  lemma GroupsLegalIff(gens: seq<FamilyGenerator>, objects: map<Uid, Object>, orders: seq<seq<Uid>>)
    requires AreOrders(orders, |gens|, objects.Keys)
    ensures Legal(GroupsFrom(gens, objects, orders, 0)) <==> AllLegal(gens, objects)
  {
    var groups := GroupsFrom(gens, objects, orders, 0);
    forall k | 0 <= k < |gens| ensures GroupLegal(groups[k]) <==> FamilyLegal(gens[k], objects) {
      GroupLegalIff(gens[k], objects, orders[k]);
    }
    NamesDistinctAlike(gens, groups);
  }

  /**
   A scrape reads as one group per family, in generator order, HELP and TYPE first, whatever the iteration orders, iff
   every family of the live objects obeys the rules of the format and no two families take the same name.
   */
  lemma ScrapeReadsAsGroups(gens: seq<FamilyGenerator>, objects: map<Uid, Object>, orders: seq<seq<Uid>>)
    requires GeneratorsOk(gens) && AreOrders(orders, |gens|, objects.Keys)
    ensures ReadExposition(ScrapeText(gens, objects, orders)).Some? <==> AllLegal(gens, objects)
    ensures AllLegal(gens, objects) ==>
              var groups := GroupsFrom(gens, objects, orders, 0);
              Legal(groups) && ReadExposition(ScrapeText(gens, objects, orders)) == Some(DecodedAll(groups))
  {
    ScrapeGroups(gens, objects, orders);
    GroupsLegalIff(gens, objects, orders);
    ReadWhole(ScrapeText(gens, objects, orders), GroupsFrom(gens, objects, orders, 0));
  }
}
