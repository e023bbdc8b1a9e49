/** pkg/metrics_store: the cache of rendered families, and its construction in internal/store/builder.go. */
module MetricsStore {
  import opened Kube
  import opened Seqs
  import opened Exposition
  import opened Generator
  import opened Scrape
  import opened StoreSpec

  /** The loop of `Add`: the text of every family. */
  method RenderFamilies(families: seq<Family>) returns (texts: array<string>)
    ensures fresh(texts) && texts[..] == Rendered(families)
  {
    texts := new string[|families|];
    var i := 0;
    while i < |families|
      invariant 0 <= i <= |families|
      invariant forall k | 0 <= k < i :: texts[k] == FamilyText(families[k])
    {
      texts[i] := ByteSlice(families[i]);
      i := i + 1;
    }
  }

  class MetricsStore {
    /** Rendered families per object, keyed by UID. */
    var metrics: Entries
    const headers: seq<string>
    const gens: seq<FamilyGenerator>

    /** Every entry has one text per header: scraping indexes nothing out of range. */
    ghost predicate Valid()
      reads this
    {
      |headers| == |gens| && Uniform(metrics, |headers|)
    }

    /** One text per family of the object is put under its UID, and nothing else changes. */
    ghost predicate Stores(before: Entries, o: Object, after: Entries) {
      && o.HasMeta() && after.Keys == before.Keys + {o.uid}
      && (forall u | u in before && u != o.uid :: after[u] == before[u])
      && |after[o.uid]| == |gens|
      && forall i | 0 <= i < |gens| ::
           after[o.uid][i] == FamilyText(Family(gens[i].name, gens[i].kind, gens[i].generate(o)))
    }

    constructor (headers: seq<string>, gens: seq<FamilyGenerator>)
      requires |headers| == |gens|
      ensures Valid() && metrics == map[] && this.headers == headers && this.gens == gens
    {
      this.headers := headers;
      this.gens := gens;
      metrics := map[];
    }

    /** Renders every family of the object, then stores the texts under its UID. */
    method Add(o: Object) returns (failed: bool)
      requires Valid()
      modifies this
      ensures Valid()
      ensures failed <==> !o.HasMeta()
      ensures metrics == Insert(Renderer(gens), old(metrics), o)
      ensures if failed then metrics == old(metrics) else Stores(old(metrics), o, metrics)
    {
      if !o.HasMeta() {
        return true;
      }
      var families := ComposeFamilies(gens, o);
      var texts := RenderFamilies(families[..]);
      metrics := metrics[o.uid := texts[..]];
      failed := false;
    }

    method Update(o: Object) returns (failed: bool)
      requires Valid()
      modifies this
      ensures Valid()
      ensures failed <==> !o.HasMeta()
      ensures metrics == Insert(Renderer(gens), old(metrics), o)
      ensures if failed then metrics == old(metrics) else Stores(old(metrics), o, metrics)
    {
      failed := Add(o);
    }

    method Delete(o: Object) returns (failed: bool)
      requires Valid()
      modifies this
      ensures Valid()
      ensures failed <==> !o.HasMeta()
      ensures metrics == Remove(old(metrics), o)
      ensures if failed then metrics == old(metrics)
              else metrics == map u | u in old(metrics) && u != o.uid :: old(metrics)[u]
    {
      if !o.HasMeta() {
        return true;
      }
      metrics := metrics - {o.uid};
      failed := false;
    }

    /** Empties the store, then adds the list; the first failing object ends it. */
    method Replace(list: seq<Object>) returns (failed: bool)
      requires Valid()
      modifies this
      ensures Valid()
      ensures failed <==> !AllMeta(list)
      ensures metrics == InsertAll(Renderer(gens), map[], list)
    {
      metrics := map[];
      var i := 0;
      while i < |list|
        invariant 0 <= i <= |list|
        invariant Valid()
        invariant AllMeta(list[..i])
        invariant InsertAll(Renderer(gens), metrics, list[i..]) == InsertAll(Renderer(gens), map[], list)
      {
        assert list[i..][1..] == list[i + 1..];
        failed := Add(list[i]);
        if failed {
          return;
        }
        i := i + 1;
      }
      assert list[..i] == list;
      failed := false;
    }

    /** Writes every header with the texts of its family, in the iteration orders given. */
    method WriteAll(w: Builder, orders: seq<seq<Uid>>)
      requires Valid()
      requires AreOrders(orders, |headers|, metrics.Keys)
      modifies w
      ensures w.text == old(w.text) + TextFrom(headers, metrics, orders, 0)
    {
      var i := 0;
      while i < |headers|
        invariant 0 <= i <= |headers|
        invariant w.text + TextFrom(headers, metrics, orders, i) == old(w.text) + TextFrom(headers, metrics, orders, 0)
      {
        ghost var before, rest := w.text, TextFrom(headers, metrics, orders, i + 1);
        w.WriteString(headers[i]);
        w.WriteString("\n");
        var order := orders[i];
        ghost var column := Column(metrics, order, i);
        var j := 0;
        while j < |order|
          invariant 0 <= j <= |order|
          invariant w.text + Column(metrics, order[j..], i) == before + headers[i] + "\n" + column
        {
          var entry := metrics[order[j]];
          Column1(metrics, order, i, j);
          ghost var text, tail := w.text, Column(metrics, order[j + 1..], i);
          w.WriteString(entry[i]);
          Assoc(text, entry[i], tail);
          j := j + 1;
        }
        assert w.text == before + headers[i] + "\n" + column;
        Assoc(before + headers[i] + "\n", column, rest);
        SectionAssoc(before, headers[i], column, rest);
        i := i + 1;
      }
    }
  }

  lemma Column1(m: Entries, order: seq<Uid>, i: nat, j: nat)
    requires j < |order|
    requires forall u | u in order :: u in m && i < |m[u]|
    ensures Column(m, order[j..], i) == m[order[j]][i] + Column(m, order[j + 1..], i)
  {
  }

  lemma SectionAssoc(before: string, header: string, column: string, rest: string)
    ensures before + header + "\n" + column + rest == before + (header + "\n" + column + rest)
  {
  }

  /** `buildStore`: filter the families, extract their headers, and make a store of both. */
  method BuildStore(included: string -> bool, families: seq<FamilyGenerator>) returns (store: MetricsStore)
    ensures fresh(store) && store.Valid() && store.metrics == map[]
    ensures store.gens == Filter(families, (g: FamilyGenerator) => included(g.name))
    ensures store.headers == Headers(store.gens)
  {
    var filtered := FilterMetricFamilies(included, families);
    var headers := ExtractMetricFamilyHeaders(filtered);
    store := new MetricsStore(headers[..], filtered);
  }

  /** Reaching the class's contents by operations gives the rendering of the live objects, ready to be scraped. */
  lemma StoreHoldsRendering(gens: seq<FamilyGenerator>, ops: seq<Op>)
    ensures Contents(Renderer(gens), ops) == RenderAll(gens, Contents(Self, ops))
    ensures Uniform(Contents(Renderer(gens), ops), |Headers(gens)|)
  {
    RenderEagerIsRenderOnDemand(Renderer(gens), ops);
  }
}
