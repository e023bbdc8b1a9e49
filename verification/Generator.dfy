/** pkg/metric_generator: from family generators to headers and composed generators. */
module Generator {
  import opened Kube
  import opened Exposition
  import opened Seqs

  /** `generate` never yields metrics with unpaired labels; the printer panics on those. */
  datatype FamilyGenerator = FamilyGenerator(name: string, help: string, kind: string, generate: Object -> Metrics)

  /** Generates a family and gives it the generator's name and type. */
  function Generate(g: FamilyGenerator, o: Object): Family {
    Family(g.name, g.kind, g.generate(o))
  }

  function HelpLine(g: FamilyGenerator): string {
    "# HELP " + g.name + " " + g.help
  }

  function TypeLine(g: FamilyGenerator): string {
    "# TYPE " + g.name + " " + g.kind
  }

  function Header(g: FamilyGenerator): string {
    HelpLine(g) + "\n" + TypeLine(g)
  }

  function Headers(gens: seq<FamilyGenerator>): (headers: seq<string>)
    ensures |headers| == |gens|
  {
    seq(|gens|, i requires 0 <= i < |gens| => Header(gens[i]))
  }

  function Compose(gens: seq<FamilyGenerator>, o: Object): (families: seq<Family>)
    ensures |families| == |gens|
  {
    seq(|gens|, i requires 0 <= i < |gens| => Generate(gens[i], o))
  }

  method GenerateHeader(g: FamilyGenerator) returns (text: string)
    ensures text == Header(g)
  {
    var b := new Builder();
    b.WriteString("# HELP ");
    b.WriteString(g.name);
    b.WriteString(" ");
    b.WriteString(g.help);
    assert b.text == HelpLine(g);
    b.WriteString("\n");
    ghost var before := b.text;
    b.WriteString("# TYPE ");
    b.WriteString(g.name);
    b.WriteString(" ");
    b.WriteString(g.kind);
    assert b.text == before + TypeLine(g);
    text := b.text;
  }

  method ExtractMetricFamilyHeaders(gens: seq<FamilyGenerator>) returns (headers: array<string>)
    ensures fresh(headers) && headers[..] == Headers(gens)
  {
    headers := new string[|gens|];
    var i := 0;
    while i < |gens|
      invariant 0 <= i <= |gens|
      invariant forall k | 0 <= k < i :: headers[k] == Header(gens[k])
    {
      headers[i] := GenerateHeader(gens[i]);
      i := i + 1;
    }
  }

  /** The function `ComposeMetricGenFuncs` returns, applied: one named and typed family per generator. */
  method ComposeFamilies(gens: seq<FamilyGenerator>, o: Object) returns (families: array<Family>)
    ensures fresh(families) && families[..] == Compose(gens, o)
  {
    families := new Family[|gens|](_ => Family("", "", []));
    var i := 0;
    while i < |gens|
      invariant 0 <= i <= |gens|
      invariant forall k | 0 <= k < i :: families[k] == Generate(gens[k], o)
    {
      families[i] := Generate(gens[i], o);
      i := i + 1;
    }
  }

  /** The families whose name is included, in their order. */
  method FilterMetricFamilies(included: string -> bool, families: seq<FamilyGenerator>)
    returns (filtered: seq<FamilyGenerator>)
    ensures filtered == Filter(families, (g: FamilyGenerator) => included(g.name))
  {
    filtered := [];
    ghost var p := (g: FamilyGenerator) => included(g.name);
    var i := 0;
    while i < |families|
      invariant 0 <= i <= |families|
      invariant filtered == Filter(families[..i], p)
    {
      FilterSnoc(families, i, p);
      if included(families[i].name) {
        filtered := filtered + [families[i]];
      }
      i := i + 1;
    }
    assert families[..i] == families;
  }
}
