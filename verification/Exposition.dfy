/** The Prometheus text printer of pkg/metric. */
module Exposition {
  import opened Seqs

  /** The characters of a shortest decimal float: digits, sign, point and exponent. */
  predicate NumeralText(s: string) {
    s != "" && forall c | c in s :: '0' <= c <= '9' || c in {'+', '-', '.', 'e'}
  }

  type Numeral = s: string | NumeralText(s) witness "0"

  /** A float64. A finite value is identified with the text `strconv.AppendFloat(f, 'g', -1, 64)` gives it. */
  datatype Value = NaN | PosInf | NegInf | Finite(digits: Numeral)

  const ONE: Value := Finite("1")
  const ZERO: Value := Finite("0")

  /** One time series. */
  datatype Metric = Metric(labelKeys: seq<string>, labelValues: seq<string>, value: Value) {
    /** `Write` panics unless this holds. */
    predicate Paired() {
      |labelKeys| == |labelValues|
    }
  }

  predicate AllPaired(ms: seq<Metric>) {
    forall i | 0 <= i < |ms| :: ms[i].Paired()
  }

  /** Metrics that `Write` accepts without a panic. */
  type Metrics = ms: seq<Metric> | AllPaired(ms) witness []

  datatype Family = Family(name: string, kind: string, metrics: Metrics)

  /** Go's `==` on floats identifies minus zero with zero. */
  function Canonical(v: Value): Value {
    if v == Finite("-0") then ZERO else v
  }

  /** What `strconv.AppendFloat` writes. */
  function AppendFloat(v: Value): string {
    match v
    case NaN => "NaN"
    case PosInf => "+Inf"
    case NegInf => "-Inf"
    case Finite(digits) => digits
  }

  function EscapeChar(c: char): string {
    if c == '\\' then "\\\\" else if c == '\n' then "\\n" else if c == '"' then "\\\"" else [c]
  }

  /** The replacer behind `escapeString`. */
  function Escape(v: string): string {
    if v == "" then "" else EscapeChar(v[0]) + Escape(v[1..])
  }

  /** One label: separator, key, and quoted value. */
  function LabelText(separator: string, key: string, value: string): string {
    separator + key + "=\"" + Escape(value) + "\""
  }

  /** The labels from index `i` on, and the closing brace. */
  function LabelsFrom(keys: seq<string>, values: seq<string>, i: nat): string
    requires |keys| == |values| && i <= |keys|
    decreases |keys| - i
  {
    if i == |keys| then "}"
    else LabelText(if i == 0 then "{" else ",", keys[i], values[i]) + LabelsFrom(keys, values, i + 1)
  }

  function LabelsText(keys: seq<string>, values: seq<string>): string
    requires |keys| == |values|
  {
    if |keys| > 0 then LabelsFrom(keys, values, 0) else ""
  }

  /** What follows the name on the line of a metric, without the newline. */
  function MetricText(m: Metric): string
    requires m.Paired()
  {
    LabelsText(m.labelKeys, m.labelValues) + " " + AppendFloat(Canonical(m.value))
  }

  /** The line of one metric, without its newline. */
  function SampleLine(name: string, m: Metric): string
    requires m.Paired()
  {
    name + MetricText(m)
  }

  function SampleLines(name: string, ms: Metrics): (lines: seq<string>)
    ensures |lines| == |ms|
  {
    seq(|ms|, i requires 0 <= i < |ms| => SampleLine(name, ms[i]))
  }

  /** Lines, each followed by a newline. */
  function Unlines(lines: seq<string>): string {
    if lines == [] then "" else lines[0] + "\n" + Unlines(lines[1..])
  }

  function FamilyText(f: Family): string {
    Unlines(SampleLines(f.name, f.metrics))
  }

  lemma {:induction false} UnlinesAppend(a: seq<string>, b: seq<string>)
    ensures Unlines(a + b) == Unlines(a) + Unlines(b)
  {
    if a == [] {
      assert a + b == b;
    } else {
      UnlinesAppend(a[1..], b);
      TailFirst(a, b);
    }
  }

  /** Go's `strings.Builder`. */
  class Builder {
    var text: string

    constructor ()
      ensures text == ""
    {
      text := "";
    }

    method WriteString(s: string)
      modifies this
      ensures text == old(text) + s
    {
      text := text + s;
    }
  }

  /** The hard-coded cases of `writeFloat` agree with the general formatter, minus zero aside. */
  method WriteFloat(b: Builder, v: Value)
    modifies b
    ensures b.text == old(b.text) + (if v == Finite("-0") then "0" else AppendFloat(v))
  {
    if v == ONE {
      b.WriteString("1");
    } else if v == ZERO || v == Finite("-0") {
      b.WriteString("0");
    } else if v == Finite("-1") {
      b.WriteString("-1");
    } else if v == NaN {
      b.WriteString("NaN");
    } else if v == PosInf {
      b.WriteString("+Inf");
    } else if v == NegInf {
      b.WriteString("-Inf");
    } else {
      b.WriteString(AppendFloat(v));
    }
  }

  method WriteLabel(b: Builder, separator: string, key: string, value: string)
    modifies b
    ensures b.text == old(b.text) + LabelText(separator, key, value)
  {
    b.WriteString(separator);
    b.WriteString(key);
    b.WriteString("=\"");
    b.WriteString(Escape(value));
    b.WriteString("\"");
  }

  method LabelsToString(b: Builder, keys: seq<string>, values: seq<string>)
    requires |keys| == |values|
    modifies b
    ensures b.text == old(b.text) + LabelsText(keys, values)
  {
    if |keys| > 0 {
      var separator := "{";
      ghost var goal := b.text + LabelsFrom(keys, values, 0);
      var i := 0;
      while i < |keys|
        invariant 0 <= i <= |keys|
        invariant separator == if i == 0 then "{" else ","
        invariant b.text + LabelsFrom(keys, values, i) == goal
      {
        ghost var one, rest := LabelText(separator, keys[i], values[i]), LabelsFrom(keys, values, i + 1);
        Assoc(b.text, one, rest);
        WriteLabel(b, separator, keys[i], values[i]);
        separator := ",";
        i := i + 1;
      }
      b.WriteString("}");
    }
  }

  /** `Metric.Write`; unpaired labels are a panic, hence a demand on the caller. */
  method WriteMetric(b: Builder, m: Metric)
    requires m.Paired()
    modifies b
    ensures b.text == old(b.text) + MetricText(m) + "\n"
  {
    LabelsToString(b, m.labelKeys, m.labelValues);
    b.WriteString(" ");
    WriteFloat(b, m.value);
    b.WriteString("\n");
    assert b.text == old(b.text) + MetricText(m) + "\n";
  }

  lemma UnlinesSnoc(lines: seq<string>, i: nat)
    requires i < |lines|
    ensures Unlines(lines[..i + 1]) == Unlines(lines[..i]) + lines[i] + "\n"
  {
    assert lines[..i + 1] == lines[..i] + [lines[i]];
    UnlinesAppend(lines[..i], [lines[i]]);
  }

  /** `Family.ByteSlice`: one line per metric. */
  method ByteSlice(f: Family) returns (text: string)
    ensures text == FamilyText(f)
  {
    var b := new Builder();
    ghost var lines := SampleLines(f.name, f.metrics);
    var i := 0;
    while i < |f.metrics|
      invariant 0 <= i <= |f.metrics|
      invariant b.text == Unlines(lines[..i])
    {
      UnlinesSnoc(lines, i);
      Assoc(b.text, f.name, MetricText(f.metrics[i]));
      b.WriteString(f.name);
      WriteMetric(b, f.metrics[i]);
      i := i + 1;
    }
    assert lines[..i] == lines;
    text := b.text;
  }
}
