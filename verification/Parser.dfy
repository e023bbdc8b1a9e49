/** The syntax of the Prometheus text exposition format 0.0.4: a reader written independently of the printer. */
module Parser {
  import opened Kube
  import opened Text
  import opened Exposition
  import opened Seqs

  datatype Sample = Sample(name: string, labels: seq<(string, string)>, value: Value)

  /** One metric family of an exposition: what its HELP and TYPE lines say, as written, then its samples. */
  datatype Group = Group(name: string, help: string, kind: string, samples: seq<Sample>)

  /** Cuts a text before the first character of `stops`. */
  function Cut(s: string, stops: set<char>): (r: (string, string))
    ensures s == r.0 + r.1
  {
    if s == "" || s[0] in stops then ("", s)
    else
      var (a, b) := Cut(s[1..], stops);
      ([s[0]] + a, b)
  }

  /** Reads an escaped label value up to its closing quote. */
  function ReadQuoted(s: string): (r: Option<(string, string)>)
    ensures r.Some? ==> |r.value.1| < |s|
    decreases |s|
  {
    if s == "" || s[0] == '\n' then None
    else if s[0] == '"' then Some(("", s[1..]))
    else if s[0] == '\\' then
      if |s| < 2 || s[1] !in {'\\', 'n', '"'} then None
      else
        match ReadQuoted(s[2..])
        case None => None
        case Some((v, rest)) => Some(([if s[1] == 'n' then '\n' else s[1]] + v, rest))
    else
      match ReadQuoted(s[1..])
      case None => None
      case Some((v, rest)) => Some(([s[0]] + v, rest))
  }

  /** Reads `key="value"` pairs, separated by commas, up to the closing brace. */
  function ReadLabels(s: string): Option<(seq<(string, string)>, string)>
    decreases |s|
  {
    var (key, rest) := Cut(s, {'='});
    if |rest| < 2 || rest[1] != '"' then None
    else
      match ReadQuoted(rest[2..])
      case None => None
      case Some((value, rest')) =>
        if rest' == "" then None
        else if rest'[0] == '}' then Some(([(key, value)], rest'[1..]))
        else if rest'[0] != ',' then None
        else
          match ReadLabels(rest'[1..])
          case None => None
          case Some((more, rest'')) => Some(([(key, value)] + more, rest''))
  }

  function ReadValue(s: string): Option<Value> {
    if s == "NaN" then Some(NaN)
    else if s == "+Inf" then Some(PosInf)
    else if s == "-Inf" then Some(NegInf)
    else if NumeralText(s) then Some(Finite(s))
    else None
  }

  /** Reads the space and the number that end a sample line. */
  function ReadEnd(name: string, labels: seq<(string, string)>, tail: string): Option<Sample> {
    if tail == "" || tail[0] != ' ' then None
    else
      match ReadValue(tail[1..])
      case None => None
      case Some(v) => Some(Sample(name, labels, v))
  }

  /** Reads what follows the name. */
  function ReadTail(name: string, rest: string): Option<Sample> {
    if rest != "" && rest[0] == '{' then
      match ReadLabels(rest[1..])
      case None => None
      case Some((labels, tail)) => ReadEnd(name, labels, tail)
    else ReadEnd(name, [], rest)
  }

  function ReadSample(line: string): Option<Sample> {
    var (name, rest) := Cut(line, {'{', ' '});
    ReadTail(name, rest)
  }

  /** Reads the sample lines at the head of `lines`, up to the first comment. */
  function ReadSamples(lines: seq<string>, name: string): (r: Option<(seq<Sample>, seq<string>)>)
    ensures r.Some? ==> |r.value.1| <= |lines|
  {
    if lines == [] || (lines[0] != "" && lines[0][0] == '#') then Some(([], lines))
    else
      match ReadSample(lines[0])
      case None => None
      case Some(sample) =>
        if sample.name != name then None
        else
          match ReadSamples(lines[1..], name)
          case None => None
          case Some((more, rest)) => Some(([sample] + more, rest))
  }

  /** Reads `<prefix><name> <text>`. */
  function ReadComment(prefix: string, line: string): Option<(string, string)> {
    if !(prefix <= line) then None
    else
      var (name, rest) := Cut(line[|prefix|..], {' '});
      if rest == "" then None else Some((name, rest[1..]))
  }

  /** Reads whole groups: HELP, then TYPE of the same name, then samples of that name. */
  function ReadGroups(lines: seq<string>): Option<seq<Group>>
    decreases |lines|
  {
    if lines == [] then Some([])
    else if |lines| == 1 then None
    else
      match (ReadComment("# HELP ", lines[0]), ReadComment("# TYPE ", lines[1]))
      case (Some((name, help)), Some((name', kind))) =>
        if name != name' then None
        else (
          match ReadSamples(lines[2..], name)
          case None => None
          case Some((samples, rest)) =>
            match ReadGroups(rest)
            case None => None
            case Some(groups) => Some([Group(name, help, kind, samples)] + groups)
        )
      case _ => None
  }

  // ---- printing, then reading

  predicate NameOk(name: string) {
    name != "" && name[0] != '#' && forall c | c in name :: c !in {'{', ' ', '\n'}
  }

  predicate KeyOk(key: string) {
    forall c | c in key :: c !in {'=', '\n'}
  }

  predicate MetricOk(m: Metric) {
    m.Paired() && forall i | 0 <= i < |m.labelKeys| :: KeyOk(m.labelKeys[i])
  }

  predicate AllOk(ms: seq<Metric>) {
    forall i | 0 <= i < |ms| :: MetricOk(ms[i])
  }

  function Zip(keys: seq<string>, values: seq<string>, i: nat): (z: seq<(string, string)>)
    requires |keys| == |values| && i <= |keys|
    ensures |z| == |keys| - i
    ensures forall k | 0 <= k < |z| :: z[k] == (keys[i + k], values[i + k])
    decreases |keys| - i
  {
    if i == |keys| then [] else [(keys[i], values[i])] + Zip(keys, values, i + 1)
  }

  /** The sample a metric stands for. */
  function SampleOf(name: string, m: Metric): Sample
    requires m.Paired()
  {
    Sample(name, Zip(m.labelKeys, m.labelValues, 0), Canonical(m.value))
  }

  function Samples(name: string, ms: Metrics): (samples: seq<Sample>)
    ensures |samples| == |ms|
    ensures forall i | 0 <= i < |ms| :: samples[i] == SampleOf(name, ms[i])
  {
    seq(|ms|, i requires 0 <= i < |ms| => SampleOf(name, ms[i]))
  }

  lemma {:induction false} CutAt(a: string, b: string, stops: set<char>)
    requires forall c | c in a :: c !in stops
    requires b != "" && b[0] in stops
    ensures Cut(a + b, stops) == (a, b)
  {
    if a == "" {
      assert a + b == b;
    } else {
      CutAt(a[1..], b, stops);
      assert (a + b)[1..] == a[1..] + b;
      assert [a[0]] + a[1..] == a;
    }
  }

  lemma ReadEscapedChar(c: char, tail: string)
    requires ReadQuoted(tail).Some?
    ensures var (v, rest) := ReadQuoted(tail).value;
            ReadQuoted(EscapeChar(c) + tail) == Some(([c] + v, rest))
  {
    if c in {'\\', '\n', '"'} {
      var text := EscapeChar(c) + tail;
      assert text[0] == '\\' && text[1] == (if c == '\n' then 'n' else c);
      assert text[2..] == tail;
    } else {
      assert ([c] + tail)[1..] == tail;
    }
  }

  /** Reading undoes escaping, whatever the value holds. */
  lemma {:induction false} ReadEscaped(v: string, rest: string)
    ensures ReadQuoted(Escape(v) + "\"" + rest) == Some((v, rest))
  {
    if v == "" {
      assert Escape(v) + "\"" + rest == "\"" + rest;
    } else {
      var tail := Escape(v[1..]) + "\"" + rest;
      ReadEscaped(v[1..], rest);
      ReadEscapedChar(v[0], tail);
      assert Escape(v) + "\"" + rest == EscapeChar(v[0]) + tail;
      assert [v[0]] + v[1..] == v;
    }
  }

  /** A label without its separator, and what follows it. */
  function LabelBody(key: string, value: string, after: string): string {
    key + ("=\"" + (Escape(value) + "\"" + after))
  }

  lemma LabelShape(separator: char, key: string, value: string, after: string)
    ensures LabelText([separator], key, value) + after == [separator] + LabelBody(key, value, after)
  {
  }

  /** Reads the key and the quoted value of a label, and stops behind the closing quote. */
  lemma ReadOneLabel(key: string, value: string, after: string)
    requires KeyOk(key)
    ensures var (k, rest) := Cut(LabelBody(key, value, after), {'='});
            k == key && |rest| >= 2 && rest[1] == '"' && ReadQuoted(rest[2..]) == Some((value, after))
  {
    var quoted := Escape(value) + "\"" + after;
    CutAt(key, "=\"" + quoted, {'='});
    assert ("=\"" + quoted)[2..] == quoted;
    ReadEscaped(value, after);
  }

  lemma ReadLastLabel(key: string, value: string, rest: string)
    requires KeyOk(key)
    ensures ReadLabels(LabelBody(key, value, "}" + rest)) == Some(([(key, value)], rest))
  {
    ReadOneLabel(key, value, "}" + rest);
    assert ("}" + rest)[1..] == rest;
  }

  lemma ReadFirstLabel(key: string, value: string, more: string)
    requires KeyOk(key) && ReadLabels(more).Some?
    ensures var (labels, rest) := ReadLabels(more).value;
            ReadLabels(LabelBody(key, value, [','] + more)) == Some(([(key, value)] + labels, rest))
  {
    ReadOneLabel(key, value, [','] + more);
    assert ([','] + more)[1..] == more;
  }

  lemma LabelsShape(keys: seq<string>, values: seq<string>, i: nat, rest: string)
    requires |keys| == |values| && i < |keys|
    ensures LabelsFrom(keys, values, i) + rest
         == [if i == 0 then '{' else ','] + LabelBody(keys[i], values[i], LabelsFrom(keys, values, i + 1) + rest)
  {
    var separator := if i == 0 then '{' else ',';
    var after := LabelsFrom(keys, values, i + 1);
    Assoc(LabelText([separator], keys[i], values[i]), after, rest);
    LabelShape(separator, keys[i], values[i], after + rest);
  }

  /** The labels from `i` on, printed before `rest`: `body` behind a separator, which reads as those labels. */
  predicate LabelsReadAs(keys: seq<string>, values: seq<string>, i: nat, rest: string, body: string)
    requires |keys| == |values| && i < |keys|
  {
    && LabelsFrom(keys, values, i) + rest == [if i == 0 then '{' else ','] + body
    && ReadLabels(body) == Some((Zip(keys, values, i), rest))
  }

  lemma LastLabel(keys: seq<string>, values: seq<string>, i: nat, rest: string) returns (body: string)
    requires |keys| == |values| && i + 1 == |keys| && KeyOk(keys[i])
    ensures LabelsReadAs(keys, values, i, rest, body)
  {
    body := LabelBody(keys[i], values[i], "}" + rest);
    LabelsShape(keys, values, i, rest);
    ReadLastLabel(keys[i], values[i], rest);
    assert Zip(keys, values, i) == [(keys[i], values[i])];
  }

  lemma FirstLabel(keys: seq<string>, values: seq<string>, i: nat, rest: string, more: string) returns (body: string)
    requires |keys| == |values| && i + 1 < |keys| && KeyOk(keys[i])
    requires LabelsReadAs(keys, values, i + 1, rest, more)
    ensures LabelsReadAs(keys, values, i, rest, body)
  {
    body := LabelBody(keys[i], values[i], [','] + more);
    LabelsShape(keys, values, i, rest);
    ReadFirstLabel(keys[i], values[i], more);
  }

  lemma {:induction false} ReadLabelsFrom(keys: seq<string>, values: seq<string>, i: nat, rest: string)
    returns (body: string)
    requires |keys| == |values| && i < |keys|
    requires forall k | 0 <= k < |keys| :: KeyOk(keys[k])
    ensures LabelsReadAs(keys, values, i, rest, body)
    decreases |keys| - i
  {
    if i + 1 == |keys| {
      body := LastLabel(keys, values, i, rest);
    } else {
      var more := ReadLabelsFrom(keys, values, i + 1, rest);
      body := FirstLabel(keys, values, i, rest, more);
    }
  }

  lemma ReadAppendFloat(v: Value)
    ensures ReadValue(AppendFloat(v)) == Some(v)
  {
    assert !NumeralText("NaN") by {
      assert "NaN"[0] in "NaN";
    }
    assert !NumeralText("+Inf") by {
      assert "+Inf"[1] in "+Inf";
    }
    assert !NumeralText("-Inf") by {
      assert "-Inf"[1] in "-Inf";
    }
  }

  lemma ReadNumber(name: string, labels: seq<(string, string)>, v: Value)
    ensures ReadEnd(name, labels, " " + AppendFloat(v)) == Some(Sample(name, labels, v))
  {
    ReadAppendFloat(v);
    assert (" " + AppendFloat(v))[1..] == AppendFloat(v);
  }

  lemma ReadBraced(name: string, body: string, labels: seq<(string, string)>, v: Value)
    requires ReadLabels(body) == Some((labels, " " + AppendFloat(v)))
    ensures ReadTail(name, ['{'] + body) == Some(Sample(name, labels, v))
  {
    ReadNumber(name, labels, v);
    assert (['{'] + body)[1..] == body;
  }

  lemma ReadLabelled(name: string, keys: seq<string>, values: seq<string>, v: Value)
    requires |keys| == |values| && keys != []
    requires forall k | 0 <= k < |keys| :: KeyOk(keys[k])
    ensures var text := LabelsFrom(keys, values, 0) + (" " + AppendFloat(v));
            ReadTail(name, text) == Some(Sample(name, Zip(keys, values, 0), v)) && text[0] == '{'
  {
    var body := ReadLabelsFrom(keys, values, 0, " " + AppendFloat(v));
    ReadBraced(name, body, Zip(keys, values, 0), v);
  }

  lemma ReadMetricText(name: string, m: Metric)
    requires MetricOk(m)
    ensures ReadTail(name, MetricText(m)) == Some(SampleOf(name, m))
    ensures MetricText(m)[0] in {'{', ' '}
  {
    var v := Canonical(m.value);
    Assoc(LabelsText(m.labelKeys, m.labelValues), " ", AppendFloat(v));
    if |m.labelKeys| > 0 {
      ReadLabelled(name, m.labelKeys, m.labelValues, v);
    } else {
      ReadNumber(name, [], v);
      assert "" + (" " + AppendFloat(v)) == " " + AppendFloat(v);
    }
  }

  /** One line gives back the name, the labels in order, and the value. */
  lemma ReadSampleLine(name: string, m: Metric)
    requires NameOk(name) && MetricOk(m)
    ensures ReadSample(SampleLine(name, m)) == Some(SampleOf(name, m))
    ensures var sample := SampleOf(name, m);
            && sample.name == name && |sample.labels| == |m.labelKeys|
            && (forall i | 0 <= i < |m.labelKeys| :: sample.labels[i] == (m.labelKeys[i], m.labelValues[i]))
            && sample.value == (if m.value == Finite("-0") then Finite("0") else m.value)
  {
    ReadMetricText(name, m);
    CutAt(name, MetricText(m), {'{', ' '});
  }

  lemma {:induction false} EscapeNoNewline(v: string)
    ensures '\n' !in Escape(v)
  {
    if v != "" {
      EscapeNoNewline(v[1..]);
    }
  }

  lemma LabelNoNewline(separator: string, key: string, value: string)
    requires KeyOk(key) && '\n' !in separator
    ensures '\n' !in LabelText(separator, key, value)
  {
    EscapeNoNewline(value);
  }

  lemma {:induction false} LabelsNoNewline(keys: seq<string>, values: seq<string>, i: nat)
    requires |keys| == |values| && i <= |keys|
    requires forall k | 0 <= k < |keys| :: KeyOk(keys[k])
    ensures '\n' !in LabelsFrom(keys, values, i)
    decreases |keys| - i
  {
    if i < |keys| {
      LabelNoNewline(if i == 0 then "{" else ",", keys[i], values[i]);
      LabelsNoNewline(keys, values, i + 1);
    }
  }

  /** A sample line is one line, and not a comment. */
  lemma SampleLineShape(name: string, m: Metric)
    requires NameOk(name) && MetricOk(m)
    ensures '\n' !in SampleLine(name, m)
    ensures SampleLine(name, m) != "" && SampleLine(name, m)[0] != '#'
  {
    if |m.labelKeys| > 0 {
      LabelsNoNewline(m.labelKeys, m.labelValues, 0);
    }
    var v := Canonical(m.value);
    assert '\n' !in AppendFloat(v);
    assert SampleLine(name, m)[0] == name[0] && name[0] in name;
  }

  lemma {:induction false} LinesUnlines(lines: seq<string>)
    requires forall i | 0 <= i < |lines| :: '\n' !in lines[i]
    ensures Lines(Unlines(lines)) == lines && Terminated(Unlines(lines))
  {
    if lines != [] {
      LinesUnlines(lines[1..]);
      LinesAt(lines[0], Unlines(lines[1..]));
      assert [lines[0]] + lines[1..] == lines;
    }
  }

  /** The lines of a rendered family are exactly its sample lines, one per metric. */
  lemma FamilyLines(f: Family)
    requires NameOk(f.name) && AllOk(f.metrics)
    ensures Lines(FamilyText(f)) == SampleLines(f.name, f.metrics)
    ensures Terminated(FamilyText(f))
  {
    forall i | 0 <= i < |f.metrics| ensures '\n' !in SampleLines(f.name, f.metrics)[i] {
      SampleLineShape(f.name, f.metrics[i]);
    }
    LinesUnlines(SampleLines(f.name, f.metrics));
  }

  predicate EndsSamples(rest: seq<string>) {
    rest == [] || (rest[0] != "" && rest[0][0] == '#')
  }

  /** `line` reads back as `sample`, and is not taken for a comment. */
  predicate Reads(line: string, sample: Sample, name: string) {
    line != "" && line[0] != '#' && ReadSample(line) == Some(sample) && sample.name == name
  }

  lemma ReadSamplesCons(line: string, sample: Sample, name: string, tail: seq<string>)
    requires Reads(line, sample, name) && ReadSamples(tail, name).Some?
    ensures var (more, rest) := ReadSamples(tail, name).value;
            ReadSamples([line] + tail, name) == Some(([sample] + more, rest))
  {
  }

  lemma {:induction false} ReadSamplesAll(lines: seq<string>, samples: seq<Sample>, name: string, rest: seq<string>)
    requires |lines| == |samples| && EndsSamples(rest)
    requires forall i | 0 <= i < |lines| :: Reads(lines[i], samples[i], name)
    ensures ReadSamples(lines + rest, name) == Some((samples, rest))
  {
    if lines == [] {
      assert lines + rest == rest;
    } else {
      ReadSamplesAll(lines[1..], samples[1..], name, rest);
      ReadSamplesCons(lines[0], samples[0], name, lines[1..] + rest);
      HeadFirst(lines, rest);
      HeadFirst(samples, []);
    }
  }

  lemma ReadSampleLines(name: string, ms: Metrics, rest: seq<string>)
    requires NameOk(name) && AllOk(ms) && EndsSamples(rest)
    ensures ReadSamples(SampleLines(name, ms) + rest, name) == Some((Samples(name, ms), rest))
  {
    forall i | 0 <= i < |ms| ensures Reads(SampleLines(name, ms)[i], Samples(name, ms)[i], name) {
      SampleLineShape(name, ms[i]);
      ReadSampleLine(name, ms[i]);
    }
    ReadSamplesAll(SampleLines(name, ms), Samples(name, ms), name, rest);
  }

  /** Printing then reading is the identity: names, labels and values come back in order. */
  lemma PrintReadFamily(f: Family)
    requires NameOk(f.name) && AllOk(f.metrics)
    ensures |Lines(FamilyText(f))| == |f.metrics|
    ensures ReadSamples(Lines(FamilyText(f)), f.name) == Some((Samples(f.name, f.metrics), []))
  {
    FamilyLines(f);
    ReadSampleLines(f.name, f.metrics, []);
    assert SampleLines(f.name, f.metrics) + [] == SampleLines(f.name, f.metrics);
  }

  /** Two metrics agree up to the sign of zero. */
  predicate SameMetric(a: Metric, b: Metric) {
    && a.labelKeys == b.labelKeys && a.labelValues == b.labelValues
    && (a.value == b.value || (a.value in {Finite("0"), Finite("-0")} && b.value in {Finite("0"), Finite("-0")}))
  }

  /** The printer is injective: equal texts come from equal families. */
  lemma PrintInjective(name: string, kind: string, kind': string, a: Metrics, b: Metrics)
    requires NameOk(name) && AllOk(a) && AllOk(b)
    requires FamilyText(Family(name, kind, a)) == FamilyText(Family(name, kind', b))
    ensures |a| == |b| && forall i | 0 <= i < |a| :: SameMetric(a[i], b[i])
  {
    PrintReadFamily(Family(name, kind, a));
    PrintReadFamily(Family(name, kind', b));
    var sa, sb := Samples(name, a), Samples(name, b);
    forall i | 0 <= i < |a| ensures SameMetric(a[i], b[i]) {
      assert sa[i] == sb[i];
      var za, zb := Zip(a[i].labelKeys, a[i].labelValues, 0), Zip(b[i].labelKeys, b[i].labelValues, 0);
      assert |za| == |a[i].labelKeys| == |b[i].labelKeys|;
      forall k | 0 <= k < |za|
        ensures a[i].labelKeys[k] == b[i].labelKeys[k] && a[i].labelValues[k] == b[i].labelValues[k]
      {
        assert za[k] == zb[k];
      }
    }
  }
}
