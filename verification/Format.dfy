/**
 What makes an exposition legal, beyond its syntax: the rules of the Prometheus text exposition format 0.0.4 on names,
 help texts, types, labels and series, and a reader that holds an exposition to them.
 */
module Format {
  import opened Kube
  import opened Text
  import opened Parser

  type Labels = seq<(string, string)>

  predicate Letter(c: char) {
    'a' <= c <= 'z' || 'A' <= c <= 'Z' || c == '_'
  }

  predicate LetterOrDigit(c: char) {
    Letter(c) || '0' <= c <= '9'
  }

  predicate MetricName(s: string) {
    s != "" && (Letter(s[0]) || s[0] == ':') && forall c | c in s :: LetterOrDigit(c) || c == ':'
  }

  /** `__name__` is reserved for the name of the metric. */
  predicate LabelName(s: string) {
    s != "" && s != "__name__" && Letter(s[0]) && forall c | c in s :: LetterOrDigit(c)
  }

  function SkipBlanks(s: string): string {
    if s != "" && s[0] in {' ', '\t'} then SkipBlanks(s[1..]) else s
  }

  /** A help text: `\\` stands for a backslash and `\n` for a newline; there are no other escapes. */
  function Unescape(s: string): Option<string> {
    if s == "" then Some("")
    else if s[0] != '\\' then
      match Unescape(s[1..])
      case None => None
      case Some(rest) => Some([s[0]] + rest)
    else if |s| < 2 || s[1] !in {'\\', 'n'} then None
    else
      match Unescape(s[2..])
      case None => None
      case Some(rest) => Some([if s[1] == 'n' then '\n' else '\\'] + rest)
  }

  const KINDS := {"counter", "gauge", "histogram", "summary", "untyped"}

  predicate HeaderLegal(name: string, help: string, kind: string) {
    MetricName(name) && Unescape(SkipBlanks(help)).Some? && SkipBlanks(kind) in KINDS
  }

  predicate DistinctLabels(labels: Labels) {
    forall i, j | 0 <= i < j < |labels| :: labels[i].0 != labels[j].0
  }

  /** A summary shows quantiles under its own name; a histogram shows nothing under its own name. */
  predicate KindAllows(kind: string, labels: Labels) {
    && kind != "histogram"
    && (kind == "summary" ==>
          exists i :: 0 <= i < |labels| && labels[i].0 == "quantile" && ReadValue(labels[i].1).Some?)
  }

  predicate SampleLegal(kind: string, labels: Labels) {
    && (forall i | 0 <= i < |labels| :: LabelName(labels[i].0))
    && DistinctLabels(labels) && KindAllows(kind, labels)
  }

  function LabelSet(labels: Labels): set<(string, string)> {
    set pair | pair in labels
  }

  /** No two samples of a group have the same labels. */
  predicate UniqueSeries(samples: seq<Sample>) {
    forall i, j | 0 <= i < j < |samples| :: LabelSet(samples[i].labels) != LabelSet(samples[j].labels)
  }

  predicate GroupLegal(g: Group) {
    && HeaderLegal(g.name, g.help, g.kind)
    && (forall i | 0 <= i < |g.samples| :: SampleLegal(SkipBlanks(g.kind), g.samples[i].labels))
    && UniqueSeries(g.samples)
  }

  /** The names a family takes: summaries and histograms take some with a suffix. */
  function NamesTaken(name: string, kind: string): set<string> {
    {name}
    + (if kind in {"summary", "histogram"} then {name + "_sum", name + "_count"} else {})
    + (if kind == "histogram" then {name + "_bucket"} else {})
  }

  predicate DistinctNames(groups: seq<Group>) {
    forall i, j | 0 <= i < j < |groups| ::
      NamesTaken(groups[i].name, SkipBlanks(groups[i].kind)) !! NamesTaken(groups[j].name, SkipBlanks(groups[j].kind))
  }

  predicate Legal(groups: seq<Group>) {
    (forall i | 0 <= i < |groups| :: GroupLegal(groups[i])) && DistinctNames(groups)
  }

  /** The group as it is meant, its help text unescaped. */
  function Decoded(g: Group): Group
    requires HeaderLegal(g.name, g.help, g.kind)
  {
    g.(help := Unescape(SkipBlanks(g.help)).value, kind := SkipBlanks(g.kind))
  }

  function DecodedAll(groups: seq<Group>): (decoded: seq<Group>)
    requires Legal(groups)
    ensures |decoded| == |groups|
  {
    seq(|groups|, i requires 0 <= i < |groups| => Decoded(groups[i]))
  }

  /** Reads a whole exposition, and refuses one that is not legal. */
  function ReadExposition(text: string): Option<seq<Group>> {
    if !Terminated(text) then None
    else
      match ReadGroups(Lines(text))
      case None => None
      case Some(groups) => if Legal(groups) then Some(DecodedAll(groups)) else None
  }

  lemma ReadWhole(text: string, groups: seq<Group>)
    requires Terminated(text) && ReadGroups(Lines(text)) == Some(groups)
    ensures ReadExposition(text) == if Legal(groups) then Some(DecodedAll(groups)) else None
  {
  }

  lemma {:induction false} UnescapeShrinks(s: string)
    ensures Unescape(s).Some? ==> |Unescape(s).value| <= |s|
    ensures Unescape(s).Some? && '\\' in s ==> |Unescape(s).value| < |s|
    ensures '\\' !in s ==> Unescape(s) == Some(s)
  {
    if s != "" {
      assert [s[0]] + s[1..] == s;
      UnescapeShrinks(s[1..]);
      if s[0] == '\\' && |s| >= 2 {
        UnescapeShrinks(s[2..]);
      }
    }
  }

  lemma {:induction false} SkipBlanksShrinks(s: string)
    ensures |SkipBlanks(s)| <= |s|
    ensures |SkipBlanks(s)| == |s| <==> s == "" || s[0] !in {' ', '\t'}
    ensures |SkipBlanks(s)| == |s| ==> SkipBlanks(s) == s
  {
    if s != "" && s[0] in {' ', '\t'} {
      SkipBlanksShrinks(s[1..]);
    }
  }

  /** A help text, which is written unescaped, is read as it was iff it holds no backslash and starts with no blank. */
  lemma HelpReadsBackIff(help: string)
    ensures Unescape(SkipBlanks(help)) == Some(help) <==> '\\' !in help && (help == "" || help[0] !in {' ', '\t'})
  {
    SkipBlanksShrinks(help);
    UnescapeShrinks(SkipBlanks(help));
  }

  /** A backslash before any other character than a backslash or `n` makes a help text illegal. */
  lemma StrayBackslash(before: string, c: char, after: string)
    requires '\\' !in before && c !in {'\\', 'n'}
    ensures Unescape(before + ['\\', c] + after) == None
  {
    var s := before + ['\\', c] + after;
    if before != "" {
      StrayBackslash(before[1..], c, after);
      assert s[1..] == before[1..] + ['\\', c] + after;
    }
  }

  /** The escaping that the format asks of whoever writes a help text. */
  function EscapeHelp(s: string): string {
    if s == "" then ""
    else (if s[0] == '\\' then "\\\\" else if s[0] == '\n' then "\\n" else [s[0]]) + EscapeHelp(s[1..])
  }

  lemma UnescapeEscapedChar(c: char, tail: string)
    requires Unescape(tail).Some?
    ensures var escaped := if c == '\\' then "\\\\" else if c == '\n' then "\\n" else [c];
            Unescape(escaped + tail) == Some([c] + Unescape(tail).value)
  {
    if c in {'\\', '\n'} {
      var text := (if c == '\\' then "\\\\" else "\\n") + tail;
      assert text[0] == '\\' && text[1] == (if c == '\n' then 'n' else '\\');
      assert text[2..] == tail;
    } else {
      assert ([c] + tail)[1..] == tail;
    }
  }

  /** Reading undoes that escaping for every help text, newlines included. */
  lemma {:induction false} UnescapeEscaped(s: string)
    ensures Unescape(EscapeHelp(s)) == Some(s)
  {
    if s != "" {
      UnescapeEscaped(s[1..]);
      UnescapeEscapedChar(s[0], EscapeHelp(s[1..]));
      assert [s[0]] + s[1..] == s;
    }
  }

  /** Skipping blanks takes off blanks in front, all of them, and nothing else. */
  lemma {:induction false} SkipBlanksPadded(blanks: string, s: string)
    requires forall i | 0 <= i < |blanks| :: blanks[i] in {' ', '\t'}
    requires s == "" || s[0] !in {' ', '\t'}
    ensures SkipBlanks(blanks + s) == s
  {
    if blanks == "" {
      assert blanks + s == s;
    } else {
      SkipBlanksPadded(blanks[1..], s);
      assert (blanks + s)[1..] == blanks[1..] + s;
    }
  }

  /** Legal names hold none of the delimiters of the syntax. */
  lemma LegalNamesAreReadable(name: string)
    ensures MetricName(name) ==> NameOk(name)
    ensures LabelName(name) ==> KeyOk(name)
  {
  }
}
