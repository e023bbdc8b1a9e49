/** internal/store/utils.go: Kubernetes labels become Prometheus labels. */
module Labels {
  import opened Seqs
  import opened Parser
  import opened Sorting
  import Format

  predicate LabelChar(c: char) {
    'a' <= c <= 'z' || 'A' <= c <= 'Z' || '0' <= c <= '9' || c == '_'
  }

  function CleanChar(c: char): char {
    if LabelChar(c) then c else '_'
  }

  /** Every character outside `[a-zA-Z0-9_]` becomes an underscore. */
  function SanitizeLabelName(s: string): (r: string)
    ensures |r| == |s| && forall i | 0 <= i < |s| :: r[i] == CleanChar(s[i]) && LabelChar(r[i])
    ensures forall i | 0 <= i < |s| ::
      r[i] == if 'a' <= s[i] <= 'z' || 'A' <= s[i] <= 'Z' || '0' <= s[i] <= '9' || s[i] == '_' then s[i] else '_'
  {
    seq(|s|, i requires 0 <= i < |s| => CleanChar(s[i]))
  }

  function LabelName(prefix: string, key: string): string {
    prefix + "_" + SanitizeLabelName(key)
  }

  /** The loop that overwrites the slice of keys it ranges over. */
  method ConvertInPlace(labels: map<string, string>, prefix: string, keys: array<string>) returns (values: seq<string>)
    requires forall i | 0 <= i < keys.Length :: keys[i] in labels
    modifies keys
    ensures |values| == keys.Length
    ensures forall i | 0 <= i < keys.Length ::
      keys[i] == prefix + "_" + SanitizeLabelName(old(keys[i])) && values[i] == labels[old(keys[i])]
  {
    values := [];
    var i := 0;
    while i < keys.Length
      invariant 0 <= i <= keys.Length && |values| == i
      invariant forall j | 0 <= j < i :: keys[j] == LabelName(prefix, old(keys[j])) && values[j] == labels[old(keys[j])]
      invariant forall j | i <= j < keys.Length :: keys[j] == old(keys[j])
    {
      var k := keys[i];
      keys[i] := LabelName(prefix, k);
      values := values + [labels[k]];
      i := i + 1;
    }
  }

  /**
   `mapToPrometheusLabels`: collect the keys (in the iteration order given), sort them, then overwrite the slice of
   keys while ranging over it.
   */
  method MapToPrometheusLabels(labels: map<string, string>, prefix: string, order: seq<string>)
    returns (keys: array<string>, values: seq<string>)
    requires IsOrder(order, labels.Keys)
    ensures fresh(keys) && keys.Length == |order| == |values|
    ensures Sorted(Sort(order)) && multiset(Sort(order)) == multiset(order) && |Sort(order)| == |order|
    ensures forall i | 0 <= i < |order| :: Sort(order)[i] in labels
    ensures forall i | 0 <= i < |order| :: keys[i] == prefix + "_" + SanitizeLabelName(Sort(order)[i])
    ensures forall i | 0 <= i < |order| :: values[i] == labels[Sort(order)[i]]
  {
    var raw := Sort(order);
    SortSorts(order);
    forall i | 0 <= i < |raw| ensures raw[i] in labels {
      assert raw[i] in multiset(raw);
    }
    keys := new string[|raw|](i requires 0 <= i < |raw| => raw[i]);
    values := ConvertInPlace(labels, prefix, keys);
  }

  /** Equal length, and different only in characters that both become underscores. */
  predicate Alike(a: string, b: string) {
    |a| == |b| && forall i | 0 <= i < |a| :: a[i] == b[i] || (CleanChar(a[i]) == '_' && CleanChar(b[i]) == '_')
  }

  /** Two output names coincide exactly when their raw keys are sanitised alike. */
  lemma NamesCollide(prefix: string, a: string, b: string)
    ensures LabelName(prefix, a) == LabelName(prefix, b) <==> Alike(a, b)
  {
    var x, y := SanitizeLabelName(a), SanitizeLabelName(b);
    var head := prefix + "_";
    assert LabelName(prefix, a)[|head|..] == x && LabelName(prefix, b)[|head|..] == y;
    if x == y {
      forall i | 0 <= i < |a| ensures a[i] == b[i] || (CleanChar(a[i]) == '_' && CleanChar(b[i]) == '_') {
        assert x[i] == y[i];
      }
    }
    if Alike(a, b) {
      assert x == y;
    }
  }

  /** Under a prefix that starts with a letter, converted names are label names the format allows. */
  lemma ConvertedNamesAreLegal(prefix: string, key: string)
    requires Format.LabelName(prefix) && prefix[0] != '_'
    ensures Format.LabelName(LabelName(prefix, key)) && KeyOk(LabelName(prefix, key))
  {
    var name, x := LabelName(prefix, key), SanitizeLabelName(key);
    forall c | c in name ensures Format.LetterOrDigit(c) {
      if c in x {
        var i :| 0 <= i < |x| && x[i] == c;
        assert LabelChar(x[i]);
      }
    }
    assert name[0] == prefix[0];
  }

  /** No two of the keys are sanitised alike. */
  predicate NoneAlike(keys: seq<string>) {
    forall i, j | 0 <= i < j < |keys| :: !Alike(keys[i], keys[j])
  }

  /** Converted labels obey the format, which forbids a repeated name, iff no two raw keys are sanitised alike. */
  lemma ConvertedLabelsAreLegalIff(prefix: string, raw: seq<string>, labels: Format.Labels)
    requires Format.LabelName(prefix) && prefix[0] != '_'
    requires |labels| == |raw| && forall i | 0 <= i < |raw| :: labels[i].0 == LabelName(prefix, raw[i])
    ensures Format.SampleLegal("gauge", labels) <==> NoneAlike(raw)
  {
    forall i | 0 <= i < |raw| ensures Format.LabelName(labels[i].0) {
      ConvertedNamesAreLegal(prefix, raw[i]);
    }
    forall i, j | 0 <= i < j < |raw| ensures labels[i].0 == labels[j].0 <==> Alike(raw[i], raw[j]) {
      NamesCollide(prefix, raw[i], raw[j]);
    }
    if Format.DistinctLabels(labels) {
      forall i, j | 0 <= i < j < |raw| ensures !Alike(raw[i], raw[j]) {
        assert labels[i].0 != labels[j].0;
      }
    }
  }
}
