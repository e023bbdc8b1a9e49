/** The shard a StatefulSet pod finds itself to be: pkg/metricshandler/metrics_handler.go. */
module Ordinal {
  import opened Kube
  import opened Jump

  const INT64_LIMIT := 0x8000_0000_0000_0000

  function DigitChar(d: nat): (c: char)
    requires d < 10
    ensures IsDigit(c) && DigitValue(c) == d
  {
    ('0' as int + d) as char
  }

  predicate IsDigit(c: char) {
    '0' <= c <= '9'
  }

  function DigitValue(c: char): nat
    requires IsDigit(c)
  {
    c as int - '0' as int
  }

  /** Decimal notation, as the StatefulSet controller writes ordinals. */
  function Itoa(k: nat): (s: string)
    ensures s != "" && forall i | 0 <= i < |s| :: IsDigit(s[i])
  {
    if k < 10 then [DigitChar(k)] else Itoa(k / 10) + [DigitChar(k % 10)]
  }

  function Digits(s: string): Option<nat> {
    if s == "" then Some(0)
    else
      match Digits(s[..|s| - 1])
      case None => None
      case Some(v) =>
        var c := s[|s| - 1];
        if IsDigit(c) then Some(10 * v + DigitValue(c)) else None
  }

  /** Go's `strconv.Atoi` on a 64-bit platform: optional sign, at least one digit, int64 range. */
  function Atoi(s: string): Result<int> {
    var signed := s != "" && s[0] in {'+', '-'};
    var digits := if signed then s[1..] else s;
    if digits == "" then Err
    else
      match Digits(digits)
      case None => Err
      case Some(v) =>
        var sign := if signed && s[0] == '-' then -1 else 1;
        var n := sign * v;
        if -INT64_LIMIT <= n < INT64_LIMIT then Ok(n) else Err
  }

  /** Go's `strings.TrimPrefix`. */
  function TrimPrefix(s: string, prefix: string): string {
    if prefix <= s then s[|prefix|..] else s
  }

  function DetectNominalFromPod(statefulSetName: string, podName: string): Result<int> {
    match Atoi(TrimPrefix(podName, statefulSetName + "-"))
    case Err => Err
    case Ok(n) => Ok(Int32(n))
  }

  /** A StatefulSet: its name, and `spec.replicas` when set. */
  datatype StatefulSet = StatefulSet(name: string, replicas: Option<int>)

  /** The shard index and the number of shards. */
  function SettingsFromStatefulSet(ss: StatefulSet, podName: string): Result<(int, int)> {
    match DetectNominalFromPod(ss.name, podName)
    case Err => Err
    case Ok(nominal) => Ok((nominal, if ss.replicas.Some? then ss.replicas.value else 1))
  }

  predicate AllDigits(s: string) {
    forall i | 0 <= i < |s| :: IsDigit(s[i])
  }

  function Unsigned(s: string): string {
    if s != "" && s[0] in {'+', '-'} then s[1..] else s
  }

  /** The number that an optional sign and digits denote. */
  function IntegerValue(s: string): int
    requires AllDigits(Unsigned(s))
  {
    var v: int := Positional(Unsigned(s));
    if s != "" && s[0] == '-' then -v else v
  }

  /** An optional sign and then digits, at least one, of a value within int64. */
  predicate IsInteger(s: string) {
    Unsigned(s) != "" && AllDigits(Unsigned(s)) && -INT64_LIMIT <= IntegerValue(s) < INT64_LIMIT
  }

  function Pow10(k: nat): nat {
    if k == 0 then 1 else 10 * Pow10(k - 1)
  }

  /** The value of digits in decimal positional notation. */
  function Positional(s: string): nat
    requires AllDigits(s)
  {
    if s == "" then 0 else DigitValue(s[0]) * Pow10(|s| - 1) + Positional(s[1..])
  }

  lemma {:induction false} PositionalSnoc(s: string, c: char)
    requires AllDigits(s) && IsDigit(c)
    ensures Positional(s + [c]) == 10 * Positional(s) + DigitValue(c)
  {
    if s == "" {
      assert s + [c] == [c];
      assert Pow10(0) == 1 && [c][1..] == "";
    } else {
      PositionalSnoc(s[1..], c);
      assert (s + [c])[1..] == s[1..] + [c];
      assert Pow10(|s|) == 10 * Pow10(|s| - 1);
      assert DigitValue(s[0]) * (10 * Pow10(|s| - 1)) == 10 * (DigitValue(s[0]) * Pow10(|s| - 1));
    }
  }

  /** Reading digits from the left computes their positional value; anything but digits is refused. */
  lemma {:induction false} DigitsArePositional(s: string)
    ensures Digits(s) == if AllDigits(s) then Some(Positional(s)) else None
    decreases |s|
  {
    if s != "" {
      var init, c := s[..|s| - 1], s[|s| - 1];
      assert init + [c] == s;
      DigitsArePositional(init);
      if AllDigits(s) {
        PositionalSnoc(init, c);
      } else if IsDigit(c) {
        var i :| 0 <= i < |s| && !IsDigit(s[i]);
        assert init[i] == s[i];
      }
    }
  }

  /** A text is taken for a number iff it is one within int64, and then for the number it is. */
  lemma AtoiAcceptsIff(s: string)
    ensures Atoi(s) == if IsInteger(s) then Ok(IntegerValue(s)) else Err
  {
    DigitsArePositional(Unsigned(s));
  }

  /** A pod that does not carry the name of its StatefulSet is parsed as a whole. */
  lemma ForeignPodIsParsedWhole(statefulSetName: string, podName: string)
    requires !(statefulSetName + "-" <= podName)
    ensures DetectNominalFromPod(statefulSetName, podName).Ok? <==> IsInteger(podName)
  {
    AtoiAcceptsIff(podName);
  }

  /** The name the StatefulSet controller gives its pod with ordinal `k`. */
  function PodName(statefulSetName: string, k: nat): string {
    statefulSetName + "-" + Itoa(k)
  }

  lemma {:induction false} DigitsOfItoa(k: nat)
    ensures Digits(Itoa(k)) == Some(k)
  {
    if k < 10 {
      assert Itoa(k)[..0] == "";
    } else {
      DigitsOfItoa(k / 10);
      assert Itoa(k)[..|Itoa(k)| - 1] == Itoa(k / 10);
    }
  }

  lemma AtoiOfItoa(k: nat)
    ensures Atoi(Itoa(k)) == if k < INT64_LIMIT then Ok(k) else Err
  {
    DigitsOfItoa(k);
    assert IsDigit(Itoa(k)[0]);
  }

  /**
   Parsing the pod name undoes naming it exactly for the ordinals that fit int32; larger ones are cut to 32 bits, and
   from 2^63 on they are an error.
   */
  lemma NominalUndoesNaming(statefulSetName: string, k: nat)
    ensures DetectNominalFromPod(statefulSetName, PodName(statefulSetName, k))
         == if k < INT64_LIMIT then Ok(Int32(k)) else Err
    ensures DetectNominalFromPod(statefulSetName, statefulSetName + "-" + Itoa(k)) == Ok(k) <==> k < TWO31
  {
    var prefix := statefulSetName + "-";
    assert PodName(statefulSetName, k)[..|prefix|] == prefix;
    assert PodName(statefulSetName, k)[|prefix|..] == Itoa(k);
    AtoiOfItoa(k);
  }

  /** Every pod of a StatefulSet finds its own ordinal, and all find the same total. */
  lemma SettingsOfPod(ss: StatefulSet, k: nat)
    requires k < TWO31
    ensures SettingsFromStatefulSet(ss, PodName(ss.name, k))
         == Ok((k, if ss.replicas.Some? then ss.replicas.value else 1))
  {
    NominalUndoesNaming(ss.name, k);
  }
}
