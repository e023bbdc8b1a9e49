/** `strings.Split` and `strings.Join` for a one-character separator, and the lines of a text. */
module Text {
  import opened Seqs

  /** Go's `strings.Split`: always at least one part. */
  function Split(s: string, c: char): (parts: seq<string>)
    ensures |parts| >= 1
    ensures forall i | 0 <= i < |parts| :: c !in parts[i]
  {
    if s == [] then [[]]
    else
      var rest := Split(s[1..], c);
      if s[0] == c then [[]] + rest else [[s[0]] + rest[0]] + rest[1..]
  }

  /** Go's `strings.Join`. */
  function Join(parts: seq<string>, c: char): string {
    if parts == [] then []
    else if |parts| == 1 then parts[0]
    else parts[0] + [c] + Join(parts[1..], c)
  }

  lemma {:induction false} SplitPlain(s: string, c: char)
    requires c !in s
    ensures Split(s, c) == [s]
  {
    if s != [] {
      SplitPlain(s[1..], c);
      assert [s[0]] + s[1..] == s;
    }
  }

  /** A separator between two texts separates their parts. */
  lemma {:induction false} SplitAt(a: string, b: string, c: char)
    ensures Split(a + [c] + b, c) == Split(a, c) + Split(b, c)
  {
    Assoc(a, [c], b);
    if a == [] {
      assert a + ([c] + b) == [c] + b;
      assert ([c] + b)[1..] == b;
    } else {
      SplitAt(a[1..], b, c);
      TailFirst(a, [c] + b);
      Assoc(a[1..], [c], b);
    }
  }

  /** Splitting undoes joining when no part holds the separator. */
  lemma {:induction false} SplitJoin(parts: seq<string>, c: char)
    requires parts != []
    requires forall i | 0 <= i < |parts| :: c !in parts[i]
    ensures Split(Join(parts, c), c) == parts
  {
    SplitPlain(parts[0], c);
    if |parts| > 1 {
      SplitJoin(parts[1..], c);
      SplitAt(parts[0], Join(parts[1..], c), c);
      assert [parts[0]] + parts[1..] == parts;
    }
  }

  /** Joining then splitting never yields fewer parts, and yields more as soon as a part holds the separator. */
  lemma {:induction false} SplitJoinCount(parts: seq<string>, c: char)
    requires parts != []
    ensures |Split(Join(parts, c), c)| >= |parts|
    ensures (exists i :: 0 <= i < |parts| && c in parts[i]) ==> |Split(Join(parts, c), c)| > |parts|
  {
    SplitCount(parts[0], c);
    if |parts| > 1 {
      SplitJoinCount(parts[1..], c);
      SplitAt(parts[0], Join(parts[1..], c), c);
      if i :| 0 <= i < |parts| && c in parts[i] {
        if i > 0 {
          assert parts[1..][i - 1] == parts[i];
        }
      }
    }
  }

  lemma {:induction false} SplitCount(s: string, c: char)
    ensures c in s ==> |Split(s, c)| > 1
  {
    if s != [] {
      SplitCount(s[1..], c);
      assert s == [s[0]] + s[1..];
    }
  }

  /** The newline-terminated lines of a text. */
  function Lines(text: string): seq<string> {
    var parts := Split(text, '\n');
    parts[..|parts| - 1]
  }

  /** A text made of whole lines. */
  predicate Terminated(text: string) {
    text == "" || text[|text| - 1] == '\n'
  }

  lemma TerminatedConcat(a: string, b: string)
    requires Terminated(a) && Terminated(b)
    ensures Terminated(a + b)
  {
  }

  lemma LinesEmpty()
    ensures Lines("") == []
  {
  }

  lemma LinesAt(a: string, b: string)
    requires '\n' !in a
    ensures Lines(a + "\n" + b) == [a] + Lines(b)
  {
    SplitAt(a, b, '\n');
    SplitPlain(a, '\n');
    assert a + ['\n'] + b == a + "\n" + b;
  }

  /** Lines of whole-line texts concatenate. */
  lemma LinesConcat(a: string, b: string)
    requires Terminated(a)
    ensures Lines(a + b) == Lines(a) + Lines(b)
  {
    if a == "" {
      assert a + b == b;
    } else {
      var body := a[..|a| - 1];
      SplitAt(body, b, '\n');
      SplitAt(body, "", '\n');
      assert a + b == body + ['\n'] + b;
      assert a == body + ['\n'] + "";
    }
  }
}
