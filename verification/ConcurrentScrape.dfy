/**
 Scrapes running beside the one reflector that writes a store. `Replace` takes the write lock anew for emptying the
 store and for every object it adds; a scrape holds the read lock from its first header to its last.
 */
module ConcurrentScrape {
  import opened Kube
  import opened Generator
  import opened StoreSpec
  import opened Scrape
  import Seqs

  /** Where the reflector is: between operations, or in a `Replace` that has added `added` objects. */
  datatype Writer = Idle | Replacing(list: seq<Object>, added: nat)

  /** A scrape that holds the read lock and has written `next` families. */
  datatype Reader = Reader(orders: seq<seq<Uid>>, next: nat, text: string)

  /** A finished scrape, with what the reflector had done by then. */
  datatype Served = Served(text: string, done: seq<Op>, writer: Writer)

  datatype State = State(
    metrics: Entries, done: seq<Op>, writer: Writer, readers: map<nat, Reader>, served: seq<Served>)

  datatype Step =
    | Write(op: Op) | ReplaceBegin(list: seq<Object>) | ReplaceAdd | ReplaceFail | ReplaceEnd
    | ScrapeBegin(t: nat, orders: seq<seq<Uid>>) | ScrapeFamily(t: nat) | ScrapeEnd(t: nat)

  const START := State(map[], [], Idle, map[], [])

  ghost predicate Enabled(gens: seq<FamilyGenerator>, s: State, step: Step) {
    match step
    case Write(op) => s.writer == Idle && s.readers == map[] && !op.Replace?
    case ReplaceBegin(_) => s.writer == Idle && s.readers == map[]
    case ReplaceAdd =>
      s.writer.Replacing? && s.readers == map[] && s.writer.added < |s.writer.list|
      && s.writer.list[s.writer.added].HasMeta()
    case ReplaceFail =>
      s.writer.Replacing? && s.writer.added < |s.writer.list| && !s.writer.list[s.writer.added].HasMeta()
    case ReplaceEnd => s.writer.Replacing? && s.writer.added == |s.writer.list|
    case ScrapeBegin(t, orders) => t !in s.readers && AreOrders(orders, |gens|, s.metrics.Keys)
    case ScrapeFamily(t) =>
      t in s.readers && s.readers[t].next < |gens|
      && Uniform(s.metrics, |gens|) && AreOrders(s.readers[t].orders, |gens|, s.metrics.Keys)
    case ScrapeEnd(t) => t in s.readers && s.readers[t].next == |gens|
  }

  /** One header and the texts of its family, written under the read lock. */
  ghost function WriteFamily(gens: seq<FamilyGenerator>, m: Entries, r: Reader): Reader
    requires r.next < |gens| && Uniform(m, |gens|) && AreOrders(r.orders, |gens|, m.Keys)
  {
    var section := Headers(gens)[r.next] + "\n" + Column(m, r.orders[r.next], r.next);
    r.(next := r.next + 1, text := r.text + section)
  }

  ghost function Do(gens: seq<FamilyGenerator>, s: State, step: Step): State
    requires Enabled(gens, s, step)
  {
    match step
    case Write(op) => s.(metrics := Apply(Renderer(gens), s.metrics, op), done := s.done + [op])
    case ReplaceBegin(list) => s.(metrics := map[], writer := Replacing(list, 0))
    case ReplaceAdd =>
      s.(metrics := Insert(Renderer(gens), s.metrics, s.writer.list[s.writer.added]),
         writer := s.writer.(added := s.writer.added + 1))
    case ReplaceFail => s.(writer := Idle, done := s.done + [Replace(s.writer.list)])
    case ReplaceEnd => s.(writer := Idle, done := s.done + [Replace(s.writer.list)])
    case ScrapeBegin(t, orders) => s.(readers := s.readers[t := Reader(orders, 0, "")])
    case ScrapeFamily(t) =>
      s.(readers := s.readers[t := WriteFamily(gens, s.metrics, s.readers[t])])
    case ScrapeEnd(t) =>
      s.(readers := s.readers - {t}, served := s.served + [Served(s.readers[t].text, s.done, s.writer)])
  }

  ghost predicate Runs(gens: seq<FamilyGenerator>, s: State, steps: seq<Step>, s': State)
    decreases |steps|
  {
    if steps == [] then s == s'
    else Enabled(gens, s, steps[0]) && Runs(gens, Do(gens, s, steps[0]), steps[1..], s')
  }

  /** What the store holds: the result of the finished operations, or the added part of a list being put in. */
  ghost function Snapshot(gens: seq<FamilyGenerator>, done: seq<Op>, writer: Writer): Entries
    requires writer.Replacing? ==> writer.added <= |writer.list|
  {
    match writer
    case Idle => Contents(Renderer(gens), done)
    case Replacing(list, added) => InsertAll(Renderer(gens), map[], list[..added])
  }

  ghost predicate WriterOk(writer: Writer) {
    writer.Replacing? ==> writer.added <= |writer.list| && AllMeta(writer.list[..writer.added])
  }

  /** `text` is a scrape of exactly `m`, in some iteration orders. */
  ghost predicate IsScrapeOf(gens: seq<FamilyGenerator>, text: string, m: Entries) {
    && Uniform(m, |Headers(gens)|)
    && exists orders :: AreOrders(orders, |Headers(gens)|, m.Keys) && text == TextFrom(Headers(gens), m, orders, 0)
  }

  ghost predicate Explained(gens: seq<FamilyGenerator>, served: Served) {
    WriterOk(served.writer) && IsScrapeOf(gens, served.text, Snapshot(gens, served.done, served.writer))
  }

  ghost predicate ReaderOk(gens: seq<FamilyGenerator>, m: Entries, r: Reader) {
    && Uniform(m, |Headers(gens)|) && AreOrders(r.orders, |Headers(gens)|, m.Keys) && r.next <= |gens|
    && r.text + TextFrom(Headers(gens), m, r.orders, r.next) == TextFrom(Headers(gens), m, r.orders, 0)
  }

  ghost predicate Inv(gens: seq<FamilyGenerator>, s: State) {
    && WriterOk(s.writer)
    && s.metrics == Snapshot(gens, s.done, s.writer)
    && Uniform(s.metrics, |Headers(gens)|)
    && (forall t | t in s.readers :: ReaderOk(gens, s.metrics, s.readers[t]))
    && (forall k | 0 <= k < |s.served| :: Explained(gens, s.served[k]))
  }

  /** A writing step leaves the scrapes alone: none is running, or the store does not change. */
  lemma WriterStepInv(gens: seq<FamilyGenerator>, s: State, s': State)
    requires Inv(gens, s) && s'.readers == s.readers && s'.served == s.served
    requires s.readers == map[] || s'.metrics == s.metrics
    requires WriterOk(s'.writer) && s'.metrics == Snapshot(gens, s'.done, s'.writer)
    requires Uniform(s'.metrics, |Headers(gens)|)
    ensures Inv(gens, s')
  {
  }

  lemma WriteInv(gens: seq<FamilyGenerator>, s: State, op: Op)
    requires Inv(gens, s) && Enabled(gens, s, Write(op))
    ensures Inv(gens, Do(gens, s, Write(op)))
  {
    ContentsSnoc(Renderer(gens), s.done, op);
    WriterStepInv(gens, s, Do(gens, s, Write(op)));
  }

  lemma ReplaceBeginInv(gens: seq<FamilyGenerator>, s: State, list: seq<Object>)
    requires Inv(gens, s) && Enabled(gens, s, ReplaceBegin(list))
    ensures Inv(gens, Do(gens, s, ReplaceBegin(list)))
  {
    WriterStepInv(gens, s, Do(gens, s, ReplaceBegin(list)));
  }

  lemma ReplaceAddInv(gens: seq<FamilyGenerator>, s: State)
    requires Inv(gens, s) && Enabled(gens, s, ReplaceAdd)
    ensures Inv(gens, Do(gens, s, ReplaceAdd))
  {
    var list, i := s.writer.list, s.writer.added;
    assert list[..i] + [list[i]] == list[..i + 1];
    InsertAllSnoc(Renderer(gens), map[], list[..i], list[i]);
    WriterStepInv(gens, s, Do(gens, s, ReplaceAdd));
  }

  lemma ReplaceDoneInv(gens: seq<FamilyGenerator>, s: State, step: Step)
    requires Inv(gens, s) && Enabled(gens, s, step) && (step.ReplaceFail? || step.ReplaceEnd?)
    ensures Inv(gens, Do(gens, s, step))
  {
    var list, i := s.writer.list, s.writer.added;
    ContentsSnoc(Renderer(gens), s.done, Replace(list));
    InsertAllPrefix(Renderer(gens), map[], list);
    PrefixIs(list, i);
    WriterStepInv(gens, s, Do(gens, s, step));
  }

  lemma {:induction false} PrefixIs(list: seq<Object>, i: nat)
    requires i <= |list| && AllMeta(list[..i]) && (i < |list| ==> !list[i].HasMeta())
    ensures MetaPrefix(list) == list[..i]
  {
    if i > 0 {
      assert list[0] == list[..i][0];
      assert list[1..][..i - 1] == list[..i][1..];
      PrefixIs(list[1..], i - 1);
      Seqs.HeadFirst(list[..i], []);
    }
  }

  lemma FamilyWritten(gens: seq<FamilyGenerator>, m: Entries, r: Reader)
    requires ReaderOk(gens, m, r) && r.next < |gens|
    ensures ReaderOk(gens, m, WriteFamily(gens, m, r))
  {
    var section := Headers(gens)[r.next] + "\n" + Column(m, r.orders[r.next], r.next);
    Seqs.Assoc(r.text, section, TextFrom(Headers(gens), m, r.orders, r.next + 1));
  }

  lemma ScrapeBeginInv(gens: seq<FamilyGenerator>, s: State, step: Step)
    requires Inv(gens, s) && Enabled(gens, s, step) && step.ScrapeBegin?
    ensures Inv(gens, Do(gens, s, step))
  {
  }

  lemma ScrapeFamilyInv(gens: seq<FamilyGenerator>, s: State, step: Step)
    requires Inv(gens, s) && Enabled(gens, s, step) && step.ScrapeFamily?
    ensures Inv(gens, Do(gens, s, step))
  {
    FamilyWritten(gens, s.metrics, s.readers[step.t]);
  }

  lemma ScrapeEndInv(gens: seq<FamilyGenerator>, s: State, step: Step)
    requires Inv(gens, s) && Enabled(gens, s, step) && step.ScrapeEnd?
    ensures Inv(gens, Do(gens, s, step))
  {
    var r := s.readers[step.t];
    assert ReaderOk(gens, s.metrics, r);
    assert r.text + "" == r.text;
    assert Explained(gens, Served(r.text, s.done, s.writer));
  }

  lemma StepInv(gens: seq<FamilyGenerator>, s: State, step: Step)
    requires Inv(gens, s) && Enabled(gens, s, step)
    ensures Inv(gens, Do(gens, s, step))
  {
    match step
    case ScrapeBegin(_, _) => ScrapeBeginInv(gens, s, step);
    case ScrapeFamily(_) => ScrapeFamilyInv(gens, s, step);
    case ScrapeEnd(_) => ScrapeEndInv(gens, s, step);
    case Write(op) => WriteInv(gens, s, op);
    case ReplaceBegin(list) => ReplaceBeginInv(gens, s, list);
    case ReplaceAdd => ReplaceAddInv(gens, s);
    case ReplaceFail => ReplaceDoneInv(gens, s, step);
    case ReplaceEnd => ReplaceDoneInv(gens, s, step);
  }

  lemma {:induction false} RunInv(gens: seq<FamilyGenerator>, s: State, steps: seq<Step>, s': State)
    requires Inv(gens, s) && Runs(gens, s, steps, s')
    ensures Inv(gens, s')
    decreases |steps|
  {
    if steps != [] {
      StepInv(gens, s, steps[0]);
      RunInv(gens, Do(gens, s, steps[0]), steps[1..], s');
    }
  }

  /**
   In every interleaving, every finished scrape shows either exactly the store after the finished operations, or
   exactly the rendering of a prefix of the list being put in: never old entries beside new ones.
   */
  lemma ScrapesSeeNoMix(gens: seq<FamilyGenerator>, steps: seq<Step>, s: State, k: nat)
    requires Runs(gens, START, steps, s) && k < |s.served|
    ensures match s.served[k].writer
            case Idle => IsScrapeOf(gens, s.served[k].text, Contents(Renderer(gens), s.served[k].done))
            case Replacing(list, added) =>
              && added <= |list| && AllMeta(list[..added])
              && IsScrapeOf(gens, s.served[k].text, InsertAll(Renderer(gens), map[], list[..added]))
  {
    assert Inv(gens, START);
    RunInv(gens, START, steps, s);
    assert Explained(gens, s.served[k]);
  }

  /** A scrape that has begun can always write its next family: every entry has a text for every header. */
  lemma ScrapeNeverOutOfRange(gens: seq<FamilyGenerator>, steps: seq<Step>, s: State, t: nat)
    requires Runs(gens, START, steps, s) && t in s.readers
    ensures Enabled(gens, s, if s.readers[t].next < |gens| then ScrapeFamily(t) else ScrapeEnd(t))
  {
    assert Inv(gens, START);
    RunInv(gens, START, steps, s);
    assert ReaderOk(gens, s.metrics, s.readers[t]);
  }

  // ---- a scrape in the middle of a Replace

  /** A state some interleaving reaches. */
  ghost predicate Reachable(gens: seq<FamilyGenerator>, s: State) {
    exists steps :: Runs(gens, START, steps, s)
  }

  lemma {:induction false} RunsSnoc(gens: seq<FamilyGenerator>, s: State, steps: seq<Step>, s': State, step: Step)
    requires Runs(gens, s, steps, s') && Enabled(gens, s', step)
    ensures Runs(gens, s, steps + [step], Do(gens, s', step))
    decreases |steps|
  {
    if steps != [] {
      RunsSnoc(gens, Do(gens, s, steps[0]), steps[1..], s', step);
      Seqs.TailFirst(steps, [step]);
    }
  }

  lemma ReachableStep(gens: seq<FamilyGenerator>, s: State, step: Step)
    requires Reachable(gens, s) && Enabled(gens, s, step)
    ensures Reachable(gens, Do(gens, s, step))
  {
    var steps :| Runs(gens, START, steps, s);
    RunsSnoc(gens, START, steps, s, step);
  }

  lemma {:induction false} SomeOrder(keys: set<Uid>) returns (order: seq<Uid>)
    ensures Seqs.IsOrder(order, keys)
  {
    order := [];
    if keys != {} {
      var u :| u in keys;
      order := SomeOrder(keys - {u});
      order := order + [u];
    }
  }

  lemma {:induction false} SomeOrders(n: nat, keys: set<Uid>) returns (orders: seq<seq<Uid>>)
    ensures AreOrders(orders, n, keys)
  {
    orders := [];
    if n > 0 {
      orders := SomeOrders(n - 1, keys);
      var order := SomeOrder(keys);
      orders := orders + [order];
    }
  }

  /** A `Replace` that has added `k` objects. */
  lemma {:induction false} Halfway(gens: seq<FamilyGenerator>, list: seq<Object>, k: nat) returns (s: State)
    requires k <= |list| && AllMeta(list[..k])
    ensures Reachable(gens, s) && s.writer == Replacing(list, k) && s.readers == map[]
  {
    if k == 0 {
      assert Runs(gens, START, [], START);
      ReachableStep(gens, START, ReplaceBegin(list));
      s := Do(gens, START, ReplaceBegin(list));
    } else {
      assert list[..k][k - 1].HasMeta();
      assert forall i | 0 <= i < k - 1 :: list[..k - 1][i] == list[..k][i];
      var m := Halfway(gens, list, k - 1);
      ReachableStep(gens, m, ReplaceAdd);
      s := Do(gens, m, ReplaceAdd);
    }
  }

  lemma {:induction false} ScrapeRest(gens: seq<FamilyGenerator>, s: State, t: nat) returns (s': State)
    requires Reachable(gens, s) && t in s.readers
    ensures Reachable(gens, s') && s'.served != [] && s'.served[|s'.served| - 1].writer == s.writer
    decreases |gens| - s.readers[t].next
  {
    var steps :| Runs(gens, START, steps, s);
    ScrapeNeverOutOfRange(gens, steps, s, t);
    if s.readers[t].next < |gens| {
      ReachableStep(gens, s, ScrapeFamily(t));
      s' := ScrapeRest(gens, Do(gens, s, ScrapeFamily(t)), t);
    } else {
      ReachableStep(gens, s, ScrapeEnd(t));
      s' := Do(gens, s, ScrapeEnd(t));
    }
  }

  /** Prefixes do show: for every list and every number of objects added, a scrape can fall exactly there. */
  lemma PrefixesAreSeen(gens: seq<FamilyGenerator>, list: seq<Object>, k: nat) returns (s: State)
    requires k <= |list| && AllMeta(list[..k])
    ensures Reachable(gens, s) && s.served != []
    ensures IsScrapeOf(gens, s.served[|s.served| - 1].text, InsertAll(Renderer(gens), map[], list[..k]))
  {
    var a := Halfway(gens, list, k);
    var orders := SomeOrders(|gens|, a.metrics.Keys);
    ReachableStep(gens, a, ScrapeBegin(0, orders));
    s := ScrapeRest(gens, Do(gens, a, ScrapeBegin(0, orders)), 0);
    var steps :| Runs(gens, START, steps, s);
    ScrapesSeeNoMix(gens, steps, s, |s.served| - 1);
  }
}
