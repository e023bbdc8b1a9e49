/** internal/store/pod.go: the flattened container-by-reason tables, and the labels every pod metric gets. */
module PodTables {
  import opened Kube
  import opened Exposition
  import opened Parser

  datatype Terminated = Terminated(reason: string, finishedAt: int)

  /** A container status: the reason it waits, its termination, and its last termination. */
  datatype ContainerStatus = ContainerStatus(
    name: string, waiting: Option<string>, terminated: Option<Terminated>, lastTerminated: Option<Terminated>)

  /** The three reasons a table can be about. */
  datatype Kind = Waiting | Termination | LastTermination

  const WAITING_REASONS := ["ContainerCreating", "CrashLoopBackOff", "CreateContainerConfigError", "ErrImagePull",
                            "ImagePullBackOff", "CreateContainerError", "InvalidImageName"]
  const TERMINATED_REASONS := ["OOMKilled", "Completed", "Error", "ContainerCannotRun", "DeadlineExceeded", "Evicted"]

  function Reasons(kind: Kind): seq<string> {
    if kind == Waiting then WAITING_REASONS else TERMINATED_REASONS
  }

  /** The reason a container is in the state the table is about, if it is in it. */
  function ReasonOf(kind: Kind, cs: ContainerStatus): Option<string> {
    match kind
    case Waiting => cs.waiting
    case Termination => if cs.terminated.Some? then Some(cs.terminated.value.reason) else None
    case LastTermination => if cs.lastTerminated.Some? then Some(cs.lastTerminated.value.reason) else None
  }

  /** `waitingReason`, `terminationReason` and `lastTerminationReason`. */
  predicate HasReason(kind: Kind, cs: ContainerStatus, reason: string) {
    ReasonOf(kind, cs) == Some(reason)
  }

  function BoolFloat64(b: bool): Value {
    if b then ONE else ZERO
  }

  function Cell(kind: Kind, cs: ContainerStatus, reason: string): Metric {
    Metric(["container", "reason"], [cs.name, reason], BoolFloat64(HasReason(kind, cs, reason)))
  }

  /** A cell is 1 exactly if the container waits, was terminated, or was terminated last, for the reason. */
  lemma CellValue(kind: Kind, cs: ContainerStatus, reason: string)
    ensures Cell(kind, cs, reason).value in {Finite("0"), Finite("1")}
    ensures Cell(Waiting, cs, reason).value == Finite("1") <==> cs.waiting.Some? && cs.waiting.value == reason
    ensures Cell(Termination, cs, reason).value == Finite("1") <==>
              cs.terminated.Some? && cs.terminated.value.reason == reason
    ensures Cell(LastTermination, cs, reason).value == Finite("1") <==>
              cs.lastTerminated.Some? && cs.lastTerminated.value.reason == reason
  {
    assert "1"[0] != "0"[0];
  }

  lemma AtLeastOnce(d: int, width: nat)
    requires d >= 1
    ensures width * d >= width
  {
  }

  /** Every pair of a container and a reason owns one slot of the flattened table, and every slot has one owner. */
  lemma Slot(i: nat, j: nat, width: nat)
    requires j < width
    ensures (i * width + j) / width == i && (i * width + j) % width == j
  {
    var x := i * width + j;
    var q, r := x / width, x % width;
    assert x == width * q + r;
    assert width * (i - q) == r - j && width * (q - i) == j - r;
    if i > q {
      AtLeastOnce(i - q, width);
    } else if i < q {
      AtLeastOnce(q - i, width);
    }
  }

  lemma Distribute(a: nat, b: nat, width: nat)
    ensures (a + b) * width == a * width + b * width
  {
  }

  lemma Rows(i: nat, n: nat, width: nat)
    requires i < n
    ensures i * width + width == (i + 1) * width <= n * width
  {
    Distribute(i, 1, width);
    Distribute(i + 1, n - i - 1, width);
  }

  /** The first `n` slots hold the cells that belong there. */
  ghost predicate Filled(kind: Kind, statuses: seq<ContainerStatus>, ms: seq<Metric>, n: nat) {
    var width := |Reasons(kind)|;
    n <= |ms| && forall k | 0 <= k < n ::
      k / width < |statuses| && ms[k] == Cell(kind, statuses[k / width], Reasons(kind)[k % width])
  }

  lemma FillSlot(kind: Kind, statuses: seq<ContainerStatus>, ms: seq<Metric>, i: nat, j: nat, k: nat)
    requires i < |statuses| && j < |Reasons(kind)| && k == i * |Reasons(kind)| + j
    requires Filled(kind, statuses, ms, k) && k < |ms|
    ensures Filled(kind, statuses, ms[k := Cell(kind, statuses[i], Reasons(kind)[j])], k + 1)
  {
    Slot(i, j, |Reasons(kind)|);
  }

  /** The row of one container. */
  function Row(kind: Kind, cs: ContainerStatus): (row: seq<Metric>)
    ensures |row| == |Reasons(kind)|
  {
    seq(|Reasons(kind)|, j requires 0 <= j < |Reasons(kind)| => Cell(kind, cs, Reasons(kind)[j]))
  }

  /** Row `i` of a flattened table. */
  function RowAt(ms: seq<Metric>, i: nat, width: nat): seq<Metric> {
    if i * width + width <= |ms| then ms[i * width..i * width + width] else []
  }

  lemma TableRow(kind: Kind, statuses: seq<ContainerStatus>, ms: seq<Metric>, i: nat)
    requires |ms| == |statuses| * |Reasons(kind)| && Filled(kind, statuses, ms, |ms|) && i < |statuses|
    ensures RowAt(ms, i, |Reasons(kind)|) == Row(kind, statuses[i])
  {
    var width := |Reasons(kind)|;
    Rows(i, |statuses|, width);
    forall j | 0 <= j < width ensures ms[i * width + j] == Row(kind, statuses[i])[j] {
      Slot(i, j, width);
    }
  }

  /** The inner loop: the row of container `i`, which starts at slot `base`. */
  method FillRow(kind: Kind, statuses: seq<ContainerStatus>, i: nat, base: nat, ms: array<Metric>)
    requires i < |statuses| && base == i * |Reasons(kind)| && base + |Reasons(kind)| <= ms.Length
    requires Filled(kind, statuses, ms[..], base)
    modifies ms
    ensures Filled(kind, statuses, ms[..], base + |Reasons(kind)|)
  {
    var reasons := Reasons(kind);
    var j := 0;
    while j < |reasons|
      invariant 0 <= j <= |reasons|
      invariant Filled(kind, statuses, ms[..], base + j)
    {
      FillSlot(kind, statuses, ms[..], i, j, base + j);
      ghost var before := ms[..];
      ms[base + j] := Cell(kind, statuses[i], reasons[j]);
      assert ms[..] == before[base + j := Cell(kind, statuses[i], reasons[j])];
      j := j + 1;
    }
  }

  /** Fills `ms[i*R+j]` for every container `i` and every reason `j`. */
  method ReasonTable(kind: Kind, statuses: seq<ContainerStatus>) returns (ms: array<Metric>)
    ensures fresh(ms) && ms.Length == |statuses| * |Reasons(kind)|
    ensures forall k | 0 <= k < ms.Length :: k / |Reasons(kind)| < |statuses|
    ensures forall k | 0 <= k < ms.Length ::
      ms[k] == Cell(kind, statuses[k / |Reasons(kind)|], Reasons(kind)[k % |Reasons(kind)|])
    ensures forall i | 0 <= i < |statuses| :: RowAt(ms[..], i, |Reasons(kind)|) == Row(kind, statuses[i])
  {
    var width := |Reasons(kind)|;
    ms := new Metric[|statuses| * width];
    var i := 0;
    while i < |statuses|
      invariant 0 <= i <= |statuses|
      invariant Filled(kind, statuses, ms[..], i * width)
    {
      Rows(i, |statuses|, width);
      FillRow(kind, statuses, i, i * width, ms);
      i := i + 1;
    }
    forall i | 0 <= i < |statuses| ensures RowAt(ms[..], i, width) == Row(kind, statuses[i]) {
      TableRow(kind, statuses, ms[..], i);
    }
  }

  lemma ReasonsDistinct(kind: Kind, i: nat, j: nat)
    requires i < j < |Reasons(kind)|
    ensures Reasons(kind)[i] != Reasons(kind)[j]
  {
    var lengths := if kind == Waiting then [17, 16, 26, 12, 16, 20, 16] else [9, 9, 5, 18, 16, 7];
    assert forall k | 0 <= k < |lengths| :: |Reasons(kind)[k]| == lengths[k];
    if lengths[i] == lengths[j] {
      assert "CrashLoopBackOff"[0] == 'C' && "ImagePullBackOff"[0] == 'I' && "InvalidImageName"[0] == 'I';
      assert "ImagePullBackOff"[1] == 'm' && "InvalidImageName"[1] == 'n';
      assert "OOMKilled"[0] == 'O' && "Completed"[0] == 'C';
      assert Reasons(kind)[i][0] != Reasons(kind)[j][0] || Reasons(kind)[i][1] != Reasons(kind)[j][1];
    }
  }

  /** How many metrics of a row are 1. */
  function Ones(row: seq<Metric>): nat {
    if row == [] then 0 else (if row[0].value == ONE then 1 else 0) + Ones(row[1..])
  }

  lemma {:induction false} NoOnes(row: seq<Metric>)
    requires forall j | 0 <= j < |row| :: row[j].value != ONE
    ensures Ones(row) == 0
  {
    if row != [] {
      NoOnes(row[1..]);
    }
  }

  lemma {:induction false} OneOne(row: seq<Metric>, i: nat)
    requires i < |row|
    requires forall j | 0 <= j < |row| :: row[j].value == ONE <==> j == i
    ensures Ones(row) == 1
  {
    if i == 0 {
      NoOnes(row[1..]);
    } else {
      OneOne(row[1..], i - 1);
    }
  }

  /** The value in every column says whether the container is in the table's state for that reason. */
  predicate RowFor(kind: Kind, cs: ContainerStatus, row: seq<Metric>) {
    && |row| == |Reasons(kind)|
    && forall j | 0 <= j < |row| :: row[j].value == BoolFloat64(HasReason(kind, cs, Reasons(kind)[j]))
  }

  predicate ReasonListed(kind: Kind, cs: ContainerStatus) {
    ReasonOf(kind, cs).Some? && ReasonOf(kind, cs).value in Reasons(kind)
  }

  /** A row holds exactly one 1 if the container's reason is listed; otherwise it holds none. */
  lemma RowHasOneOne(kind: Kind, cs: ContainerStatus, row: seq<Metric>)
    requires RowFor(kind, cs, row)
    ensures Ones(row) == if ReasonListed(kind, cs) then 1 else 0
  {
    assert ONE.digits != ZERO.digits by {
      assert "1"[0] != "0"[0];
    }
    if ReasonListed(kind, cs) {
      var i :| 0 <= i < |row| && Reasons(kind)[i] == ReasonOf(kind, cs).value;
      forall j | 0 <= j < |row| ensures row[j].value == ONE <==> j == i {
        if j != i {
          ReasonsDistinct(kind, if i < j then i else j, if i < j then j else i);
        }
      }
      OneOne(row, i);
    } else {
      NoOnes(row);
    }
  }

  // ---- the labels of every pod metric

  const POD_LABELS := ["namespace", "pod"]

  function Wrapped(namespace: string, name: string, m: Metric): Metric {
    Metric(POD_LABELS + m.labelKeys, [namespace, name] + m.labelValues, m.value)
  }

  /** Wrapping puts the namespace and the pod in front of the labels, each value under its key, and keeps the rest. */
  lemma WrappedHas(namespace: string, name: string, m: Metric)
    ensures var w := Wrapped(namespace, name, m);
            && w.value == m.value && |w.labelKeys| == |m.labelKeys| + 2 && |w.labelValues| == |m.labelValues| + 2
            && w.labelKeys[0] == "namespace" && w.labelValues[0] == namespace
            && w.labelKeys[1] == "pod" && w.labelValues[1] == name
            && w.labelKeys[2..] == m.labelKeys && w.labelValues[2..] == m.labelValues
  {
  }

  /** The loop of `wrapPodFunc`, which rewrites the metrics of a family in place. */
  method WrapPodFunc(namespace: string, name: string, ms: array<Metric>)
    modifies ms
    ensures forall k | 0 <= k < ms.Length :: ms[k] == Wrapped(namespace, name, old(ms[k]))
  {
    var i := 0;
    while i < ms.Length
      invariant 0 <= i <= ms.Length
      invariant forall k | 0 <= k < i :: ms[k] == Wrapped(namespace, name, old(ms[k]))
      invariant forall k | i <= k < ms.Length :: ms[k] == old(ms[k])
    {
      ms[i] := Wrapped(namespace, name, ms[i]);
      i := i + 1;
    }
  }

  /** Wrapping keeps keys and values paired and keys printable, so `Write` never panics. */
  lemma WrappedStaysOk(namespace: string, name: string, m: Metric)
    ensures m.Paired() <==> Wrapped(namespace, name, m).Paired()
    ensures MetricOk(m) ==> MetricOk(Wrapped(namespace, name, m))
  {
  }

  /** Every slot of the wrapped table holds the cell of its container and reason. */
  ghost predicate WrappedTable(kind: Kind, namespace: string, name: string, statuses: seq<ContainerStatus>,
                               ms: seq<Metric>)
  {
    var width := |Reasons(kind)|;
    && |ms| == |statuses| * width
    && forall k | 0 <= k < |ms| ::
         && k / width < |statuses|
         && ms[k] == Wrapped(namespace, name, Cell(kind, statuses[k / width], Reasons(kind)[k % width]))
  }

  /** A reason family of a pod, from its statuses to the metrics handed to the printer. */
  method ReasonFamily(kind: Kind, namespace: string, name: string, statuses: seq<ContainerStatus>) returns (ms: Metrics)
    ensures AllOk(ms) && WrappedTable(kind, namespace, name, statuses, ms)
    ensures forall i | 0 <= i < |statuses| ::
      Ones(RowAt(ms, i, |Reasons(kind)|)) == if ReasonListed(kind, statuses[i]) then 1 else 0
  {
    var table := ReasonTable(kind, statuses);
    ghost var cells := table[..];
    forall k | 0 <= k < |cells| ensures MetricOk(cells[k]) && MetricOk(Wrapped(namespace, name, cells[k])) {
      CellOk(kind, statuses[k / |Reasons(kind)|], Reasons(kind)[k % |Reasons(kind)|]);
      WrappedStaysOk(namespace, name, cells[k]);
    }
    WrapPodFunc(namespace, name, table);
    ms := table[..];
    forall i | 0 <= i < |statuses|
      ensures Ones(RowAt(ms, i, |Reasons(kind)|)) == if ReasonListed(kind, statuses[i]) then 1 else 0
    {
      WrappedRow(namespace, name, kind, statuses, cells, ms, i);
    }
  }

  /** Wrapping changes no value, so a row keeps its one 1. */
  lemma WrappedRow(namespace: string, name: string, kind: Kind, statuses: seq<ContainerStatus>, cells: seq<Metric>,
                   ms: seq<Metric>, i: nat)
    requires |cells| == |ms| == |statuses| * |Reasons(kind)| && i < |statuses|
    requires RowAt(cells, i, |Reasons(kind)|) == Row(kind, statuses[i])
    requires forall k | 0 <= k < |ms| :: ms[k] == Wrapped(namespace, name, cells[k])
    ensures Ones(RowAt(ms, i, |Reasons(kind)|)) == if ReasonListed(kind, statuses[i]) then 1 else 0
  {
    var width := |Reasons(kind)|;
    var row := RowAt(ms, i, width);
    Rows(i, |statuses|, width);
    forall j | 0 <= j < width ensures row[j].value == Row(kind, statuses[i])[j].value {
      assert row[j] == ms[i * width + j] && RowAt(cells, i, width)[j] == cells[i * width + j];
    }
    RowHasOneOne(kind, statuses[i], row);
  }

  lemma CellOk(kind: Kind, cs: ContainerStatus, reason: string)
    ensures MetricOk(Cell(kind, cs, reason))
  {
  }

  // ---- kube_pod_completion_time

  /** `t` is the latest finish time among the terminated containers. */
  ghost predicate IsLatestFinish(statuses: seq<ContainerStatus>, t: int) {
    && (exists i :: 0 <= i < |statuses| && statuses[i].terminated.Some? && statuses[i].terminated.value.finishedAt == t)
    && forall i | 0 <= i < |statuses| && statuses[i].terminated.Some? :: statuses[i].terminated.value.finishedAt <= t
  }

  /**
   The completion time: the latest finish time, reported only if positive. The running value can fall while all times
   seen are at most zero, because zero doubles as "none yet"; that never shows in the result.
   */
  method CompletionTime(statuses: seq<ContainerStatus>) returns (r: Option<int>)
    ensures r.Some? ==> r.value > 0 && IsLatestFinish(statuses, r.value)
    ensures r == None ==> forall i | 0 <= i < |statuses| && statuses[i].terminated.Some? ::
      statuses[i].terminated.value.finishedAt <= 0
  {
    var last := 0;
    var n := 0;
    while n < |statuses|
      invariant 0 <= n <= |statuses|
      invariant last > 0 ==> IsLatestFinish(statuses[..n], last)
      invariant last <= 0 ==> forall i | 0 <= i < n && statuses[i].terminated.Some? ::
        statuses[i].terminated.value.finishedAt <= 0
    {
      ghost var before := statuses[..n];
      assert forall i | 0 <= i < n :: statuses[..n + 1][i] == before[i];
      assert statuses[..n + 1][n] == statuses[n];
      if statuses[n].terminated.Some? {
        var t := statuses[n].terminated.value.finishedAt;
        if last == 0 || last < t {
          last := t;
        }
      }
      n := n + 1;
    }
    assert statuses[..n] == statuses;
    r := if last > 0 then Some(last) else None;
  }
}
