/** internal/store/pod.go: the series of the container-by-reason tables, and when they obey the exposition format. */
module PodSeries {
  import opened Exposition
  import opened Format
  import opened Legality
  import opened PodTables

  predicate DistinctContainers(statuses: seq<ContainerStatus>) {
    forall i, j | 0 <= i < j < |statuses| :: statuses[i].name != statuses[j].name
  }

  /** The labels of a cell of a pod's table. */
  function CellLabels(namespace: string, name: string, container: string, reason: string): Labels {
    [("namespace", namespace), ("pod", name), ("container", container), ("reason", reason)]
  }

  lemma WrappedCellLabels(kind: Kind, namespace: string, name: string, cs: ContainerStatus, reason: string)
    ensures Wrapped(namespace, name, Cell(kind, cs, reason)).Paired()
    ensures LabelsOf(Wrapped(namespace, name, Cell(kind, cs, reason))) == CellLabels(namespace, name, cs.name, reason)
  {
  }

  lemma KeysDistinct()
    ensures "namespace" != "pod" && "namespace" != "container" && "namespace" != "reason"
    ensures "pod" != "container" && "pod" != "reason" && "container" != "reason"
  {
    assert "namespace"[0] != "container"[0];
  }

  lemma CellLegal(namespace: string, name: string, container: string, reason: string)
    ensures SampleLegal("gauge", CellLabels(namespace, name, container, reason))
  {
    KeysDistinct();
    assert LabelName("namespace") && LabelName("pod") && LabelName("container") && LabelName("reason");
    assert "gauge" != "histogram" && "gauge" != "summary";
  }

  /** Different pods, containers or reasons are different series. */
  lemma CellsDiffer(a: (string, string, string, string), b: (string, string, string, string))
    ensures LabelSet(CellLabels(a.0, a.1, a.2, a.3)) == LabelSet(CellLabels(b.0, b.1, b.2, b.3)) <==> a == b
  {
    var x, y := CellLabels(a.0, a.1, a.2, a.3), CellLabels(b.0, b.1, b.2, b.3);
    KeysDistinct();
    if LabelSet(x) == LabelSet(y) {
      assert x[0] in LabelSet(x) && x[1] in LabelSet(x) && x[2] in LabelSet(x) && x[3] in LabelSet(x);
      assert x[0] in y && x[1] in y && x[2] in y && x[3] in y;
    }
  }

  lemma SameSlot(k: nat, l: nat, width: nat)
    requires width > 0 && k / width == l / width && k % width == l % width
    ensures k == l
  {
    assert k == k / width * width + k % width;
    assert l == l / width * width + l % width;
  }

  lemma SameColumn(kind: Kind, p: nat, q: nat)
    requires p < |Reasons(kind)| && q < |Reasons(kind)| && Reasons(kind)[p] == Reasons(kind)[q]
    ensures p == q
  {
    if p < q {
      ReasonsDistinct(kind, p, q);
    } else if q < p {
      ReasonsDistinct(kind, q, p);
    }
  }

  /** What tells the slots of the tables of all pods apart. */
  function KeyAt(kind: Kind, namespace: string, name: string, statuses: seq<ContainerStatus>, k: nat):
    (string, string, string, string)
    requires k / |Reasons(kind)| < |statuses|
  {
    (namespace, name, statuses[k / |Reasons(kind)|].name, Reasons(kind)[k % |Reasons(kind)|])
  }

  lemma SlotLabels(kind: Kind, namespace: string, name: string, statuses: seq<ContainerStatus>, ms: Metrics, k: nat)
    requires WrappedTable(kind, namespace, name, statuses, ms) && k < |ms|
    ensures k / |Reasons(kind)| < |statuses|
    ensures var (a, b, c, d) := KeyAt(kind, namespace, name, statuses, k);
            LabelsOf(ms[k]) == CellLabels(a, b, c, d) && SampleLegal("gauge", LabelsOf(ms[k]))
  {
    var (a, b, c, d) := KeyAt(kind, namespace, name, statuses, k);
    WrappedCellLabels(kind, namespace, name, statuses[k / |Reasons(kind)|], d);
    CellLegal(a, b, c, d);
  }

  /** Two slots, of one table or of two, are the same series iff their keys are the same. */
  lemma SlotsDiffer(kind: Kind, pod: (string, string), statuses: seq<ContainerStatus>, ms: Metrics, k: nat,
                    pod': (string, string), statuses': seq<ContainerStatus>, ms': Metrics, l: nat)
    requires WrappedTable(kind, pod.0, pod.1, statuses, ms) && k < |ms|
    requires WrappedTable(kind, pod'.0, pod'.1, statuses', ms') && l < |ms'|
    ensures k / |Reasons(kind)| < |statuses| && l / |Reasons(kind)| < |statuses'|
    ensures SameSeries(ms[k], ms'[l]) <==>
              KeyAt(kind, pod.0, pod.1, statuses, k) == KeyAt(kind, pod'.0, pod'.1, statuses', l)
  {
    SlotLabels(kind, pod.0, pod.1, statuses, ms, k);
    SlotLabels(kind, pod'.0, pod'.1, statuses', ms', l);
    CellsDiffer(KeyAt(kind, pod.0, pod.1, statuses, k), KeyAt(kind, pod'.0, pod'.1, statuses', l));
  }

  lemma SameKey(kind: Kind, namespace: string, name: string, statuses: seq<ContainerStatus>, k: nat, l: nat)
    requires k < l && k / |Reasons(kind)| < |statuses| && l / |Reasons(kind)| < |statuses|
    requires KeyAt(kind, namespace, name, statuses, k) == KeyAt(kind, namespace, name, statuses, l)
    ensures !DistinctContainers(statuses)
  {
    var width := |Reasons(kind)|;
    var i, j := k / width, l / width;
    SameColumn(kind, k % width, l % width);
    if i == j {
      SameSlot(k, l, width);
    } else if i < j {
      assert statuses[i].name == statuses[j].name;
    } else {
      assert statuses[j].name == statuses[i].name;
    }
  }

  lemma SharedName(kind: Kind, namespace: string, name: string, statuses: seq<ContainerStatus>, ms: Metrics, i: nat,
                   j: nat)
    requires WrappedTable(kind, namespace, name, statuses, ms)
    requires i < j < |statuses| && statuses[i].name == statuses[j].name
    ensures !Unique(ms)
  {
    var width := |Reasons(kind)|;
    var k, l := i * width, j * width;
    Rows(j, |statuses|, width);
    Rows(i, j, width);
    Slot(i, 0, width);
    Slot(j, 0, width);
    SlotsDiffer(kind, (namespace, name), statuses, ms, k, (namespace, name), statuses, ms, l);
    assert SameSeries(ms[k], ms[l]);
  }

  /** The metrics of a pod obey the format iff its containers have different names. */
  lemma PodSeriesLegalIff(kind: Kind, namespace: string, name: string, statuses: seq<ContainerStatus>, ms: Metrics)
    requires WrappedTable(kind, namespace, name, statuses, ms)
    ensures SamplesLegal("gauge", ms) && (Unique(ms) <==> DistinctContainers(statuses))
  {
    forall k | 0 <= k < |ms| ensures SampleLegal("gauge", LabelsOf(ms[k])) {
      SlotLabels(kind, namespace, name, statuses, ms, k);
    }
    if k, l :| 0 <= k < l < |ms| && SameSeries(ms[k], ms[l]) {
      SlotsDiffer(kind, (namespace, name), statuses, ms, k, (namespace, name), statuses, ms, l);
      SameKey(kind, namespace, name, statuses, k, l);
    } else if i, j :| 0 <= i < j < |statuses| && statuses[i].name == statuses[j].name {
      SharedName(kind, namespace, name, statuses, ms, i, j);
    }
  }

  /** The tables of different pods share no series. */
  lemma PodsApart(kind: Kind, pod: (string, string), statuses: seq<ContainerStatus>, ms: Metrics,
                  pod': (string, string), statuses': seq<ContainerStatus>, ms': Metrics)
    requires WrappedTable(kind, pod.0, pod.1, statuses, ms) && WrappedTable(kind, pod'.0, pod'.1, statuses', ms')
    requires pod != pod'
    ensures Apart(ms, ms')
  {
    forall k, l | 0 <= k < |ms| && 0 <= l < |ms'| ensures !SameSeries(ms[k], ms'[l]) {
      SlotsDiffer(kind, pod, statuses, ms, k, pod', statuses', ms', l);
    }
  }
}
