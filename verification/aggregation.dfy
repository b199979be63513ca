/** The aggregation engine of the collector (pkg/collector/collector.go,
    emitCostMetrics and emitCost): items of a snapshot are grouped by a
    nine-field dimension key, their five costs summed per key, and every key
    turned into labelled observations for the metrics sink. */
module Aggregation {
  import opened Wrappers
  import opened Types

  // ---------------------------------------------------------------------------
  // Grouping key.

  /** The grouping key of an item. */
  datatype DimensionKey = DimensionKey(
    providerId: string,
    accountId: string,
    service: string,
    category: string,
    region: string,
    availabilityZone: string,
    owner: string,
    environment: string,
    cluster: string)

  /** A Go map read: the value under `name`, or "" when it is absent. */
  function LabelValue(labels: map<string, string>, name: string): (v: string)
    ensures name !in labels ==> v == ""
    ensures name in labels ==> v == labels[name]
  {
    if name in labels then labels[name] else ""
  }

  /** The key of an item: the region comes from the region id (not the
      availability zone), and owner, environment and cluster come from the free
      labels, empty when absent. */
  function KeyOf(item: CostItem): (k: DimensionKey)
    ensures k.providerId == item.properties.providerId && k.accountId == item.properties.accountId
    ensures k.service == item.properties.service && k.category == item.properties.category
    ensures k.region == item.properties.regionId
    ensures k.availabilityZone == item.properties.availabilityZone
    ensures k.owner == LabelValue(item.properties.labels, "owner")
    ensures k.environment == LabelValue(item.properties.labels, "environment")
    ensures k.cluster == LabelValue(item.properties.labels, "cluster")
  {
    var p := item.properties;
    DimensionKey(p.providerId, p.accountId, p.service, p.category, p.regionId, p.availabilityZone,
                 LabelValue(p.labels, "owner"), LabelValue(p.labels, "environment"),
                 LabelValue(p.labels, "cluster"))
  }

  // ---------------------------------------------------------------------------
  // Cost types and accumulators.

  datatype CostType = List | Net | AmortizedNet | Invoiced | Amortized

  /** The five cost types in the order they are emitted. */
  const CostTypes: seq<CostType> := [List, Net, AmortizedNet, Invoiced, Amortized]

  /** The value of the cost_type label. */
  function CostTypeName(t: CostType): string
  {
    match t
    case List => "list"
    case Net => "net"
    case AmortizedNet => "amortized_net"
    case Invoiced => "invoiced"
    case Amortized => "amortized"
  }

  /** The cost type a cost_type label value names, if any. */
  function CostTypeOfName(name: string): (r: Option<CostType>)
    ensures forall t :: r == Some(t) <==> CostTypeName(t) == name
  {
    if name == "list" then Some(List)
    else if name == "net" then Some(Net)
    else if name == "amortized_net" then Some(AmortizedNet)
    else if name == "invoiced" then Some(Invoiced)
    else if name == "amortized" then Some(Amortized)
    else None
  }

  /** The item's cost of the given type. */
  function ItemCost(item: CostItem, t: CostType): real
  {
    match t
    case List => item.listCost.cost
    case Net => item.netCost.cost
    case AmortizedNet => item.amortizedNetCost.cost
    case Invoiced => item.invoicedCost.cost
    case Amortized => item.amortizedCost.cost
  }

  /** Per-key accumulator: five sums and one retained Kubernetes fraction. */
  datatype AggregatedCost = AggregatedCost(
    listCost: real,
    netCost: real,
    amortizedNetCost: real,
    invoicedCost: real,
    amortizedCost: real,
    kubePercent: real)

  const Zero := AggregatedCost(0.0, 0.0, 0.0, 0.0, 0.0, 0.0)

  /** The accumulated sum of the given type. */
  function Total(a: AggregatedCost, t: CostType): real
  {
    match t
    case List => a.listCost
    case Net => a.netCost
    case AmortizedNet => a.amortizedNetCost
    case Invoiced => a.invoicedCost
    case Amortized => a.amortizedCost
  }

  /** Folding one item into its key's accumulator: every cost adds on, while
      the Kubernetes fraction is overwritten by the item's list-cost fraction. */
  function Accumulate(a: AggregatedCost, item: CostItem): (r: AggregatedCost)
    ensures forall t :: Total(r, t) == Total(a, t) + ItemCost(item, t)
    ensures r.kubePercent == item.listCost.kubernetesPercent
  {
    AggregatedCost(
      a.listCost + item.listCost.cost,
      a.netCost + item.netCost.cost,
      a.amortizedNetCost + item.amortizedNetCost.cost,
      a.invoicedCost + item.invoicedCost.cost,
      a.amortizedCost + item.amortizedCost.cost,
      item.listCost.kubernetesPercent)
  }

  // ---------------------------------------------------------------------------
  // The fold.

  /** The items of all sets, with multiplicity, counted from the front. */
  ghost function Bag(sets: seq<CostSet>): multiset<CostItem>
    decreases |sets|
  {
    if |sets| == 0 then multiset{} else multiset(sets[0].cloudCosts) + Bag(sets[1..])
  }

  /** Appending a set adds its items to the bag. */
  lemma {:induction false} BagSnoc(sets: seq<CostSet>, s: CostSet)
    ensures Bag(sets + [s]) == Bag(sets) + multiset(s.cloudCosts)
    decreases |sets|
  {
    if |sets| == 0 {
      assert (sets + [s])[1..] == [];
    } else {
      assert (sets + [s])[1..] == sets[1..] + [s];
      BagSnoc(sets[1..], s);
    }
  }

  /** All items of all sets, set by set: every item of every set, each as
      often as the sets hold it. */
  function Items(sets: seq<CostSet>): (r: seq<CostItem>)
    ensures forall i, x :: 0 <= i < |sets| && x in sets[i].cloudCosts ==> x in r
    ensures forall x :: x in r ==> exists i :: 0 <= i < |sets| && x in sets[i].cloudCosts
    ensures multiset(r) == Bag(sets)
    decreases |sets|
  {
    if |sets| == 0 then []
    else
      BagSnoc(sets[..|sets| - 1], sets[|sets| - 1]);
      assert sets[..|sets| - 1] + [sets[|sets| - 1]] == sets;
      Items(sets[..|sets| - 1]) + sets[|sets| - 1].cloudCosts
  }

  /** The aggregation map after folding `items` in order: every item's key is
      present, and there are no more keys than items. */
  function Fold(items: seq<CostItem>): (r: map<DimensionKey, AggregatedCost>)
    ensures forall i :: 0 <= i < |items| ==> KeyOf(items[i]) in r
    decreases |items|
  {
    if |items| == 0 then map[]
    else
      var acc := Fold(items[..|items| - 1]);
      var item := items[|items| - 1];
      var k := KeyOf(item);
      acc[k := Accumulate(if k in acc then acc[k] else Zero, item)]
  }

  /** Aggregation of a whole snapshot: the key of every item of every set is
      present, and each key's sums are the reference sums over the items. */
  function Aggregate(snapshot: CostResponse): (r: map<DimensionKey, AggregatedCost>)
    ensures forall x :: x in Items(snapshot.data.sets) ==> KeyOf(x) in r
    ensures forall k, t :: k in r ==> Total(r[k], t) == SumCost(Items(snapshot.data.sets), k, t)
  {
    FoldMatchesReference(Items(snapshot.data.sets));
    Fold(Items(snapshot.data.sets))
  }

  // ---------------------------------------------------------------------------
  // Reference definitions, independent of the map-update fold.

  /** Sum of the costs of type t over the items whose key is k. */
  function SumCost(items: seq<CostItem>, k: DimensionKey, t: CostType): real
    decreases |items|
  {
    if |items| == 0 then 0.0
    else
      SumCost(items[..|items| - 1], k, t) + Contribution(items[|items| - 1], k, t)
  }

  /** What one item adds to the sum of type t for key k. */
  function Contribution(item: CostItem, k: DimensionKey, t: CostType): real
  {
    if KeyOf(item) == k then ItemCost(item, t) else 0.0
  }

  /** Index of the last item whose key is k, or -1 when there is none. */
  function LastIndex(items: seq<CostItem>, k: DimensionKey): (r: int)
    ensures -1 <= r < |items|
    ensures r >= 0 ==> KeyOf(items[r]) == k
    ensures forall j :: r < j < |items| ==> KeyOf(items[j]) != k
    decreases |items|
  {
    if |items| == 0 then -1
    else if KeyOf(items[|items| - 1]) == k then |items| - 1
    else LastIndex(items[..|items| - 1], k)
  }

  /** The last item whose key is k. */
  function LastWith(items: seq<CostItem>, k: DimensionKey): Option<CostItem>
  {
    var i := LastIndex(items, k);
    if i < 0 then None else Some(items[i])
  }

  /** The fold agrees with the reference definitions: a key is present exactly
      when some item has it, each of its five sums is the sum over exactly the
      items with that key, and its Kubernetes fraction is that of the last
      such item (overwritten, not summed). */
  lemma FoldMatchesReference(items: seq<CostItem>)
    ensures forall k :: k in Fold(items) <==> LastWith(items, k).Some?
    ensures forall k, t :: k in Fold(items) ==> Total(Fold(items)[k], t) == SumCost(items, k, t)
    ensures forall k :: k in Fold(items) ==>
              Fold(items)[k].kubePercent == LastWith(items, k).value.listCost.kubernetesPercent
  {
    FoldKeysMatch(items);
    FoldSumsMatch(items);
  }

  /** The key and fraction half of FoldMatchesReference. */
  lemma {:induction false} FoldKeysMatch(items: seq<CostItem>)
    ensures forall k :: k in Fold(items) <==> LastWith(items, k).Some?
    ensures forall k :: k in Fold(items) ==>
              Fold(items)[k].kubePercent == LastWith(items, k).value.listCost.kubernetesPercent
    decreases |items|
  {
    if |items| > 0 {
      var init := items[..|items| - 1];
      FoldKeysMatch(init);
      forall k | k != KeyOf(items[|items| - 1]) ensures LastWith(items, k) == LastWith(init, k) {
        var i := LastIndex(init, k);
        if i >= 0 {
          assert items[i] == init[i];
        }
      }
    }
  }

  /** The sums half of FoldMatchesReference. */
  lemma {:induction false} FoldSumsMatch(items: seq<CostItem>)
    ensures forall k, t :: k in Fold(items) ==> Total(Fold(items)[k], t) == SumCost(items, k, t)
    decreases |items|
  {
    if |items| > 0 {
      var init := items[..|items| - 1];
      FoldSumsMatch(init);
      FoldKeysMatch(init);
      var item := items[|items| - 1];
      forall k, t | k in Fold(items)
        ensures Total(Fold(items)[k], t) == SumCost(items, k, t)
      {
        if k == KeyOf(item) && k !in Fold(init) {
          SumCostAbsent(init, k, t);
        }
      }
    }
  }

  /** A key no item has contributes nothing. */
  lemma {:induction false} SumCostAbsent(items: seq<CostItem>, k: DimensionKey, t: CostType)
    requires LastWith(items, k).None?
    ensures SumCost(items, k, t) == 0.0
    decreases |items|
  {
    if |items| > 0 {
      SumCostAbsent(items[..|items| - 1], k, t);
    }
  }

  /** One more item adds its costs onto its own key's sums, never replacing
      them, and leaves every other key's entry exactly as it was. */
  lemma FoldStep(items: seq<CostItem>, item: CostItem)
    ensures var before := Fold(items);
      var after := Fold(items + [item]);
      && after.Keys == before.Keys + {KeyOf(item)}
      && (forall t :: Total(after[KeyOf(item)], t)
                        == (if KeyOf(item) in before then Total(before[KeyOf(item)], t) else 0.0)
                           + ItemCost(item, t))
      && (forall k :: k in before && k != KeyOf(item) ==> after[k] == before[k])
  {
    assert (items + [item])[..|items|] == items;
  }

  /** There are never more keys than items. */
  lemma {:induction false} KeysBounded(items: seq<CostItem>)
    ensures |Fold(items)| <= |items|
    decreases |items|
  {
    if |items| > 0 {
      KeysBounded(items[..|items| - 1]);
    }
  }

  lemma {:induction false} SumCostAppend(a: seq<CostItem>, b: seq<CostItem>, k: DimensionKey, t: CostType)
    ensures SumCost(a + b, k, t) == SumCost(a, k, t) + SumCost(b, k, t)
    decreases |b|
  {
    if |b| == 0 {
      assert a + b == a;
    } else {
      assert (a + b)[..|a + b| - 1] == a + b[..|b| - 1];
      SumCostAppend(a, b[..|b| - 1], k, t);
    }
  }

  /** Taking one item out of a sequence takes its contribution off the sum. */
  lemma SumCostRemove(b: seq<CostItem>, j: int, k: DimensionKey, t: CostType)
    requires 0 <= j < |b|
    ensures SumCost(b, k, t) == SumCost(b[..j] + b[j + 1..], k, t) + Contribution(b[j], k, t)
  {
    assert b == b[..j] + ([b[j]] + b[j + 1..]);
    SumCostAppend(b[..j], [b[j]] + b[j + 1..], k, t);
    SumCostAppend([b[j]], b[j + 1..], k, t);
    SumCostAppend(b[..j], b[j + 1..], k, t);
    assert [b[j]][..0] == [];
  }

  /** Removing one occurrence of the same element from two permutations of
      each other leaves permutations of each other. */
  lemma MultisetRemove(a: seq<CostItem>, b: seq<CostItem>, j: int)
    requires |a| > 0 && 0 <= j < |b| && b[j] == a[|a| - 1]
    requires multiset(a) == multiset(b)
    ensures multiset(a[..|a| - 1]) == multiset(b[..j] + b[j + 1..])
  {
    var x := a[|a| - 1];
    assert a == a[..|a| - 1] + [x];
    assert b == b[..j] + [x] + b[j + 1..];
    var a', b' := a[..|a| - 1], b[..j] + b[j + 1..];
    assert multiset(a) == multiset(a') + multiset{x};
    assert multiset(b) == multiset(b') + multiset{x};
    forall y ensures multiset(a')[y] == multiset(b')[y] {
      assert multiset(a)[y] == multiset(a')[y] + multiset{x}[y];
      assert multiset(b)[y] == multiset(b')[y] + multiset{x}[y];
    }
  }

  /** Sums do not depend on the order the items are visited in. */
  lemma {:induction false} SumCostPermutation(a: seq<CostItem>, b: seq<CostItem>, k: DimensionKey, t: CostType)
    requires multiset(a) == multiset(b)
    ensures SumCost(a, k, t) == SumCost(b, k, t)
    decreases |a|
  {
    if |a| == 0 {
      assert |b| == |multiset(b)| == 0;
    } else {
      var x := a[|a| - 1];
      assert x in multiset(b);
      var j :| 0 <= j < |b| && b[j] == x;
      MultisetRemove(a, b, j);
      SumCostPermutation(a[..|a| - 1], b[..j] + b[j + 1..], k, t);
      SumCostRemove(b, j, k, t);
    }
  }

  /** Visiting the same items in another order (Go randomises map iteration)
      yields the same keys and the same five sums per key. */
  lemma AggregateOrderIndependent(a: seq<CostItem>, b: seq<CostItem>)
    requires multiset(a) == multiset(b)
    ensures Fold(a).Keys == Fold(b).Keys
    ensures forall k, t :: k in Fold(a) ==> Total(Fold(a)[k], t) == Total(Fold(b)[k], t)
  {
    FoldMatchesReference(a);
    FoldMatchesReference(b);
    forall k ensures k in Fold(a) <==> k in Fold(b) {
      if LastWith(a, k).Some? {
        var i := LastIndex(a, k);
        assert a[i] in multiset(b);
        var j :| 0 <= j < |b| && b[j] == a[i];
      }
      if LastWith(b, k).Some? {
        var i := LastIndex(b, k);
        assert b[i] in multiset(a);
        var j :| 0 <= j < |a| && a[j] == b[i];
      }
    }
    forall k, t | k in Fold(a) ensures Total(Fold(a)[k], t) == Total(Fold(b)[k], t) {
      SumCostPermutation(a, b, k, t);
    }
  }

  /** The retained Kubernetes fraction, unlike the sums, depends on the order:
      two items of one key with different fractions, visited in the two
      possible orders, leave different fractions. */
  lemma KubePercentDependsOnOrder(x: CostItem, y: CostItem)
    requires KeyOf(x) == KeyOf(y)
    requires x.listCost.kubernetesPercent != y.listCost.kubernetesPercent
    ensures multiset([x, y]) == multiset([y, x])
    ensures Fold([x, y])[KeyOf(x)].kubePercent != Fold([y, x])[KeyOf(x)].kubePercent
  {
    assert [x, y][..1] == [x];
    assert [y, x][..1] == [y];
  }

  // ---------------------------------------------------------------------------
  // Emission.

  /** A labelled numeric observation handed to the metrics sink. */
  datatype Observation = Observation(metric: string, labels: seq<string>, value: real)

  const CostTotalMetric := "aws_cloud_cost_total"
  const KubePercentMetric := "aws_cloud_cost_kubernetes_percent"

  /** The series an observation belongs to. */
  function SeriesId(o: Observation): (string, seq<string>)
  {
    (o.metric, o.labels)
  }

  /** The key's label values in the order the aggregation loop lists them. */
  function KeyLabels(k: DimensionKey): (r: seq<string>)
    ensures |r| == 9
  {
    [k.providerId, k.accountId, k.service, k.category, k.region, k.availabilityZone,
     k.owner, k.environment, k.cluster]
  }

  /** The cost_type label inserted at index 4, between category and region. */
  function SpliceCostType(labels: seq<string>, costType: string): (r: seq<string>)
    requires |labels| >= 4
    ensures |r| == |labels| + 1
    ensures forall i :: 0 <= i < 4 ==> r[i] == labels[i]
    ensures r[4] == costType
    ensures forall i :: 4 <= i < |labels| ==> r[i + 1] == labels[i]
  {
    labels[..4] + [costType] + labels[4..]
  }

  /** emitCost: one cost_total observation with the cost type spliced in. */
  function EmitCost(labels: seq<string>, costType: string, value: real): (o: Observation)
    requires |labels| >= 4
    ensures o.metric == CostTotalMetric && o.value == value
    ensures |o.labels| == |labels| + 1 && o.labels[4] == costType
    ensures o.labels[..4] == labels[..4] && o.labels[5..] == labels[4..]
  {
    Observation(CostTotalMetric, SpliceCostType(labels, costType), value)
  }

  /** The full label vector of a cost observation: provider_id, account_id,
      service, category, cost_type, region, availability_zone, owner,
      environment, cluster. */
  function CostLabels(k: DimensionKey, t: CostType): seq<string>
  {
    SpliceCostType(KeyLabels(k), CostTypeName(t))
  }

  /** The key named by a ten-label cost vector: every label but cost_type. */
  function LabelKey(labels: seq<string>): DimensionKey
    requires |labels| == 10
  {
    DimensionKey(labels[0], labels[1], labels[2], labels[3], labels[5], labels[6], labels[7], labels[8], labels[9])
  }

  /** Reads key and cost type back from a ten-label cost vector. */
  function ParseCostLabels(labels: seq<string>): Option<(DimensionKey, CostType)>
  {
    if |labels| != 10 then None
    else match CostTypeOfName(labels[4])
      case None => None
      case Some(t) => Some((LabelKey(labels), t))
  }

  /** The label order is exactly the descriptor's: reading the labels back by
      position recovers the key and the cost type, so distinct (key, type)
      pairs never share a label vector. */
  lemma CostLabelsRoundTrip(k: DimensionKey, t: CostType)
    ensures CostLabels(k, t) == [k.providerId, k.accountId, k.service, k.category, CostTypeName(t),
                                 k.region, k.availabilityZone, k.owner, k.environment, k.cluster]
    ensures |CostLabels(k, t)| == 10 && LabelKey(CostLabels(k, t)) == k
    ensures ParseCostLabels(CostLabels(k, t)) == Some((k, t))
  {
    var l := CostLabels(k, t);
    assert l[5] == k.region;
  }

  /** The Kubernetes-percent observation as collector.go emits it: only six
      labels, provider_id, account_id, service, category, "amortized_net",
      region. */
  function KubePercentAsWritten(k: DimensionKey, a: AggregatedCost): (o: Observation)
    ensures o.metric == KubePercentMetric && o.value == a.kubePercent
    ensures o.labels == [k.providerId, k.accountId, k.service, k.category, "amortized_net", k.region]
  {
    Observation(KubePercentMetric,
                [k.providerId, k.accountId, k.service, k.category, CostTypeName(AmortizedNet), k.region],
                a.kubePercent)
  }

  /** As written, two keys that differ only in availability zone, owner,
      environment or cluster produce the same Kubernetes-percent series,
      which the metrics registry rejects as a duplicate. */
  lemma KubePercentSeriesCollide(k1: DimensionKey, k2: DimensionKey, a1: AggregatedCost, a2: AggregatedCost)
    requires k1.providerId == k2.providerId && k1.accountId == k2.accountId
    requires k1.service == k2.service && k1.category == k2.category && k1.region == k2.region
    ensures SeriesId(KubePercentAsWritten(k1, a1)) == SeriesId(KubePercentAsWritten(k2, a2))
  {
  }

  /** Such keys arise from ordinary data: two items in one region but two
      availability zones aggregate to two keys whose as-written
      Kubernetes-percent series coincide. */
  lemma KubePercentCollisionReachable(x: CostItem, y: CostItem)
    requires x.properties == y.properties.(availabilityZone := x.properties.availabilityZone)
    requires x.properties.availabilityZone != y.properties.availabilityZone
    ensures KeyOf(x) in Fold([x, y]) && KeyOf(y) in Fold([x, y]) && KeyOf(x) != KeyOf(y)
    ensures SeriesId(KubePercentAsWritten(KeyOf(x), Fold([x, y])[KeyOf(x)]))
         == SeriesId(KubePercentAsWritten(KeyOf(y), Fold([x, y])[KeyOf(y)]))
  {
    assert [x, y][..1] == [x];
  }

  /** The Kubernetes-percent observation with the full label vector of the
      key's amortized_net cost series, so that every key has its own series. */
  function KubePercentObservation(k: DimensionKey, a: AggregatedCost): (o: Observation)
    ensures o.metric == KubePercentMetric && o.value == a.kubePercent
    ensures o.labels == CostLabels(k, AmortizedNet)
  {
    Observation(KubePercentMetric, CostLabels(k, AmortizedNet), a.kubePercent)
  }

  /** Which Kubernetes-percent labelling an emission uses: collector.go's
      six-label observation, or the corrected one under the key's full label
      vector. */
  datatype KubeStyle = AsWritten | Corrected

  /** The Kubernetes-percent observation of a key in the given labelling. */
  function KubeObservation(style: KubeStyle, k: DimensionKey, a: AggregatedCost): (o: Observation)
    ensures o.metric == KubePercentMetric && o.value == a.kubePercent
    ensures style == AsWritten ==> o == KubePercentAsWritten(k, a)
    ensures style == Corrected ==> o == KubePercentObservation(k, a)
  {
    match style
    case AsWritten => KubePercentAsWritten(k, a)
    case Corrected => KubePercentObservation(k, a)
  }

  /** Observations per key: five, plus one when the Kubernetes-percent output
      is enabled. */
  function PerKey(emitKube: bool): nat
  {
    if emitKube then 6 else 5
  }

  /** The cost_total observation of one key and cost type. */
  function CostObservation(k: DimensionKey, a: AggregatedCost, t: CostType): (o: Observation)
    ensures o.metric == CostTotalMetric && o.value == Total(a, t)
    ensures o.labels == CostLabels(k, t)
  {
    EmitCost(KeyLabels(k), CostTypeName(t), Total(a, t))
  }

  /** The observations for one key: one per cost type, in the order list,
      net, amortized_net, invoiced, amortized, each carrying that type's sum;
      then the Kubernetes fraction when enabled, labelled in `style`. */
  function EmitKey(k: DimensionKey, a: AggregatedCost, emitKube: bool, style: KubeStyle): (r: seq<Observation>)
    ensures |r| == PerKey(emitKube)
  {
    [CostObservation(k, a, List),
     CostObservation(k, a, Net),
     CostObservation(k, a, AmortizedNet),
     CostObservation(k, a, Invoiced),
     CostObservation(k, a, Amortized)]
    + (if emitKube then [KubeObservation(style, k, a)] else [])
  }

  /** The j-th observation of a key is its cost series of the j-th type,
      carrying that type's sum, and the sixth, when enabled, is its
      Kubernetes fraction. */
  lemma EmitKeyCosts(k: DimensionKey, a: AggregatedCost, emitKube: bool, style: KubeStyle)
    ensures forall j :: 0 <= j < 5 ==> EmitKey(k, a, emitKube, style)[j] == CostObservation(k, a, CostTypes[j])
    ensures forall j :: 0 <= j < 5 ==> EmitKey(k, a, emitKube, style)[j].value == Total(a, CostTypes[j])
    ensures emitKube ==> EmitKey(k, a, emitKube, style)[5] == KubeObservation(style, k, a)
  {
  }

  /** The five cost_type names are pairwise different. */
  lemma CostTypeNameInjective(t1: CostType, t2: CostType)
    requires t1 != t2
    ensures CostTypeName(t1) != CostTypeName(t2)
  {
    assert |CostTypeName(t1)| != |CostTypeName(t2)|;
  }

  /** In the corrected labelling every observation of a key carries that key
      in its labels. */
  lemma EmitKeyLabelled(k: DimensionKey, a: AggregatedCost, emitKube: bool)
    ensures LabelledWith(EmitKey(k, a, emitKube, Corrected), [k])
  {
    var r := EmitKey(k, a, emitKube, Corrected);
    EmitKeyCosts(k, a, emitKube, Corrected);
    forall p | 0 <= p < |r| ensures |r[p].labels| == 10 && LabelKey(r[p].labels) in [k] {
      if p < 5 {
        CostLabelsRoundTrip(k, CostTypes[p]);
      } else {
        CostLabelsRoundTrip(k, AmortizedNet);
      }
    }
  }

  /** The observations of one key are pairwise distinct series, in either
      labelling. */
  lemma EmitKeyDistinct(k: DimensionKey, a: AggregatedCost, emitKube: bool, style: KubeStyle)
    ensures DistinctSeries(EmitKey(k, a, emitKube, style))
  {
    var r := EmitKey(k, a, emitKube, style);
    EmitKeyCosts(k, a, emitKube, style);
    forall p, q | 0 <= p < q < |r| ensures SeriesId(r[p]) != SeriesId(r[q]) {
      if q < 5 {
        CostTypeNameInjective(CostTypes[p], CostTypes[q]);
        assert r[p].labels[4] != r[q].labels[4];
      } else {
        assert r[p].metric != r[q].metric;
      }
    }
  }

  /** Whether `keys` lists the keys of `agg`, each once, as a range over the
      map does. */
  ghost predicate Enumerates(keys: seq<DimensionKey>, agg: map<DimensionKey, AggregatedCost>)
  {
    && (forall i, j :: 0 <= i < j < |keys| ==> keys[i] != keys[j])
    && (forall k :: k in agg <==> k in keys)
  }

  /** One block of observations per listed key, in the listed order. */
  function KeyBlocks(agg: map<DimensionKey, AggregatedCost>, keys: seq<DimensionKey>, emitKube: bool,
                     style: KubeStyle)
    : (r: seq<seq<Observation>>)
    requires forall i :: 0 <= i < |keys| ==> keys[i] in agg
    ensures |r| == |keys|
    ensures forall i :: 0 <= i < |keys| ==> r[i] == EmitKey(keys[i], agg[keys[i]], emitKube, style)
  {
    seq(|keys|, i requires 0 <= i < |keys| => EmitKey(keys[i], agg[keys[i]], emitKube, style))
  }

  /** The blocks one after another. */
  function Concat(blocks: seq<seq<Observation>>): seq<Observation>
    decreases |blocks|
  {
    if |blocks| == 0 then [] else blocks[0] + Concat(blocks[1..])
  }

  /** Position of the j-th observation of the i-th key. */
  function Position(emitKube: bool, i: int, j: int): int
  {
    if emitKube then 6 * i + j else 5 * i + j
  }

  /** Whether every block has PerKey observations. */
  ghost predicate Uniform(blocks: seq<seq<Observation>>, emitKube: bool)
  {
    forall x :: 0 <= x < |blocks| ==> |blocks[x]| == PerKey(emitKube)
  }

  /** Concatenating blocks of PerKey observations each puts the j-th
      observation of the i-th block at position PerKey * i + j. */
  lemma {:induction false} ConcatLayout(blocks: seq<seq<Observation>>, emitKube: bool, i: int, j: int)
    requires Uniform(blocks, emitKube)
    requires 0 <= i < |blocks| && 0 <= j < PerKey(emitKube)
    ensures |Concat(blocks)| == Position(emitKube, |blocks|, 0)
    ensures Position(emitKube, i, j) < |Concat(blocks)|
    ensures Concat(blocks)[Position(emitKube, i, j)] == blocks[i][j]
    decreases |blocks|
  {
    var rest := blocks[1..];
    if i == 0 {
      if |rest| > 0 {
        ConcatLayout(rest, emitKube, 0, j);
      }
    } else {
      ConcatLayout(rest, emitKube, i - 1, j);
      assert rest[i - 1] == blocks[i];
      var p := Position(emitKube, i - 1, j);
      assert Concat(blocks)[|blocks[0]| + p] == Concat(rest)[p];
    }
  }

  /** Blocks of PerKey observations each concatenate to PerKey observations
      per block. */
  lemma {:induction false} ConcatLength(blocks: seq<seq<Observation>>, emitKube: bool)
    requires Uniform(blocks, emitKube)
    ensures |Concat(blocks)| == Position(emitKube, |blocks|, 0)
    decreases |blocks|
  {
    if |blocks| > 0 {
      ConcatLength(blocks[1..], emitKube);
    }
  }

  /** A sequence without repetitions has as many elements as its set. */
  lemma {:induction false} DistinctCount(keys: seq<DimensionKey>)
    requires forall i, j :: 0 <= i < j < |keys| ==> keys[i] != keys[j]
    ensures |(set x | x in keys)| == |keys|
    decreases |keys|
  {
    if |keys| > 0 {
      var init := keys[..|keys| - 1];
      var last := keys[|keys| - 1];
      DistinctCount(init);
      assert (set x | x in keys) == (set x | x in init) + {last};
      assert last !in (set x | x in init);
    }
  }

  /** An enumeration lists as many keys as the map holds. */
  lemma EnumerationCount(keys: seq<DimensionKey>, agg: map<DimensionKey, AggregatedCost>)
    requires Enumerates(keys, agg)
    ensures |keys| == |agg|
  {
    DistinctCount(keys);
    assert agg.Keys == (set x | x in keys);
  }

  /** The emission loop over the aggregated keys in the given order: key by
      key, each key's block of observations in turn. */
  function EmitCostMetrics(agg: map<DimensionKey, AggregatedCost>, keys: seq<DimensionKey>, emitKube: bool,
                           style: KubeStyle)
    : (r: seq<Observation>)
    requires forall i :: 0 <= i < |keys| ==> keys[i] in agg
    ensures |r| == Position(emitKube, |keys|, 0)
  {
    ConcatLength(KeyBlocks(agg, keys, emitKube, style), emitKube);
    Concat(KeyBlocks(agg, keys, emitKube, style))
  }

  /** Where each observation sits: the j-th observation of the i-th key is at
      position PerKey * i + j, so keys are emitted in the listed order, block
      by block. */
  lemma EmitCostMetricsLayout(agg: map<DimensionKey, AggregatedCost>, keys: seq<DimensionKey>,
                              emitKube: bool, style: KubeStyle, i: int, j: int)
    requires forall i :: 0 <= i < |keys| ==> keys[i] in agg
    requires 0 <= i < |keys| && 0 <= j < PerKey(emitKube)
    ensures Position(emitKube, i, j) < |EmitCostMetrics(agg, keys, emitKube, style)|
    ensures EmitCostMetrics(agg, keys, emitKube, style)[Position(emitKube, i, j)]
         == EmitKey(keys[i], agg[keys[i]], emitKube, style)[j]
  {
    ConcatLayout(KeyBlocks(agg, keys, emitKube, style), emitKube, i, j);
  }

  /** Every observation of `r` carries one of `keys` in its labels. */
  ghost predicate LabelledWith(r: seq<Observation>, keys: seq<DimensionKey>)
  {
    forall p :: 0 <= p < |r| ==> |r[p].labels| == 10 && LabelKey(r[p].labels) in keys
  }

  /** Blocks labelled with their own keys concatenate to observations
      labelled with one of the keys. */
  lemma {:induction false} ConcatLabelled(blocks: seq<seq<Observation>>, keys: seq<DimensionKey>)
    requires |blocks| == |keys|
    requires forall x :: 0 <= x < |blocks| ==> LabelledWith(blocks[x], [keys[x]])
    ensures LabelledWith(Concat(blocks), keys)
    decreases |blocks|
  {
    if |blocks| > 0 {
      ConcatLabelled(blocks[1..], keys[1..]);
      var r := Concat(blocks);
      forall p | 0 <= p < |r| ensures |r[p].labels| == 10 && LabelKey(r[p].labels) in keys {
        if p >= |blocks[0]| {
          assert r[p] == Concat(blocks[1..])[p - |blocks[0]|];
          assert LabelKey(r[p].labels) in keys[1..];
        } else {
          assert r[p] == blocks[0][p];
          assert LabelKey(r[p].labels) in [keys[0]];
        }
      }
    }
  }

  /** Every emitted observation carries one of the listed keys in its labels. */
  lemma EmittedKeysListed(agg: map<DimensionKey, AggregatedCost>, keys: seq<DimensionKey>, emitKube: bool)
    requires forall i :: 0 <= i < |keys| ==> keys[i] in agg
    ensures LabelledWith(EmitCostMetrics(agg, keys, emitKube, Corrected), keys)
  {
    var blocks := KeyBlocks(agg, keys, emitKube, Corrected);
    forall x | 0 <= x < |blocks| ensures LabelledWith(blocks[x], [keys[x]]) {
      EmitKeyLabelled(keys[x], agg[keys[x]], emitKube);
    }
    ConcatLabelled(blocks, keys);
  }

  /** No two observations of the sequence share metric name and labels. */
  ghost predicate DistinctSeries(r: seq<Observation>)
  {
    forall p, q :: 0 <= p < q < |r| ==> SeriesId(r[p]) != SeriesId(r[q])
  }

  /** Two blocks of distinct series whose labels name different keys join
      into one block of distinct series. */
  lemma DistinctConcat(x: seq<Observation>, y: seq<Observation>, k: DimensionKey, others: seq<DimensionKey>)
    requires DistinctSeries(x) && DistinctSeries(y)
    requires LabelledWith(x, [k]) && LabelledWith(y, others)
    requires k !in others
    ensures DistinctSeries(x + y)
  {
    var r := x + y;
    forall p, q | 0 <= p < q < |r| ensures SeriesId(r[p]) != SeriesId(r[q]) {
      if q < |x| {
        assert r[p] == x[p] && r[q] == x[q];
      } else if p < |x| {
        assert r[p] == x[p] && r[q] == y[q - |x|];
        assert LabelKey(r[q].labels) in others;
      } else {
        assert r[p] == y[p - |x|] && r[q] == y[q - |x|];
      }
    }
  }

  /** Blocks of distinct series, labelled with pairwise different keys,
      concatenate to distinct series. */
  lemma {:induction false} ConcatDistinct(blocks: seq<seq<Observation>>, keys: seq<DimensionKey>)
    requires |blocks| == |keys|
    requires forall i, j :: 0 <= i < j < |keys| ==> keys[i] != keys[j]
    requires forall x :: 0 <= x < |blocks| ==> LabelledWith(blocks[x], [keys[x]]) && DistinctSeries(blocks[x])
    ensures DistinctSeries(Concat(blocks))
    decreases |blocks|
  {
    if |blocks| > 0 {
      var rest := keys[1..];
      ConcatDistinct(blocks[1..], rest);
      ConcatLabelled(blocks[1..], rest);
      assert keys[0] !in rest;
      DistinctConcat(blocks[0], Concat(blocks[1..]), keys[0], rest);
    }
  }

  /** Every emitted observation is its own series: with the keys listed once
      each, no two observations share metric name and label values. */
  lemma EmittedSeriesDistinct(agg: map<DimensionKey, AggregatedCost>, keys: seq<DimensionKey>, emitKube: bool)
    requires forall i :: 0 <= i < |keys| ==> keys[i] in agg
    requires forall i, j :: 0 <= i < j < |keys| ==> keys[i] != keys[j]
    ensures DistinctSeries(EmitCostMetrics(agg, keys, emitKube, Corrected))
  {
    var blocks := KeyBlocks(agg, keys, emitKube, Corrected);
    forall x | 0 <= x < |blocks| ensures LabelledWith(blocks[x], [keys[x]]) && DistinctSeries(blocks[x]) {
      EmitKeyLabelled(keys[x], agg[keys[x]], emitKube);
      EmitKeyDistinct(keys[x], agg[keys[x]], emitKube, Corrected);
    }
    ConcatDistinct(blocks, keys);
  }

  /** The keys of a fold in order of first occurrence: one of the orders a
      range over the aggregation map may visit them in. */
  function KeyOrder(items: seq<CostItem>): (r: seq<DimensionKey>)
    ensures Enumerates(r, Fold(items))
    decreases |items|
  {
    if |items| == 0 then []
    else
      var ks := KeyOrder(items[..|items| - 1]);
      var k := KeyOf(items[|items| - 1]);
      if k in ks then ks else ks + [k]
  }

  /** Position of a cost type in the emission order. */
  function CostTypeIndex(t: CostType): (j: nat)
    ensures j < 5 && CostTypes[j] == t
  {
    match t
    case List => 0
    case Net => 1
    case AmortizedNet => 2
    case Invoiced => 3
    case Amortized => 4
  }

  /** Metric names the emission loop uses. */
  ghost predicate MetricsWithin(r: seq<Observation>, emitKube: bool)
  {
    forall p :: 0 <= p < |r| ==> r[p].metric == CostTotalMetric || (emitKube && r[p].metric == KubePercentMetric)
  }

  /** Blocks within the metric names concatenate to observations within them. */
  lemma {:induction false} ConcatMetrics(blocks: seq<seq<Observation>>, emitKube: bool)
    requires forall x :: 0 <= x < |blocks| ==> MetricsWithin(blocks[x], emitKube)
    ensures MetricsWithin(Concat(blocks), emitKube)
    decreases |blocks|
  {
    if |blocks| > 0 {
      ConcatMetrics(blocks[1..], emitKube);
      var r := Concat(blocks);
      forall p | 0 <= p < |r|
        ensures r[p].metric == CostTotalMetric || (emitKube && r[p].metric == KubePercentMetric)
      {
        if p >= |blocks[0]| {
          assert r[p] == Concat(blocks[1..])[p - |blocks[0]|];
        } else {
          assert r[p] == blocks[0][p];
        }
      }
    }
  }

  /** Kubernetes-percent observations appear only when enabled. */
  lemma EmittedMetrics(agg: map<DimensionKey, AggregatedCost>, keys: seq<DimensionKey>, emitKube: bool,
                       style: KubeStyle)
    requires forall i :: 0 <= i < |keys| ==> keys[i] in agg
    ensures MetricsWithin(EmitCostMetrics(agg, keys, emitKube, style), emitKube)
  {
    var blocks := KeyBlocks(agg, keys, emitKube, style);
    forall x | 0 <= x < |blocks| ensures MetricsWithin(blocks[x], emitKube) {
      EmitKeyCosts(keys[x], agg[keys[x]], emitKube, style);
    }
    ConcatMetrics(blocks, emitKube);
  }

  /** Every listed key's five cost series are among the emitted observations. */
  lemma EmittedCostsComplete(agg: map<DimensionKey, AggregatedCost>, keys: seq<DimensionKey>, emitKube: bool,
                             style: KubeStyle)
    requires forall i :: 0 <= i < |keys| ==> keys[i] in agg
    ensures forall k, t :: k in keys ==> CostObservation(k, agg[k], t) in EmitCostMetrics(agg, keys, emitKube, style)
  {
    forall k, t | k in keys ensures CostObservation(k, agg[k], t) in EmitCostMetrics(agg, keys, emitKube, style) {
      var i :| 0 <= i < |keys| && keys[i] == k;
      EmittedCostAt(agg, keys, emitKube, style, i, t);
    }
  }

  /** The i-th key's cost series of type t is emitted. */
  lemma EmittedCostAt(agg: map<DimensionKey, AggregatedCost>, keys: seq<DimensionKey>, emitKube: bool,
                      style: KubeStyle, i: int, t: CostType)
    requires forall i :: 0 <= i < |keys| ==> keys[i] in agg
    requires 0 <= i < |keys|
    ensures CostObservation(keys[i], agg[keys[i]], t) in EmitCostMetrics(agg, keys, emitKube, style)
  {
    var r := EmitCostMetrics(agg, keys, emitKube, style);
    var j := CostTypeIndex(t);
    var p := Position(emitKube, i, j);
    EmitCostMetricsLayout(agg, keys, emitKube, style, i, j);
    EmitKeyCosts(keys[i], agg[keys[i]], emitKube, style);
    assert r[p] == EmitKey(keys[i], agg[keys[i]], emitKube, style)[j];
  }

  /** With the Kubernetes-percent output on, every listed key's fraction is
      among the emitted observations. */
  lemma EmittedKubeComplete(agg: map<DimensionKey, AggregatedCost>, keys: seq<DimensionKey>, style: KubeStyle)
    requires forall i :: 0 <= i < |keys| ==> keys[i] in agg
    ensures forall k :: k in keys ==> KubeObservation(style, k, agg[k]) in EmitCostMetrics(agg, keys, true, style)
  {
    var r := EmitCostMetrics(agg, keys, true, style);
    forall k | k in keys ensures KubeObservation(style, k, agg[k]) in r {
      var i :| 0 <= i < |keys| && keys[i] == k;
      EmitCostMetricsLayout(agg, keys, true, style, i, 5);
      EmitKeyCosts(k, agg[k], true, style);
      assert r[Position(true, i, 5)] == EmitKey(k, agg[k], true, style)[5];
    }
  }

  /** Over the key enumeration, every aggregated key gets its five cost
      observations and, when enabled, its Kubernetes-percent observation, and
      nothing outside the two metric names is emitted. */
  lemma EmitSnapshotCoverage(agg: map<DimensionKey, AggregatedCost>, keys: seq<DimensionKey>, emitKube: bool,
                             style: KubeStyle)
    requires Enumerates(keys, agg)
    ensures forall i :: 0 <= i < |keys| ==> keys[i] in agg
    ensures var r := EmitCostMetrics(agg, keys, emitKube, style);
      && (forall k, t :: k in agg ==> CostObservation(k, agg[k], t) in r)
      && (emitKube ==> forall k :: k in agg ==> KubeObservation(style, k, agg[k]) in r)
      && MetricsWithin(r, emitKube)
  {
    assert forall i :: 0 <= i < |keys| ==> keys[i] in agg;
    EmittedMetrics(agg, keys, emitKube, style);
    EmittedCostsComplete(agg, keys, emitKube, style);
    if emitKube {
      EmittedKubeComplete(agg, keys, style);
    }
  }

  /** Over the key enumeration, the corrected emission labels every
      observation with an aggregated key and repeats no series. */
  lemma EmitSnapshotDistinct(agg: map<DimensionKey, AggregatedCost>, keys: seq<DimensionKey>, emitKube: bool)
    requires Enumerates(keys, agg)
    ensures forall i :: 0 <= i < |keys| ==> keys[i] in agg
    ensures var r := EmitCostMetrics(agg, keys, emitKube, Corrected);
      && (forall p :: 0 <= p < |r| ==> |r[p].labels| == 10 && LabelKey(r[p].labels) in agg)
      && DistinctSeries(r)
  {
    assert forall i :: 0 <= i < |keys| ==> keys[i] in agg;
    var r := EmitCostMetrics(agg, keys, emitKube, Corrected);
    EmittedSeriesDistinct(agg, keys, emitKube);
    EmittedKeysListed(agg, keys, emitKube);
    forall p | 0 <= p < |r| ensures |r[p].labels| == 10 && LabelKey(r[p].labels) in agg {
      assert LabelKey(r[p].labels) in keys;
    }
  }

  /** Over an enumeration of the map, PerKey observations per aggregated key. */
  lemma EmitSnapshotCount(agg: map<DimensionKey, AggregatedCost>, keys: seq<DimensionKey>, emitKube: bool,
                          style: KubeStyle)
    requires Enumerates(keys, agg)
    ensures forall i :: 0 <= i < |keys| ==> keys[i] in agg
    ensures |EmitCostMetrics(agg, keys, emitKube, style)| == Position(emitKube, |agg|, 0)
  {
    EnumerationCount(keys, agg);
  }

  /** Everything a scrape emits for one snapshot: every key of the
      aggregation gets its five cost series (and its Kubernetes-percent series
      when enabled), with exactly PerKey observations per key; in the
      corrected labelling, moreover, every observation belongs to one of the
      keys and no two observations share a series. */
  function EmitSnapshot(d: CostResponse, emitKube: bool, style: KubeStyle): (r: seq<Observation>)
    ensures forall k, t :: k in Aggregate(d) ==> CostObservation(k, Aggregate(d)[k], t) in r
    ensures emitKube ==> forall k :: k in Aggregate(d) ==> KubeObservation(style, k, Aggregate(d)[k]) in r
    ensures MetricsWithin(r, emitKube)
    ensures |r| == Position(emitKube, |Aggregate(d)|, 0)
    ensures style == Corrected ==>
              forall p :: 0 <= p < |r| ==> |r[p].labels| == 10 && LabelKey(r[p].labels) in Aggregate(d)
    ensures style == Corrected ==> DistinctSeries(r)
  {
    var agg := Aggregate(d);
    var keys := KeyOrder(Items(d.data.sets));
    EmitSnapshotCoverage(agg, keys, emitKube, style);
    EmitSnapshotDistinct(agg, keys, emitKube);
    EmitSnapshotCount(agg, keys, emitKube, style);
    EmitCostMetrics(agg, keys, emitKube, style)
  }

  /** The Kubernetes-percent observation of the i-th listed key sits at the
      end of that key's block. */
  lemma EmittedKubeAt(agg: map<DimensionKey, AggregatedCost>, keys: seq<DimensionKey>, style: KubeStyle, i: int)
    requires forall i :: 0 <= i < |keys| ==> keys[i] in agg
    requires 0 <= i < |keys|
    ensures Position(true, i, 5) < |EmitCostMetrics(agg, keys, true, style)|
    ensures EmitCostMetrics(agg, keys, true, style)[Position(true, i, 5)]
         == KubeObservation(style, keys[i], agg[keys[i]])
  {
    EmitCostMetricsLayout(agg, keys, true, style, i, 5);
    EmitKeyCosts(keys[i], agg[keys[i]], true, style);
  }

  /** As written, two listed keys that agree on provider, account, service,
      category and region put the same Kubernetes-percent series into the
      emission twice. */
  lemma EmittedKubeRepeats(agg: map<DimensionKey, AggregatedCost>, keys: seq<DimensionKey>, i: int, j: int)
    requires forall i :: 0 <= i < |keys| ==> keys[i] in agg
    requires 0 <= i < j < |keys|
    requires keys[i].providerId == keys[j].providerId && keys[i].accountId == keys[j].accountId
    requires keys[i].service == keys[j].service && keys[i].category == keys[j].category
    requires keys[i].region == keys[j].region
    ensures !DistinctSeries(EmitCostMetrics(agg, keys, true, AsWritten))
  {
    var r := EmitCostMetrics(agg, keys, true, AsWritten);
    EmittedKubeAt(agg, keys, AsWritten, i);
    EmittedKubeAt(agg, keys, AsWritten, j);
    KubePercentSeriesCollide(keys[i], keys[j], agg[keys[i]], agg[keys[j]]);
    var p, q := Position(true, i, 5), Position(true, j, 5);
    assert p < q && SeriesId(r[p]) == SeriesId(r[q]);
  }

  /** As written, a snapshot holding two items that differ only in
      availability zone makes the scrape emit one Kubernetes-percent series
      twice. */
  lemma AsWrittenRepeatsSeries(d: CostResponse, x: CostItem, y: CostItem)
    requires x in Items(d.data.sets) && y in Items(d.data.sets)
    requires x.properties == y.properties.(availabilityZone := x.properties.availabilityZone)
    requires x.properties.availabilityZone != y.properties.availabilityZone
    ensures !DistinctSeries(EmitSnapshot(d, true, AsWritten))
  {
    var agg := Aggregate(d);
    var keys := KeyOrder(Items(d.data.sets));
    assert Enumerates(keys, agg);
    var i :| 0 <= i < |keys| && keys[i] == KeyOf(x);
    var j :| 0 <= j < |keys| && keys[j] == KeyOf(y);
    if i < j {
      EmittedKubeRepeats(agg, keys, i, j);
    } else {
      assert i != j;
      EmittedKubeRepeats(agg, keys, j, i);
    }
  }
}
