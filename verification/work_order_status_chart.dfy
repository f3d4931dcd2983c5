/** The work-order status pie chart of the analytics page
    (src/components/Analytics/WorkOrderStatusChart.tsx): one slice per status
    that occurs, counted by a `reduce` into a keyed record, the fixed
    demonstration slices when there are no work orders, and the completion
    rate under the chart. */
module WorkOrderStatusChart {

  import opened Wrappers
  import Seqs
  import JsNumber
  import Metrics
  import opened Domain

  function HasStatus(st: WorkOrderStatus): WorkOrder -> bool {
    (wo: WorkOrder) => wo.status == st
  }

  /** How many of the orders have status `st`, counted from the left. */
  function StatusCount(orders: seq<WorkOrder>, st: WorkOrderStatus): (n: nat)
    ensures n <= |orders|
  {
    if orders == [] then 0
    else StatusCount(orders[..|orders| - 1], st) + (if orders[|orders| - 1].status == st then 1 else 0)
  }

  /** One more order adds one to its own status's count only. */
  lemma StatusCountSnoc(orders: seq<WorkOrder>, wo: WorkOrder, st: WorkOrderStatus)
    ensures StatusCount(orders + [wo], st) == StatusCount(orders, st) + (if wo.status == st then 1 else 0)
  {
    assert (orders + [wo])[..|orders|] == orders;
  }

  /** The count is the length of `orders.filter(wo => wo.status === st)`. */
  lemma {:induction false} StatusCountIsFilterCount(orders: seq<WorkOrder>, st: WorkOrderStatus)
    ensures StatusCount(orders, st) == Seqs.Count(orders, HasStatus(st))
  {
    if orders != [] {
      var init, last := orders[..|orders| - 1], orders[|orders| - 1];
      StatusCountIsFilterCount(init, st);
      assert orders == init + [last];
      Seqs.FilterDistributes(init, [last], HasStatus(st));
      Seqs.FilterSingleton(last, HasStatus(st));
    }
  }

  /** A status no order has counts zero. */
  lemma {:induction false} StatusCountZero(orders: seq<WorkOrder>, st: WorkOrderStatus)
    requires forall i :: 0 <= i < |orders| ==> orders[i].status != st
    ensures StatusCount(orders, st) == 0
  {
    if orders != [] {
      StatusCountZero(orders[..|orders| - 1], st);
    }
  }

  /** A status some order has counts at least one. */
  lemma {:induction false} StatusCountPositive(orders: seq<WorkOrder>, st: WorkOrderStatus, i: nat)
    requires i < |orders| && orders[i].status == st
    ensures StatusCount(orders, st) >= 1
  {
    if i < |orders| - 1 {
      StatusCountPositive(orders[..|orders| - 1], st, i);
    }
  }

  /** The record's keys: each status that occurs, once, in the order of its
      first occurrence. */
  function FirstOccurrences(orders: seq<WorkOrder>): (keys: seq<WorkOrderStatus>)
    ensures Seqs.NoDuplicates(keys)
    ensures forall st :: st in keys <==> exists i :: 0 <= i < |orders| && orders[i].status == st
  {
    if orders == [] then []
    else
      var keys := FirstOccurrences(orders[..|orders| - 1]);
      var last := orders[|orders| - 1].status;
      assert forall i :: 0 <= i < |orders| - 1 ==> orders[..|orders| - 1][i] == orders[i];
      if last in keys then keys else keys + [last]
  }

  /** Keys are in order of first occurrence: every status met before a
      key's first occurrence is an earlier key. */
  lemma {:induction false} FirstOccurrenceOrder(orders: seq<WorkOrder>, j: nat)
    requires j < |FirstOccurrences(orders)|
    ensures var keys := FirstOccurrences(orders);
      exists i :: 0 <= i < |orders| && orders[i].status == keys[j]
                  && forall k :: 0 <= k < i ==> orders[k].status in keys[..j]
  {
    var init := orders[..|orders| - 1];
    var keys := FirstOccurrences(init);
    var r := FirstOccurrences(orders);
    assert forall i :: 0 <= i < |init| ==> init[i] == orders[i];
    if j < |keys| {
      FirstOccurrenceOrder(init, j);
      assert r[..j] == keys[..j];
      var i :| 0 <= i < |init| && init[i].status == keys[j]
                && forall k :: 0 <= k < i ==> init[k].status in keys[..j];
      assert orders[i].status == r[j];
    } else {
      assert r == keys + [orders[|orders| - 1].status];
      assert r[..j] == keys;
      var i := |orders| - 1;
      assert forall k :: 0 <= k < i ==> orders[k].status == init[k].status;
    }
  }

  /** What one more order does to the keys and the counts. */
  lemma PrefixStep(orders: seq<WorkOrder>, i: nat)
    requires i < |orders|
    ensures var st := orders[i].status;
      var keys := FirstOccurrences(orders[..i]);
      FirstOccurrences(orders[..i + 1]) == if st in keys then keys else keys + [st]
    ensures forall st :: StatusCount(orders[..i + 1], st)
                         == StatusCount(orders[..i], st) + (if orders[i].status == st then 1 else 0)
    ensures orders[i].status !in FirstOccurrences(orders[..i]) ==> StatusCount(orders[..i], orders[i].status) == 0
  {
    var wo := orders[i];
    assert orders[..i + 1] == orders[..i] + [wo];
    assert orders[..i + 1][..i] == orders[..i];
    forall st | true
      ensures StatusCount(orders[..i + 1], st) == StatusCount(orders[..i], st) + (if wo.status == st then 1 else 0)
    {
      StatusCountSnoc(orders[..i], wo, st);
    }
    if wo.status !in FirstOccurrences(orders[..i]) {
      StatusCountZero(orders[..i], wo.status);
    }
  }

  /** Every key counts at least one order. */
  lemma KeysCountPositive(orders: seq<WorkOrder>)
    ensures forall st :: st in FirstOccurrences(orders) ==> StatusCount(orders, st) >= 1
  {
    forall st | st in FirstOccurrences(orders)
      ensures StatusCount(orders, st) >= 1
    {
      var j :| 0 <= j < |orders| && orders[j].status == st;
      StatusCountPositive(orders, st, j);
    }
  }

  /** One step of the `reduce`, `acc[status] = (acc[status] || 0) + 1`: a
      new status becomes the last key with count 1, a known one counts one
      more. */
  method Tally(keys: seq<WorkOrderStatus>, acc: map<WorkOrderStatus, nat>, st: WorkOrderStatus)
    returns (keys': seq<WorkOrderStatus>, acc': map<WorkOrderStatus, nat>)
    requires forall s :: s in acc <==> s in keys
    ensures keys' == if st in keys then keys else keys + [st]
    ensures forall s :: s in acc' <==> s in keys'
    ensures forall s :: s in acc' ==> acc'[s] == (if s in acc then acc[s] else 0) + (if s == st then 1 else 0)
  {
    if st in acc {
      keys', acc' := keys, acc[st := acc[st] + 1];
    } else {
      keys', acc' := keys + [st], acc[st := 1];
    }
  }

  /** The `reduce` that builds `statusCounts`: a record from status to count,
      whose keys are listed in insertion order. */
  method StatusCounts(orders: seq<WorkOrder>) returns (keys: seq<WorkOrderStatus>, acc: map<WorkOrderStatus, nat>)
    ensures keys == FirstOccurrences(orders)
    ensures forall st :: st in acc <==> st in keys
    ensures forall st :: st in acc ==> acc[st] == StatusCount(orders, st) && acc[st] >= 1
  {
    keys := [];
    acc := map[];
    var i := 0;
    while i < |orders|
      invariant 0 <= i <= |orders|
      invariant keys == FirstOccurrences(orders[..i])
      invariant forall st :: st in acc <==> st in keys
      invariant forall st :: st in acc ==> acc[st] == StatusCount(orders[..i], st)
    {
      PrefixStep(orders, i);
      keys, acc := Tally(keys, acc, orders[i].status);
      i := i + 1;
    }
    assert orders[..i] == orders;
    KeysCountPositive(orders);
  }

  /** The counts of the given keys, added up from the left. */
  function KeyCountsSum(orders: seq<WorkOrder>, keys: seq<WorkOrderStatus>): nat {
    if keys == [] then 0
    else KeyCountsSum(orders, keys[..|keys| - 1]) + StatusCount(orders, keys[|keys| - 1])
  }

  /** One more order raises the sum over distinct keys by one exactly when
      its status is a key. */
  lemma {:induction false} KeyCountsSumSnoc(orders: seq<WorkOrder>, wo: WorkOrder, keys: seq<WorkOrderStatus>)
    requires Seqs.NoDuplicates(keys)
    ensures KeyCountsSum(orders + [wo], keys) == KeyCountsSum(orders, keys) + (if wo.status in keys then 1 else 0)
  {
    if keys != [] {
      var init := keys[..|keys| - 1];
      var last := keys[|keys| - 1];
      assert keys == init + [last];
      assert last !in init;
      KeyCountsSumSnoc(orders, wo, init);
      StatusCountSnoc(orders, wo, last);
    }
  }

  /** The counts of the statuses that occur add up to the number of orders. */
  lemma {:induction false} CountsSumToLength(orders: seq<WorkOrder>)
    ensures KeyCountsSum(orders, FirstOccurrences(orders)) == |orders|
  {
    if orders != [] {
      var init := orders[..|orders| - 1];
      var last := orders[|orders| - 1];
      assert orders == init + [last];
      var keys := FirstOccurrences(init);
      CountsSumToLength(init);
      KeyCountsSumSnoc(init, last, keys);
      if last.status !in keys {
        var r := keys + [last.status];
        assert r[..|r| - 1] == keys;
        StatusCountSnoc(init, last, last.status);
        StatusCountZero(init, last.status);
      }
    }
  }

  /** A slice of the chart. */
  datatype Slice = Slice(name: string, value: nat, color: string, percentage: int)

  function StatusLabel(st: WorkOrderStatus): string {
    match st
    case Pending => "Pending"
    case InProgress => "In Progress"
    case Completed => "Completed"
    case OnHold => "On Hold"
  }

  function StatusColor(st: WorkOrderStatus): string {
    match st
    case Pending => "#f59e0b"
    case InProgress => "#3b82f6"
    case Completed => "#10b981"
    case OnHold => "#ef4444"
  }

  /** The slice of one status: its label, count, colour and rounded share. */
  function SliceFor(orders: seq<WorkOrder>, st: WorkOrderStatus): (s: Slice)
    requires |orders| > 0
    ensures s.name == StatusLabel(st) && s.value == StatusCount(orders, st) && s.color == StatusColor(st)
    ensures s.percentage == Metrics.RoundedPercent(s.value, |orders|)
    ensures 0 <= s.percentage <= 100
  {
    Slice(StatusLabel(st), StatusCount(orders, st), StatusColor(st),
          Metrics.RoundedPercent(StatusCount(orders, st), |orders|))
  }

  function Slices(orders: seq<WorkOrder>, keys: seq<WorkOrderStatus>): (r: seq<Slice>)
    requires |orders| > 0
    ensures |r| == |keys|
    ensures forall j :: 0 <= j < |keys| ==> r[j] == SliceFor(orders, keys[j])
  {
    seq(|keys|, j requires 0 <= j < |keys| => SliceFor(orders, keys[j]))
  }

  /** The demonstration slices shown while there are no work orders. */
  const MockData: seq<Slice> := [
    Slice("Completed", 45, "#10b981", 45),
    Slice("In Progress", 30, "#3b82f6", 30),
    Slice("Pending", 20, "#f59e0b", 20),
    Slice("On Hold", 5, "#ef4444", 5)]

  /** `chartData`: one slice per status that occurs, in order of first
      occurrence, each counting at least one order; the demonstration
      slices when there are no orders. */
  function ChartData(orders: seq<WorkOrder>): (r: seq<Slice>)
    ensures |orders| == 0 ==> r == MockData
    ensures |orders| > 0 ==> |r| == |FirstOccurrences(orders)|
    ensures |orders| > 0 ==> forall j :: 0 <= j < |r| ==>
      r[j].name == StatusLabel(FirstOccurrences(orders)[j])
      && r[j].value == StatusCount(orders, FirstOccurrences(orders)[j])
      && r[j].color == StatusColor(FirstOccurrences(orders)[j])
      && r[j].value >= 1 && r[j].percentage == Metrics.RoundedPercent(r[j].value, |orders|)
      && 0 <= r[j].percentage <= 100
  {
    if |orders| > 0 then
      var keys := FirstOccurrences(orders);
      KeysCountPositive(orders);
      assert forall j :: 0 <= j < |keys| ==> keys[j] in keys;
      Slices(orders, keys)
    else MockData
  }

  function SliceValue(s: Slice): int { s.value }

  /** `totalOrders`: the slices' values added up. */
  function TotalOrders(data: seq<Slice>): int {
    Seqs.SumInt(data, SliceValue)
  }

  function NamedCompleted(s: Slice): bool { s.name == "Completed" }

  /** Slice `j` is the one and only slice named "Completed". */
  predicate OnlyCompletedAt(data: seq<Slice>, j: nat)
    requires j < |data|
  {
    data[j].name == "Completed" && forall k :: 0 <= k < |data| && data[k].name == "Completed" ==> k == j
  }

  /** `completedOrders`: the value of the "Completed" slice, 0 without one. */
  function CompletedOrders(data: seq<Slice>): (n: nat)
    ensures (forall j :: 0 <= j < |data| ==> data[j].name != "Completed") ==> n == 0
    ensures forall j :: 0 <= j < |data| && OnlyCompletedAt(data, j) ==> n == data[j].value
  {
    match Seqs.Find(data, NamedCompleted)
    case None => 0
    case Some(s) => s.value
  }

  /** `completionRate`: completed over total as a whole percentage; 0 when
      the total is 0. */
  function CompletionRate(data: seq<Slice>): int {
    var total := TotalOrders(data);
    if total > 0 then JsNumber.Round(CompletedOrders(data) as real / total as real * 100.0) else 0
  }

  /** The slices of the real orders add up to the number of orders. */
  lemma {:induction false} SlicesSumToLength(orders: seq<WorkOrder>)
    requires |orders| > 0
    ensures TotalOrders(ChartData(orders)) == |orders|
  {
    var keys := FirstOccurrences(orders);
    SlicesSum(orders, keys);
    CountsSumToLength(orders);
  }

  lemma {:induction false} SlicesSum(orders: seq<WorkOrder>, keys: seq<WorkOrderStatus>)
    requires |orders| > 0
    ensures Seqs.SumInt(Slices(orders, keys), SliceValue) == KeyCountsSum(orders, keys)
  {
    if keys != [] {
      var init := keys[..|keys| - 1];
      SlicesSum(orders, init);
      assert Slices(orders, keys)[..|keys| - 1] == Slices(orders, init);
    }
  }

  /** Only the completed status is labelled "Completed". */
  lemma StatusLabelCompleted(st: WorkOrderStatus)
    ensures StatusLabel(st) == "Completed" <==> st == Completed
  {
    if st != Completed {
      assert StatusLabel(st)[0] != 'C';
    }
  }

  /** The slice of a status found among the orders is the only "Completed"
      slice when that status is the completed one. */
  lemma CompletedSliceUnique(orders: seq<WorkOrder>, j: nat)
    requires |orders| > 0 && j < |FirstOccurrences(orders)| && FirstOccurrences(orders)[j] == Completed
    ensures j < |ChartData(orders)| && OnlyCompletedAt(ChartData(orders), j)
  {
    var data, keys := ChartData(orders), FirstOccurrences(orders);
    StatusLabelCompleted(Completed);
    forall k | 0 <= k < |data| && data[k].name == "Completed"
      ensures k == j
    {
      StatusLabelCompleted(keys[k]);
    }
  }

  /** Without a completed order no slice is named "Completed". */
  lemma NoCompletedSlice(orders: seq<WorkOrder>)
    requires |orders| > 0 && Completed !in FirstOccurrences(orders)
    ensures forall k :: 0 <= k < |ChartData(orders)| ==> ChartData(orders)[k].name != "Completed"
  {
    var data, keys := ChartData(orders), FirstOccurrences(orders);
    forall k | 0 <= k < |data|
      ensures data[k].name != "Completed"
    {
      StatusLabelCompleted(keys[k]);
    }
  }

  /** With real orders, the "Completed" slice holds the number of
      completed orders, and there is no such slice when none is completed. */
  lemma CompletedSliceCountsCompleted(orders: seq<WorkOrder>)
    requires |orders| > 0
    ensures CompletedOrders(ChartData(orders)) == StatusCount(orders, Completed)
  {
    var keys := FirstOccurrences(orders);
    if Completed in keys {
      var j :| 0 <= j < |keys| && keys[j] == Completed;
      CompletedSliceUnique(orders, j);
    } else {
      NoCompletedSlice(orders);
      StatusCountZero(orders, Completed);
    }
  }

  /** With real orders, the completion rate is the completed orders' share
      of all orders, rounded; how the slices are keyed and labelled plays no
      part in it. */
  lemma CompletionRateOfOrders(orders: seq<WorkOrder>)
    requires |orders| > 0
    ensures CompletionRate(ChartData(orders)) == Metrics.RoundedPercent(Seqs.Count(orders, IsCompleted), |orders|)
  {
    SlicesSumToLength(orders);
    CompletedSliceCountsCompleted(orders);
    StatusCountIsFilterCount(orders, Completed);
    Seqs.FilterEquivalent(orders, HasStatus(Completed), IsCompleted);
  }

  /** The demonstration slices add up to 100, 45 of them completed. */
  lemma MockChart()
    ensures TotalOrders(ChartData([])) == 100
    ensures CompletionRate(ChartData([])) == 45
  {
    assert MockData[..1][..0] == [];
    assert Seqs.SumInt(MockData[..1], SliceValue) == 45;
    assert MockData[..2][..1] == MockData[..1];
    assert Seqs.SumInt(MockData[..2], SliceValue) == 75;
    assert MockData[..3][..2] == MockData[..2];
    assert Seqs.SumInt(MockData[..3], SliceValue) == 95;
    assert MockData[..4][..3] == MockData[..3];
    assert MockData == MockData[..4];
    assert CompletedOrders(MockData) == 45 by {
      assert NamedCompleted(MockData[0]);
    }
    JsNumber.RoundOfInt(45);
  }
}
