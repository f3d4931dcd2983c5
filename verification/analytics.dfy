/** The analytics page (src/components/Analytics/Analytics.tsx): the orders
    and checks inside the chosen date window, the key figures, and the colour
    of each figure's card. The window's bounds are millisecond instants given
    as parameters. */
module Analytics {

  import Seqs
  import JsNumber
  import opened Domain
  import opened Metrics
  import Dashboard

  /** Created within the window, both ends included. */
  function CreatedWithin(startDate: int, endDate: int): WorkOrder -> bool {
    (wo: WorkOrder) => startDate <= wo.createdAt <= endDate
  }

  /** Checked within the window, both ends included. */
  function CheckedWithin(startDate: int, endDate: int): QualityCheck -> bool {
    (qc: QualityCheck) => startDate <= qc.checkedAt <= endDate
  }

  /** `filteredWorkOrders`: the orders created inside the window, in order. */
  function OrdersInWindow(orders: seq<WorkOrder>, startDate: int, endDate: int): (r: seq<WorkOrder>)
    ensures forall i :: 0 <= i < |r| ==> r[i] in orders && startDate <= r[i].createdAt <= endDate
    ensures forall i :: 0 <= i < |orders| && startDate <= orders[i].createdAt <= endDate ==> orders[i] in r
    ensures forall i :: 0 <= i < |orders| && startDate <= orders[i].createdAt <= endDate ==>
      multiset(r)[orders[i]] == multiset(orders)[orders[i]]
    ensures Seqs.IsSubsequence(r, orders)
  {
    Seqs.FilterKeepsCopies(orders, CreatedWithin(startDate, endDate));
    Seqs.Filter(orders, CreatedWithin(startDate, endDate))
  }

  /** `filteredQualityChecks`: the checks made inside the window, in order. */
  function ChecksInWindow(checks: seq<QualityCheck>, startDate: int, endDate: int): (r: seq<QualityCheck>)
    ensures forall i :: 0 <= i < |r| ==> r[i] in checks && startDate <= r[i].checkedAt <= endDate
    ensures forall i :: 0 <= i < |checks| && startDate <= checks[i].checkedAt <= endDate ==> checks[i] in r
    ensures forall i :: 0 <= i < |checks| && startDate <= checks[i].checkedAt <= endDate ==>
      multiset(r)[checks[i]] == multiset(checks)[checks[i]]
    ensures Seqs.IsSubsequence(r, checks)
  {
    Seqs.FilterKeepsCopies(checks, CheckedWithin(startDate, endDate));
    Seqs.Filter(checks, CheckedWithin(startDate, endDate))
  }

  /** Passed checks over all checks in the window, in percent; unlike the
      dashboard, an empty window gives 0. */
  function AnalyticsQualityRate(checks: seq<QualityCheck>): (r: real)
    ensures 0.0 <= r <= 100.0
    ensures |checks| == 0 ==> r == 0.0
    ensures |checks| > 0 ==> r == Seqs.Count(checks, Passed) as real / |checks| as real * 100.0
  {
    if |checks| > 0 then
      assert 0.0 <= Percentage(Seqs.Count(checks, Passed), |checks|, 0.0) <= 100.0;
      Percentage(Seqs.Count(checks, Passed), |checks|, 0.0)
    else 0.0
  }

  /** The two pages agree on the quality rate except when there are no
      checks: then the dashboard shows 100 and the analytics page 0. */
  lemma QualityRatesDisagreeOnlyWhenEmpty(checks: seq<QualityCheck>)
    ensures Dashboard.DashboardQualityRate(checks) == AnalyticsQualityRate(checks) <==> |checks| > 0
  {
  }

  /** The total completed quantity over the total planned quantity of the
      orders in the window, in percent; 0 when nothing positive is planned.
      Completing no more than was planned keeps it within [0, 100], and
      completing exactly what was planned gives 100. */
  function ProductionEfficiency(orders: seq<WorkOrder>): (r: real)
    ensures Seqs.SumInt(orders, QuantityPlanned) <= 0 ==> r == 0.0
    ensures Seqs.SumInt(orders, QuantityPlanned) > 0 ==>
      r * Seqs.SumInt(orders, QuantityPlanned) as real == Seqs.SumInt(orders, QuantityCompleted) as real * 100.0
    ensures 0 <= Seqs.SumInt(orders, QuantityCompleted) <= Seqs.SumInt(orders, QuantityPlanned) ==> 0.0 <= r <= 100.0
    ensures 0 < Seqs.SumInt(orders, QuantityCompleted) == Seqs.SumInt(orders, QuantityPlanned) ==> r == 100.0
  {
    var planned := Seqs.SumInt(orders, QuantityPlanned);
    var completed := Seqs.SumInt(orders, QuantityCompleted);
    if planned > 0 then
      var ratio := completed as real / planned as real;
      assert ratio * planned as real == completed as real;
      ShareBounds(completed, planned, ratio * 100.0);
      ratio * 100.0
    else 0.0
  }

  datatype Kpis = Kpis(
    oee: real,
    availability: real,
    performance: real,
    quality: real,
    productionEfficiency: real,
    completedOrders: nat,
    totalOrders: nat,
    downtimePercentage: real,
    activeOperators: nat,
    totalOperators: nat)

  /** `kpis`: the machine figures use every machine, the quality and
      production figures only the checks and orders inside the window. */
  function ComputeKpis(workOrders: seq<WorkOrder>, machines: seq<Machine>, checks: seq<QualityCheck>,
                       operators: seq<Operator>, startDate: int, endDate: int): (k: Kpis)
    ensures k.totalOrders == |OrdersInWindow(workOrders, startDate, endDate)|
    ensures k.completedOrders == Seqs.Count(OrdersInWindow(workOrders, startDate, endDate), IsCompleted)
    ensures k.completedOrders <= k.totalOrders
    ensures k.totalOperators == |operators| && k.activeOperators == Seqs.Count(operators, IsAssigned)
    ensures k.activeOperators <= k.totalOperators
    ensures k.availability == JsNumber.Round1(Availability(machines))
    ensures k.downtimePercentage == JsNumber.Round1(DowntimePercentage(machines))
    ensures k.performance == JsNumber.Round1(AverageEfficiency(machines))
    ensures k.quality == JsNumber.Round1(AnalyticsQualityRate(ChecksInWindow(checks, startDate, endDate)))
    ensures k.productionEfficiency == JsNumber.Round1(ProductionEfficiency(OrdersInWindow(workOrders, startDate, endDate)))
    ensures 0.0 <= k.availability <= 100.0 && 0.0 <= k.downtimePercentage <= 100.0 && 0.0 <= k.quality <= 100.0
    ensures |ChecksInWindow(checks, startDate, endDate)| == 0 ==> k.quality == 0.0 && k.oee == 0.0
    ensures k.oee == JsNumber.Round1(Oee(Availability(machines), AverageEfficiency(machines),
                                         AnalyticsQualityRate(ChecksInWindow(checks, startDate, endDate))))
  {
    var orders := OrdersInWindow(workOrders, startDate, endDate);
    var inWindow := ChecksInWindow(checks, startDate, endDate);
    var availability := Availability(machines);
    var avgEfficiency := AverageEfficiency(machines);
    var qualityRate := AnalyticsQualityRate(inWindow);
    var downtime := DowntimePercentage(machines);
    Round1Percent(availability);
    Round1Percent(downtime);
    Round1Percent(qualityRate);
    OeeOfZeroFactor(availability, avgEfficiency, qualityRate);
    Kpis(
      oee := JsNumber.Round1(Oee(availability, avgEfficiency, qualityRate)),
      availability := JsNumber.Round1(availability),
      performance := JsNumber.Round1(avgEfficiency),
      quality := JsNumber.Round1(qualityRate),
      productionEfficiency := JsNumber.Round1(ProductionEfficiency(orders)),
      completedOrders := Seqs.Count(orders, IsCompleted),
      totalOrders := |orders|,
      downtimePercentage := JsNumber.Round1(downtime),
      activeOperators := Seqs.Count(operators, IsAssigned),
      totalOperators := |operators|)
  }

  /** The machine figures do not depend on the date window. */
  lemma MachineFiguresIgnoreWindow(workOrders: seq<WorkOrder>, machines: seq<Machine>, checks: seq<QualityCheck>,
                                   operators: seq<Operator>, s1: int, e1: int, s2: int, e2: int)
    ensures ComputeKpis(workOrders, machines, checks, operators, s1, e1).availability
         == ComputeKpis(workOrders, machines, checks, operators, s2, e2).availability
    ensures ComputeKpis(workOrders, machines, checks, operators, s1, e1).performance
         == ComputeKpis(workOrders, machines, checks, operators, s2, e2).performance
    ensures ComputeKpis(workOrders, machines, checks, operators, s1, e1).downtimePercentage
         == ComputeKpis(workOrders, machines, checks, operators, s2, e2).downtimePercentage
  {
  }

  /** The "% passed" subtitle of the quality-checks card: the denominator is
      at least 1, so an empty window shows 0. */
  function PassedSubtitle(checks: seq<QualityCheck>): (r: int)
    ensures 0 <= r <= 100
    ensures |checks| == 0 ==> r == 0
    ensures |checks| > 0 ==> r == JsNumber.Round(AnalyticsQualityRate(checks))
  {
    var n := if |checks| > 1 then |checks| else 1;
    assert 0.0 <= Percentage(Seqs.Count(checks, Passed), n, 0.0) <= 100.0;
    JsNumber.RoundMonotone(0.0, Percentage(Seqs.Count(checks, Passed), n, 0.0));
    JsNumber.RoundMonotone(Percentage(Seqs.Count(checks, Passed), n, 0.0), 100.0);
    JsNumber.RoundOfInt(0);
    JsNumber.RoundOfInt(100);
    JsNumber.Round(Percentage(Seqs.Count(checks, Passed), n, 0.0))
  }

  // ---------------------------------------------------------------- card colours

  datatype CardColors = CardColors(
    oee: Color,
    productionEfficiency: Color,
    quality: Color,
    availability: Color,
    downtime: Color)

  /** The thresholds of the coloured cards; the other cards are always blue. */
  function KpiColors(k: Kpis): (c: CardColors)
    ensures c.oee == Green <==> k.oee >= 85.0
    ensures c.oee == Red <==> k.oee < 70.0
    ensures c.productionEfficiency == Green <==> k.productionEfficiency >= 90.0
    ensures c.productionEfficiency == Red <==> k.productionEfficiency < 75.0
    ensures c.quality == Green <==> k.quality >= 95.0
    ensures c.quality == Red <==> k.quality < 90.0
    ensures c.availability == Green <==> k.availability >= 90.0
    ensures c.availability == Red <==> k.availability < 80.0
    ensures c.downtime == Green <==> k.downtimePercentage <= 5.0
    ensures c.downtime == Red <==> k.downtimePercentage > 15.0
  {
    CardColors(
      oee := HigherIsBetter(k.oee, 85.0, 70.0),
      productionEfficiency := HigherIsBetter(k.productionEfficiency, 90.0, 75.0),
      quality := HigherIsBetter(k.quality, 95.0, 90.0),
      availability := HigherIsBetter(k.availability, 90.0, 80.0),
      downtime := LowerIsBetter(k.downtimePercentage, 5.0, 15.0))
  }

  /** With no checks in the window the quality card is red, whatever the
      checks outside it say. */
  lemma EmptyWindowQualityRed(workOrders: seq<WorkOrder>, machines: seq<Machine>, checks: seq<QualityCheck>,
                              operators: seq<Operator>, startDate: int, endDate: int)
    requires forall i :: 0 <= i < |checks| ==> !(startDate <= checks[i].checkedAt <= endDate)
    ensures KpiColors(ComputeKpis(workOrders, machines, checks, operators, startDate, endDate)).quality == Red
  {
    var inWindow := ChecksInWindow(checks, startDate, endDate);
    if |inWindow| > 0 {
      assert false;
    }
  }
}
