/** The production dashboard (src/components/Dashboard/Dashboard.tsx): the
    metrics computed from the four collections and the colour each card takes.
    The moment "now" is a parameter. */
module Dashboard {

  import Seqs
  import JsNumber
  import opened Domain
  import opened Metrics

  const MsPerDay: int := 24 * 60 * 60 * 1000

  datatype DashboardMetrics = DashboardMetrics(
    oee: real,
    activeWorkOrders: nat,
    productionRate: int,
    qualityRate: real,
    downtimeMinutes: int,
    activeAlerts: nat,
    availability: real,
    avgEfficiency: real)

  /** Passed checks over all checks, in percent. With no checks at all the
      dashboard reports a perfect 100. */
  function DashboardQualityRate(checks: seq<QualityCheck>): (r: real)
    ensures 0.0 <= r <= 100.0
    ensures |checks| == 0 ==> r == 100.0
    ensures |checks| > 0 ==> r == Seqs.Count(checks, Passed) as real / |checks| as real * 100.0
  {
    if |checks| > 0 then
      assert 0.0 <= Percentage(Seqs.Count(checks, Passed), |checks|, 100.0) <= 100.0;
      Percentage(Seqs.Count(checks, Passed), |checks|, 100.0)
    else 100.0
  }

  /** Completed orders last updated within the day before `now`. */
  function RecentlyCompleted(now: int): WorkOrder -> bool {
    (wo: WorkOrder) => wo.updatedAt >= now - MsPerDay && IsCompleted(wo)
  }

  /** The quantity completed by the recently completed orders. */
  function RecentCompletedItems(orders: seq<WorkOrder>, now: int): int {
    Seqs.SumInt(Seqs.Filter(orders, RecentlyCompleted(now)), QuantityCompleted)
  }

  lemma SumIntSnoc(s: seq<WorkOrder>, x: WorkOrder, f: WorkOrder -> int)
    ensures Seqs.SumInt(s + [x], f) == Seqs.SumInt(s, f) + f(x)
  {
    assert (s + [x])[..|s + [x]| - 1] == s;
  }

  /** The production figure counts an order exactly when it is completed and
      was updated in the last 24 hours: one more order adds its completed
      quantity in that case and nothing otherwise. */
  lemma RecentCompletedItemsSnoc(orders: seq<WorkOrder>, wo: WorkOrder, now: int)
    ensures RecentCompletedItems(orders + [wo], now)
         == RecentCompletedItems(orders, now)
            + (if wo.status == Completed && wo.updatedAt >= now - MsPerDay then wo.quantityCompleted else 0)
  {
    var p := RecentlyCompleted(now);
    Seqs.FilterDistributes(orders, [wo], p);
    assert [wo][1..] == [];
    if p(wo) {
      assert Seqs.Filter([wo], p) == [wo];
      SumIntSnoc(Seqs.Filter(orders, p), wo, QuantityCompleted);
    } else {
      assert Seqs.Filter([wo], p) == [];
      assert Seqs.Filter(orders, p) + [] == Seqs.Filter(orders, p);
    }
  }

  /** `calculateMetrics()`: every ratio is computed exactly and rounded to one
      decimal, the production rate is the recent completed quantity per hour
      and the downtime estimate is 4.8 minutes per percent of machines down. */
  function CalculateMetrics(workOrders: seq<WorkOrder>, machines: seq<Machine>,
                            checks: seq<QualityCheck>, now: int): (m: DashboardMetrics)
    ensures m.activeWorkOrders == Seqs.Count(workOrders, IsNotCompleted)
    ensures m.activeAlerts == Seqs.Count(machines, InError) + Seqs.Count(checks, Failed)
    ensures m.availability == JsNumber.Round1(Availability(machines))
    ensures m.qualityRate == JsNumber.Round1(DashboardQualityRate(checks))
    ensures m.avgEfficiency == JsNumber.Round1(AverageEfficiency(machines))
    ensures m.downtimeMinutes == JsNumber.Round(DowntimePercentage(machines) * 4.8)
    ensures 0.0 <= m.availability <= 100.0 && 0.0 <= m.qualityRate <= 100.0
    ensures 0 <= m.downtimeMinutes <= 480
    ensures |machines| == 0 ==>
      m.availability == 0.0 && m.avgEfficiency == 0.0 && m.downtimeMinutes == 0 && m.oee == 0.0
    ensures |checks| == 0 ==> m.qualityRate == 100.0
    ensures m.oee == JsNumber.Round1(Oee(Availability(machines), AverageEfficiency(machines), DashboardQualityRate(checks)))
    ensures m.productionRate == JsNumber.Round(RecentCompletedItems(workOrders, now) as real / 24.0)
  {
    var availability := Availability(machines);
    var avgEfficiency := AverageEfficiency(machines);
    var qualityRate := DashboardQualityRate(checks);
    var downtime := DowntimePercentage(machines);
    Round1Percent(availability);
    Round1Percent(qualityRate);
    JsNumber.RoundMonotone(0.0, downtime * 4.8);
    JsNumber.RoundMonotone(downtime * 4.8, 480.0);
    JsNumber.RoundOfInt(0);
    JsNumber.RoundOfInt(480);
    JsNumber.Round1OfInt(0);
    JsNumber.Round1OfInt(100);
    OeeOfZeroFactor(availability, avgEfficiency, qualityRate);
    DashboardMetrics(
      oee := JsNumber.Round1(Oee(availability, avgEfficiency, qualityRate)),
      activeWorkOrders := Seqs.Count(workOrders, IsNotCompleted),
      productionRate := JsNumber.Round(RecentCompletedItems(workOrders, now) as real / 24.0),
      qualityRate := JsNumber.Round1(qualityRate),
      downtimeMinutes := JsNumber.Round(downtime * 4.8),
      activeAlerts := Seqs.Count(machines, InError) + Seqs.Count(checks, Failed),
      availability := JsNumber.Round1(availability),
      avgEfficiency := JsNumber.Round1(avgEfficiency))
  }

  /** When every machine's efficiency is a percentage, so is the OEE. */
  lemma CalculateMetricsOeeBounds(workOrders: seq<WorkOrder>, machines: seq<Machine>,
                                  checks: seq<QualityCheck>, now: int)
    requires forall x :: x in machines ==> 0.0 <= x.efficiency <= 100.0
    ensures 0.0 <= CalculateMetrics(workOrders, machines, checks, now).oee <= 100.0
  {
    AverageEfficiencyBounds(machines, 0.0, 100.0);
    Round1Percent(Oee(Availability(machines), AverageEfficiency(machines), DashboardQualityRate(checks)));
  }

  /** With no quantity negative, the production rate is not negative. */
  lemma ProductionRateNonNegative(workOrders: seq<WorkOrder>, machines: seq<Machine>,
                                 checks: seq<QualityCheck>, now: int)
    requires forall wo :: wo in workOrders ==> wo.quantityCompleted >= 0
    ensures CalculateMetrics(workOrders, machines, checks, now).productionRate >= 0
  {
    var recent := Seqs.Filter(workOrders, RecentlyCompleted(now));
    Seqs.SumIntNonNegative(recent, QuantityCompleted);
    JsNumber.RoundMonotone(0.0, RecentCompletedItems(workOrders, now) as real / 24.0);
    JsNumber.RoundOfInt(0);
  }

  // ---------------------------------------------------------------- cards

  datatype CardColor = CardGreen | CardYellow | CardRed | CardBlue

  function FromColor(c: Color): CardColor {
    match c
    case Green => CardGreen
    case Yellow => CardYellow
    case Red => CardRed
  }

  /** The active-alerts card: green with none, yellow with one or two, red beyond. */
  function AlertsColor(n: nat): (c: Color)
    ensures c == Green <==> n == 0
    ensures c == Yellow <==> 1 <= n <= 2
    ensures c == Red <==> n > 2
  {
    if n == 0 then Green else if n <= 2 then Yellow else Red
  }

  datatype Card = Card(title: string, value: real, color: CardColor)

  /** The six cards, in display order; none while any collection is loading. */
  function Cards(loading: bool, m: DashboardMetrics): (cards: seq<Card>)
    ensures loading ==> cards == []
    ensures !loading ==> |cards| == 6
    ensures !loading ==> cards[0].color == FromColor(HigherIsBetter(m.oee, 85.0, 70.0))
    ensures !loading ==> cards[1].color == CardBlue
    ensures !loading ==> cards[2].color == FromColor(HigherIsBetter(m.productionRate as real, 100.0, 50.0))
    ensures !loading ==> cards[3].color == FromColor(HigherIsBetter(m.qualityRate, 95.0, 90.0))
    ensures !loading ==> cards[4].color == FromColor(LowerIsBetter(m.downtimeMinutes as real, 30.0, 120.0))
    ensures !loading ==> cards[5].color == FromColor(AlertsColor(m.activeAlerts))
  {
    if loading then []
    else [
      Card("Overall Equipment Effectiveness", m.oee, FromColor(HigherIsBetter(m.oee, 85.0, 70.0))),
      Card("Active Work Orders", m.activeWorkOrders as real, CardBlue),
      Card("Production Rate", m.productionRate as real, FromColor(HigherIsBetter(m.productionRate as real, 100.0, 50.0))),
      Card("Quality Rate", m.qualityRate, FromColor(HigherIsBetter(m.qualityRate, 95.0, 90.0))),
      Card("Downtime Today", m.downtimeMinutes as real, FromColor(LowerIsBetter(m.downtimeMinutes as real, 30.0, 120.0))),
      Card("Active Alerts", m.activeAlerts as real, FromColor(AlertsColor(m.activeAlerts)))
    ]
  }

  /** The alerts card is green exactly when no machine is in error and no
      quality check has failed. */
  lemma AlertsCardGreen(workOrders: seq<WorkOrder>, machines: seq<Machine>,
                        checks: seq<QualityCheck>, now: int)
    ensures (Cards(false, CalculateMetrics(workOrders, machines, checks, now))[5].color == CardGreen
             <==> (forall i :: 0 <= i < |machines| ==> !InError(machines[i]))
                  && (forall i :: 0 <= i < |checks| ==> !Failed(checks[i])))
  {
    if Seqs.Count(machines, InError) > 0 {
      var x := Seqs.Filter(machines, InError)[0];
      assert x in machines && InError(x);
    }
    if Seqs.Count(checks, Failed) > 0 {
      var x := Seqs.Filter(checks, Failed)[0];
      assert x in checks && Failed(x);
    }
  }
}
