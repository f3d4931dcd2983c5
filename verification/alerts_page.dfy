/** The alerts page (src/components/Alerts/AlertsPage.tsx): the synthesis of
    alerts from the machines, quality checks and work orders, the search, type
    filter and sort of the displayed list, the per-type counts and the
    "time ago" label. The current time is a parameter. */
module AlertsPage {

  import opened Wrappers
  import Text
  import Seqs
  import StableSort
  import JsNumber
  import opened Domain
  import AC = AlertContext

  const MsPerMinute := 60000
  const MsPerDay := 86400000

  // ---------------------------------------------------------------- synthesis rules

  function ErrorMachineAlert(m: Machine): AC.AlertDraft {
    AC.AlertDraft(AC.Error, "Machine " + m.name + " is in error state!", Some("Machine Monitor"))
  }

  function MaintenanceAlert(m: Machine): AC.AlertDraft {
    AC.AlertDraft(AC.Warning, "Machine " + m.name + " requires maintenance", Some("Machine Monitor"))
  }

  function QualityAlert(wo: WorkOrder, c: QualityCheck): AC.AlertDraft {
    AC.AlertDraft(AC.Error, "Quality check failed for Work Order " + wo.orderNumber + " (" + c.checkType + ")",
                  Some("Quality Control"))
  }

  /** The alert a failed check yields: one naming its work order when the
      order exists, none otherwise. */
  function QualityAlertOf(c: QualityCheck, orders: seq<WorkOrder>): seq<AC.AlertDraft> {
    match WorkOrderWithId(orders, c.workOrderId)
    case Some(wo) => [QualityAlert(wo, c)]
    case None => []
  }

  /** The quality alerts of a list of failed checks, in order. */
  function QualityAlerts(failed: seq<QualityCheck>, orders: seq<WorkOrder>): seq<AC.AlertDraft> {
    if failed == [] then []
    else QualityAlerts(failed[..|failed| - 1], orders) + QualityAlertOf(failed[|failed| - 1], orders)
  }

  /** Due strictly before now and not completed. */
  predicate IsOverdue(wo: WorkOrder, now: int) {
    wo.dueDate < now && wo.status != Completed
  }

  function OverdueAt(now: int): WorkOrder -> bool {
    (wo: WorkOrder) => IsOverdue(wo, now)
  }

  function OverdueOrders(orders: seq<WorkOrder>, now: int): seq<WorkOrder> {
    Seqs.Filter(orders, OverdueAt(now))
  }

  /** `Math.ceil((now - due) / 86400000)`. */
  function DaysOverdue(wo: WorkOrder, now: int): int {
    JsNumber.CeilDiv(now - wo.dueDate, MsPerDay)
  }

  function OverdueMessage(orderNumber: string, days: int): string {
    var count := if days >= 0 then Text.NatToString(days) else "-" + Text.NatToString(-days);
    "Work Order " + orderNumber + " is " + count + " day" + (if days != 1 then "s" else "") + " overdue!"
  }

  function OverdueAlert(wo: WorkOrder, now: int): AC.AlertDraft {
    AC.AlertDraft(AC.Warning, OverdueMessage(wo.orderNumber, DaysOverdue(wo, now)), Some("Production Planning"))
  }

  function OverdueAlerts(overdue: seq<WorkOrder>, now: int): (r: seq<AC.AlertDraft>)
    ensures |r| == |overdue|
    ensures forall i :: 0 <= i < |r| ==> r[i] == OverdueAlert(overdue[i], now)
  {
    seq(|overdue|, i requires 0 <= i < |overdue| => OverdueAlert(overdue[i], now))
  }

  /** One synthesis pass: error machines, then machines under maintenance,
      then failed checks of existing orders, then overdue orders. */
  function GeneratedAlerts(machines: seq<Machine>, checks: seq<QualityCheck>, orders: seq<WorkOrder>, now: int): seq<AC.AlertDraft> {
    Seqs.Map(Seqs.Filter(machines, InError), ErrorMachineAlert)
    + Seqs.Map(Seqs.Filter(machines, InMaintenance), MaintenanceAlert)
    + QualityAlerts(Seqs.Filter(checks, Failed), orders)
    + OverdueAlerts(OverdueOrders(orders, now), now)
  }

  /** `generateAlertsFromData`: the alerts each rule pushes, rule after rule. */
  method GenerateAlertsFromData(machines: seq<Machine>, checks: seq<QualityCheck>, orders: seq<WorkOrder>, now: int)
    returns (newAlerts: seq<AC.AlertDraft>)
    ensures newAlerts == GeneratedAlerts(machines, checks, orders, now)
  {
    var machineAlerts := PushMachineAlerts(machines);
    var qualityAlerts := PushQualityAlerts(checks, orders);
    var overdueAlerts := PushOverdueAlerts(orders, now);
    newAlerts := machineAlerts + qualityAlerts + overdueAlerts;
  }

  /** The two machine rules: an error alert per machine in error, then a
      warning per machine under maintenance. */
  method PushMachineAlerts(machines: seq<Machine>) returns (newAlerts: seq<AC.AlertDraft>)
    ensures newAlerts == Seqs.Map(Seqs.Filter(machines, InError), ErrorMachineAlert)
                         + Seqs.Map(Seqs.Filter(machines, InMaintenance), MaintenanceAlert)
  {
    newAlerts := [];
    var errorMachines := Seqs.Filter(machines, InError);
    var maintenanceMachines := Seqs.Filter(machines, InMaintenance);
    for i := 0 to |errorMachines|
      invariant newAlerts == Seqs.Map(errorMachines[..i], ErrorMachineAlert)
    {
      Seqs.MapSnoc(errorMachines, ErrorMachineAlert, i);
      newAlerts := newAlerts + [ErrorMachineAlert(errorMachines[i])];
    }
    assert errorMachines[..|errorMachines|] == errorMachines;
    ghost var errorAlerts := newAlerts;
    for i := 0 to |maintenanceMachines|
      invariant newAlerts == errorAlerts + Seqs.Map(maintenanceMachines[..i], MaintenanceAlert)
    {
      Seqs.MapSnoc(maintenanceMachines, MaintenanceAlert, i);
      newAlerts := newAlerts + [MaintenanceAlert(maintenanceMachines[i])];
    }
    assert maintenanceMachines[..|maintenanceMachines|] == maintenanceMachines;
  }

  /** The quality rule: each failed check whose work order is found. */
  method PushQualityAlerts(checks: seq<QualityCheck>, orders: seq<WorkOrder>) returns (newAlerts: seq<AC.AlertDraft>)
    ensures newAlerts == QualityAlerts(Seqs.Filter(checks, Failed), orders)
  {
    newAlerts := [];
    var failedChecks := Seqs.Filter(checks, Failed);
    for i := 0 to |failedChecks|
      invariant newAlerts == QualityAlerts(failedChecks[..i], orders)
    {
      var check := failedChecks[i];
      var workOrder := WorkOrderWithId(orders, check.workOrderId);
      QualityAlertsSnoc(failedChecks, i, orders);
      if workOrder.Some? {
        newAlerts := newAlerts + [QualityAlert(workOrder.value, check)];
      }
    }
    assert failedChecks[..|failedChecks|] == failedChecks;
  }

  /** The overdue rule, with the day count worked out per order. */
  method PushOverdueAlerts(orders: seq<WorkOrder>, now: int) returns (newAlerts: seq<AC.AlertDraft>)
    ensures newAlerts == OverdueAlerts(OverdueOrders(orders, now), now)
  {
    newAlerts := [];
    var overdueOrders := OverdueOrders(orders, now);
    for i := 0 to |overdueOrders|
      invariant newAlerts == OverdueAlerts(overdueOrders[..i], now)
    {
      var order := overdueOrders[i];
      var daysOverdue := JsNumber.CeilDiv(now - order.dueDate, MsPerDay);
      newAlerts := newAlerts + [AC.AlertDraft(AC.Warning, OverdueMessage(order.orderNumber, daysOverdue), Some("Production Planning"))];
      OverdueAlertsSnoc(overdueOrders, i, now);
    }
    assert overdueOrders[..|overdueOrders|] == overdueOrders;
  }

  lemma QualityAlertsSnoc(failed: seq<QualityCheck>, i: nat, orders: seq<WorkOrder>)
    requires i < |failed|
    ensures QualityAlerts(failed[..i + 1], orders) == QualityAlerts(failed[..i], orders) + QualityAlertOf(failed[i], orders)
  {
    assert failed[..i + 1][..i] == failed[..i];
  }

  lemma OverdueAlertsSnoc(overdue: seq<WorkOrder>, i: nat, now: int)
    requires i < |overdue|
    ensures OverdueAlerts(overdue[..i + 1], now) == OverdueAlerts(overdue[..i], now) + [OverdueAlert(overdue[i], now)]
  {
  }

  // ---------------------------------------------------------------- synthesis properties

  /** The failed checks that yield an alert: those whose work order exists. */
  function CheckWithOrder(orders: seq<WorkOrder>): QualityCheck -> bool {
    (c: QualityCheck) => WorkOrderWithId(orders, c.workOrderId).Some?
  }

  /** A failed check yields no alert when no work order carries its
      `work_order_id`, and otherwise exactly one, naming the first such order
      and the check type. */
  lemma QualityAlertOfCheck(c: QualityCheck, orders: seq<WorkOrder>)
    ensures QualityAlertOf(c, orders) == [] <==> forall i :: 0 <= i < |orders| ==> orders[i].id != c.workOrderId
    ensures QualityAlertOf(c, orders) != [] ==>
      exists i :: (0 <= i < |orders| && orders[i].id == c.workOrderId
                   && (forall j :: 0 <= j < i ==> orders[j].id != c.workOrderId)
                   && QualityAlertOf(c, orders) == [AC.AlertDraft(AC.Error,
                        "Quality check failed for Work Order " + orders[i].orderNumber + " (" + c.checkType + ")",
                        Some("Quality Control"))])
  {
  }

  /** A failed check yields one alert when its order exists, none otherwise. */
  lemma QualityAlertOfLength(c: QualityCheck, orders: seq<WorkOrder>)
    ensures |QualityAlertOf(c, orders)| == if CheckWithOrder(orders)(c) then 1 else 0
  {
  }

  /** The quality rule yields one alert per failed check with an existing order. */
  lemma {:induction false} QualityAlertsCount(failed: seq<QualityCheck>, orders: seq<WorkOrder>)
    ensures |QualityAlerts(failed, orders)| == |Seqs.Filter(failed, CheckWithOrder(orders))|
  {
    if failed != [] {
      QualityAlertsCount(failed[..|failed| - 1], orders);
      QualityAlertOfLength(failed[|failed| - 1], orders);
      Seqs.FilterSnocCount(failed, CheckWithOrder(orders));
    }
  }

  /** The number of alerts is the sum of the four rules' counts. */
  lemma GeneratedCount(machines: seq<Machine>, checks: seq<QualityCheck>, orders: seq<WorkOrder>, now: int)
    ensures |GeneratedAlerts(machines, checks, orders, now)|
         == |Seqs.Filter(machines, InError)| + |Seqs.Filter(machines, InMaintenance)|
          + |Seqs.Filter(Seqs.Filter(checks, Failed), CheckWithOrder(orders))|
          + |OverdueOrders(orders, now)|
  {
    QualityAlertsCount(Seqs.Filter(checks, Failed), orders);
  }

  /** The overdue orders are, in order, exactly those due strictly before now
      and not completed. */
  lemma OverdueOrdersExact(orders: seq<WorkOrder>, now: int)
    ensures Seqs.IsSubsequence(OverdueOrders(orders, now), orders)
    ensures forall i :: 0 <= i < |OverdueOrders(orders, now)| ==>
      OverdueOrders(orders, now)[i].dueDate < now && OverdueOrders(orders, now)[i].status != Completed
    ensures forall i :: 0 <= i < |orders| && orders[i].dueDate < now && orders[i].status != Completed ==>
      orders[i] in OverdueOrders(orders, now)
    ensures forall i :: 0 <= i < |orders| && orders[i].dueDate < now && orders[i].status != Completed ==>
      multiset(OverdueOrders(orders, now))[orders[i]] == multiset(orders)[orders[i]]
  {
    Seqs.FilterKeepsCopies(orders, OverdueAt(now));
  }

  /** An overdue order is at least one day overdue; the count is the number
      of started days since the due instant, and it is 1 exactly when the
      order is at most a day late. */
  lemma DaysOverdueBounds(wo: WorkOrder, now: int)
    requires IsOverdue(wo, now)
    ensures var d := DaysOverdue(wo, now);
      d >= 1 && (d - 1) * MsPerDay < now - wo.dueDate <= d * MsPerDay
      && (d == 1 <==> now - wo.dueDate <= MsPerDay)
  {
  }

  /** 36 hours late reads as 2 days, in the plural. */
  lemma OverdueThirtySixHours(wo: WorkOrder, now: int)
    requires wo.orderNumber == "WO-7" && wo.status == Pending && now - wo.dueDate == 36 * 3600000
    ensures OverdueAlert(wo, now) == AC.AlertDraft(AC.Warning, "Work Order WO-7 is 2 days overdue!", Some("Production Planning"))
  {
    assert DaysOverdue(wo, now) == 2;
    assert Text.NatToString(2) == "2";
    assert OverdueMessage("WO-7", 2) == "Work Order WO-7 is 2 days overdue!";
  }

  /** 20 hours late reads as 1 day, in the singular. */
  lemma OverdueTwentyHours(wo: WorkOrder, now: int)
    requires wo.orderNumber == "WO-7" && wo.status == Pending && now - wo.dueDate == 20 * 3600000
    ensures OverdueAlert(wo, now) == AC.AlertDraft(AC.Warning, "Work Order WO-7 is 1 day overdue!", Some("Production Planning"))
  {
    assert DaysOverdue(wo, now) == 1;
    assert Text.NatToString(1) == "1";
    assert OverdueMessage("WO-7", 1) == "Work Order WO-7 is 1 day overdue!";
  }

  /** 50 hours late reads as 3 days, whatever the order's open status. */
  lemma OverdueFiftyHours(wo: WorkOrder, now: int)
    requires wo.orderNumber == "WO-9" && wo.status == InProgress && now - wo.dueDate == 50 * 3600000
    ensures IsOverdue(wo, now)
    ensures OverdueAlert(wo, now) == AC.AlertDraft(AC.Warning, "Work Order WO-9 is 3 days overdue!", Some("Production Planning"))
  {
    assert DaysOverdue(wo, now) == 3;
    assert Text.NatToString(3) == "3";
    assert OverdueMessage("WO-9", 3) == "Work Order WO-9 is 3 days overdue!";
  }

  // ---------------------------------------------------------------- the displayed list

  datatype TypeFilter = AllTypes | OnlyType(t: AC.AlertType)
  datatype SortMode = Newest | Oldest | ByType

  /** The message, or a truthy source, contains the search term, ignoring case. */
  predicate MatchesSearch(a: AC.Alert, term: string) {
    Text.Matches(a.message, term) || (Text.Truthy(a.source) && Text.Matches(a.source.value, term))
  }

  predicate MatchesType(a: AC.Alert, filter: TypeFilter) {
    filter.AllTypes? || a.alertType == filter.t
  }

  predicate Shown(a: AC.Alert, term: string, filter: TypeFilter) {
    MatchesSearch(a, term) && MatchesType(a, filter)
  }

  function ShownBy(term: string, filter: TypeFilter): AC.Alert -> bool {
    (a: AC.Alert) => Shown(a, term, filter)
  }

  /** `b.timestamp - a.timestamp <= 0`. */
  predicate NewerFirst(a: AC.Alert, b: AC.Alert) { b.timestamp - a.timestamp <= 0 }
  /** `a.timestamp - b.timestamp <= 0`. */
  predicate OlderFirst(a: AC.Alert, b: AC.Alert) { a.timestamp - b.timestamp <= 0 }
  /** `a.type.localeCompare(b.type) <= 0`. */
  predicate TypeFirst(a: AC.Alert, b: AC.Alert) { Text.LexLe(AC.TypeName(a.alertType), AC.TypeName(b.alertType)) }

  function OrderOf(mode: SortMode): (AC.Alert, AC.Alert) -> bool {
    match mode
    case Newest => NewerFirst
    case Oldest => OlderFirst
    case ByType => TypeFirst
  }

  lemma OrderIsTotalPreorder(mode: SortMode)
    ensures StableSort.TotalPreorder(OrderOf(mode))
  {
    if mode == ByType {
      forall a, b ensures TypeFirst(a, b) || TypeFirst(b, a) {
        Text.LexLeTotal(AC.TypeName(a.alertType), AC.TypeName(b.alertType));
      }
      forall a, b, c | TypeFirst(a, b) && TypeFirst(b, c) ensures TypeFirst(a, c) {
        Text.LexLeTransitive(AC.TypeName(a.alertType), AC.TypeName(b.alertType), AC.TypeName(c.alertType));
      }
    }
  }

  /** `filteredAlerts`: the alerts matching the search and type filter, sorted
      stably by the chosen order. */
  function FilteredAlerts(alerts: seq<AC.Alert>, term: string, filter: TypeFilter, mode: SortMode): (r: seq<AC.Alert>)
    ensures multiset(r) == multiset(Seqs.Filter(alerts, ShownBy(term, filter)))
    ensures multiset(r) <= multiset(alerts)
    ensures forall i :: 0 <= i < |r| ==> Shown(r[i], term, filter)
    ensures forall i :: 0 <= i < |alerts| && Shown(alerts[i], term, filter) ==> alerts[i] in r
  {
    var kept := Seqs.Filter(alerts, ShownBy(term, filter));
    var r := StableSort.SortBy(kept, OrderOf(mode));
    Seqs.PermutedFilter(alerts, ShownBy(term, filter), r);
    r
  }

  /** With an empty search and the 'all' filter every alert is displayed. */
  lemma FilteredAlertsKeepAll(alerts: seq<AC.Alert>, mode: SortMode)
    ensures multiset(FilteredAlerts(alerts, "", AllTypes, mode)) == multiset(alerts)
  {
    forall a | a in alerts ensures Shown(a, "", AllTypes) {
      Text.MatchesEmpty(a.message);
    }
    Seqs.FilterKeepsAll(alerts, ShownBy("", AllTypes));
  }

  /** The displayed list is in the chosen order: newest first, oldest first,
      or by type name; alerts the order ranks equal (the same timestamp, or
      the same type under 'type') keep the order they are stored in. */
  lemma FilteredAlertsSorted(alerts: seq<AC.Alert>, term: string, filter: TypeFilter, mode: SortMode)
    ensures StableSort.Sorted(FilteredAlerts(alerts, term, filter, mode), OrderOf(mode))
    ensures forall x :: Seqs.Filter(FilteredAlerts(alerts, term, filter, mode), StableSort.Ties(x, OrderOf(mode)))
                     == Seqs.Filter(Seqs.Filter(alerts, ShownBy(term, filter)), StableSort.Ties(x, OrderOf(mode)))
  {
    var kept := Seqs.Filter(alerts, ShownBy(term, filter));
    OrderIsTotalPreorder(mode);
    StableSort.SortBySorted(kept, OrderOf(mode));
    forall x
      ensures Seqs.Filter(FilteredAlerts(alerts, term, filter, mode), StableSort.Ties(x, OrderOf(mode)))
           == Seqs.Filter(kept, StableSort.Ties(x, OrderOf(mode)))
    {
      StableSort.SortByStable(kept, OrderOf(mode), x);
    }
  }

  /** Under 'newest', timestamps never increase along the displayed list. */
  lemma NewestFirst(alerts: seq<AC.Alert>, term: string, filter: TypeFilter)
    ensures var r := FilteredAlerts(alerts, term, filter, Newest);
      forall i, j :: 0 <= i < j < |r| ==> r[i].timestamp >= r[j].timestamp
  {
    FilteredAlertsSorted(alerts, term, filter, Newest);
  }

  // ---------------------------------------------------------------- stats and time labels

  datatype AlertStats = AlertStats(total: nat, errors: nat, warnings: nat, info: nat, success: nat)

  predicate IsErrorAlert(a: AC.Alert) { a.alertType == AC.Error }
  predicate IsWarningAlert(a: AC.Alert) { a.alertType == AC.Warning }
  predicate IsInfoAlert(a: AC.Alert) { a.alertType == AC.Info }
  predicate IsSuccessAlert(a: AC.Alert) { a.alertType == AC.Success }

  /** `getAlertStats`: the number of alerts of each type, which together make
      up the total. */
  function GetAlertStats(alerts: seq<AC.Alert>): (r: AlertStats)
    ensures r.total == |alerts|
    ensures r.errors == Seqs.Count(alerts, IsErrorAlert) && r.warnings == Seqs.Count(alerts, IsWarningAlert)
    ensures r.info == Seqs.Count(alerts, IsInfoAlert) && r.success == Seqs.Count(alerts, IsSuccessAlert)
    ensures r.errors + r.warnings + r.info + r.success == r.total
  {
    Seqs.FilterPartition4(alerts, IsErrorAlert, IsWarningAlert, IsInfoAlert, IsSuccessAlert);
    AlertStats(|alerts|,
               |Seqs.Filter(alerts, IsErrorAlert)|,
               |Seqs.Filter(alerts, IsWarningAlert)|,
               |Seqs.Filter(alerts, IsInfoAlert)|,
               |Seqs.Filter(alerts, IsSuccessAlert)|)
  }

  /** What `formatTime` shows; the locale date of an older alert is left to
      the platform. */
  datatype TimeLabel = JustNow | MinutesAgo(minutes: int) | HoursAgo(hours: int) | OnDate(timestamp: int)

  /** `formatTime`: whole minutes elapsed, bucketed into under a minute, under
      an hour, under a day, and older. */
  function FormatTime(timestamp: int, now: int): (r: TimeLabel)
    ensures r.JustNow? <==> now - timestamp < MsPerMinute
    ensures r.MinutesAgo? ==> (1 <= r.minutes < 60
      && r.minutes * MsPerMinute <= now - timestamp < (r.minutes + 1) * MsPerMinute)
    ensures r.HoursAgo? ==> (1 <= r.hours < 24
      && r.hours * 60 * MsPerMinute <= now - timestamp < (r.hours + 1) * 60 * MsPerMinute)
    ensures r.OnDate? <==> now - timestamp >= MsPerDay
    ensures r.OnDate? ==> r.timestamp == timestamp
  {
    var diffInMinutes := JsNumber.FloorDiv(now - timestamp, MsPerMinute);
    if diffInMinutes < 1 then JustNow
    else if diffInMinutes < 60 then MinutesAgo(diffInMinutes)
    else if diffInMinutes < 1440 then HoursAgo(JsNumber.FloorDiv(diffInMinutes, 60))
    else OnDate(timestamp)
  }
}
