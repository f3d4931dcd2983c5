/** The quality-control page (src/components/Quality/QualityControl.tsx):
    the lookup of each check's work order, the search and result filter, the
    counts and pass rate at the top, and the inspector cells of each row. */
module QualityControl {

  import opened Wrappers
  import Text
  import Seqs
  import Metrics
  import opened Domain

  /** `getWorkOrderInfo(id)`: the first work order with that id, if any. */
  function GetWorkOrderInfo(orders: seq<WorkOrder>, workOrderId: string): (r: Option<WorkOrder>)
    ensures r.Some? ==> r.value in orders && r.value.id == workOrderId
    ensures r.Some? ==> exists i :: (0 <= i < |orders| && orders[i] == r.value
                                     && forall j :: 0 <= j < i ==> orders[j].id != workOrderId)
    ensures r.None? <==> forall i :: 0 <= i < |orders| ==> orders[i].id != workOrderId
  {
    WorkOrderWithId(orders, workOrderId)
  }

  /** The search term matches the order number or product of the check's
      work order, when that order is loaded, or the check type; ignoring case. */
  predicate MatchesSearch(orders: seq<WorkOrder>, c: QualityCheck, term: string) {
    var wo := GetWorkOrderInfo(orders, c.workOrderId);
    || (wo.Some? && Text.Matches(wo.value.orderNumber, term))
    || (wo.Some? && Text.Matches(wo.value.productName, term))
    || Text.Matches(c.checkType, term)
  }

  /** A row is shown when it matches the search and the result filter. */
  predicate Passes(orders: seq<WorkOrder>, c: QualityCheck, term: string, resultFilter: Choice<CheckResult>) {
    MatchesSearch(orders, c, term) && (resultFilter.All? || c.result == resultFilter.value)
  }

  function Shown(orders: seq<WorkOrder>, term: string, resultFilter: Choice<CheckResult>): QualityCheck -> bool {
    (c: QualityCheck) => Passes(orders, c, term, resultFilter)
  }

  /** `filteredChecks`: the checks passing both tests, in order. */
  function FilteredChecks(checks: seq<QualityCheck>, orders: seq<WorkOrder>, term: string,
                          resultFilter: Choice<CheckResult>): (r: seq<QualityCheck>)
    ensures Seqs.IsSubsequence(r, checks)
    ensures forall i :: 0 <= i < |r| ==> r[i] in checks && Passes(orders, r[i], term, resultFilter)
    ensures forall i :: 0 <= i < |checks| && Passes(orders, checks[i], term, resultFilter) ==> checks[i] in r
    ensures forall i :: 0 <= i < |checks| && Passes(orders, checks[i], term, resultFilter) ==>
      multiset(r)[checks[i]] == multiset(checks)[checks[i]]
  {
    Seqs.FilterKeepsCopies(checks, Shown(orders, term, resultFilter));
    Seqs.Filter(checks, Shown(orders, term, resultFilter))
  }

  /** An empty search with the result filter on "all" shows every check,
      whether or not its work order is loaded. */
  lemma NoFilterShowsAll(checks: seq<QualityCheck>, orders: seq<WorkOrder>)
    ensures FilteredChecks(checks, orders, "", All) == checks
  {
    forall c | c in checks
      ensures Shown(orders, "", All)(c)
    {
      Text.MatchesEmpty(c.checkType);
    }
    Seqs.FilterKeepsAll(checks, Shown(orders, "", All));
  }

  /** A check whose work order is not loaded can be found by its type only. */
  lemma MissingOrderMatchesByTypeOnly(orders: seq<WorkOrder>, c: QualityCheck, term: string)
    requires forall i :: 0 <= i < |orders| ==> orders[i].id != c.workOrderId
    ensures MatchesSearch(orders, c, term) <==> Text.Matches(c.checkType, term)
  {
  }

  datatype QualityStats = QualityStats(total: nat, passed: nat, failed: nat, pending: nat, passRate: int)

  /** `getQualityStats()`: the result counts split the total, and the pass
      rate is the passed share rounded to a whole percent (0 without checks). */
  function GetQualityStats(checks: seq<QualityCheck>): (st: QualityStats)
    ensures st.total == |checks|
    ensures st.passed == Seqs.Count(checks, Passed) && st.failed == Seqs.Count(checks, Failed)
    ensures st.pending == Seqs.Count(checks, Unchecked)
    ensures st.passed + st.failed + st.pending == st.total
    ensures 0 <= st.passRate <= 100
    ensures st.total == 0 ==> st.passRate == 0
    ensures st.total > 0 ==>
      st.passRate as real - 0.5 <= st.passed as real / st.total as real * 100.0 < st.passRate as real + 0.5
  {
    Seqs.FilterPartition3(checks, Passed, Failed, Unchecked);
    var passed := Seqs.Count(checks, Passed);
    var passRate := if |checks| > 0 then Metrics.RoundedPercent(passed, |checks|) else 0;
    QualityStats(|checks|, passed, Seqs.Count(checks, Failed), Seqs.Count(checks, Unchecked), passRate)
  }

  /** The inspector cells of a row: the name, else "Unknown"; the employee
      id, else "N/A"; the shift, else "N/A". */
  function InspectorCells(c: QualityCheck): (cells: (string, string, string))
    ensures c.inspector.None? ==> cells == ("Unknown", "N/A", "N/A")
    ensures c.inspector.Some? && c.inspector.value.name != "" ==> cells.0 == c.inspector.value.name
    ensures c.inspector.Some? && c.inspector.value.name == "" ==> cells.0 == "Unknown"
    ensures c.inspector.Some? && c.inspector.value.employeeId != "" ==> cells.1 == c.inspector.value.employeeId
    ensures c.inspector.Some? && c.inspector.value.employeeId == "" ==> cells.1 == "N/A"
    ensures c.inspector.Some? ==> cells.2 == ShiftName(c.inspector.value.shift)
    ensures cells.0 != "" && cells.1 != "" && cells.2 != ""
  {
    match c.inspector
    case None => ("Unknown", "N/A", "N/A")
    case Some(op) =>
      (if op.name != "" then op.name else "Unknown",
       if op.employeeId != "" then op.employeeId else "N/A",
       ShiftName(op.shift))
  }

  function ShiftName(s: Shift): (name: string)
    ensures name != ""
  {
    match s
    case Day => "day"
    case Night => "night"
    case Swing => "swing"
  }
}
