/** The work-order list (src/components/WorkOrders/WorkOrderList.tsx): the
    search and the status filter, and the progress bar of each row. */
module WorkOrderList {

  import Text
  import Seqs
  import JsNumber
  import opened Domain

  /** The search term matches the order number or the product, ignoring case. */
  predicate MatchesSearch(wo: WorkOrder, term: string) {
    Text.Matches(wo.orderNumber, term) || Text.Matches(wo.productName, term)
  }

  /** A row is shown when it matches the search and the status filter. */
  predicate Passes(wo: WorkOrder, term: string, statusFilter: Choice<WorkOrderStatus>) {
    MatchesSearch(wo, term) && (statusFilter.All? || wo.status == statusFilter.value)
  }

  function Shown(term: string, statusFilter: Choice<WorkOrderStatus>): WorkOrder -> bool {
    (wo: WorkOrder) => Passes(wo, term, statusFilter)
  }

  /** `filteredOrders`: the work orders passing both tests, in order. */
  function FilteredOrders(orders: seq<WorkOrder>, term: string, statusFilter: Choice<WorkOrderStatus>): (r: seq<WorkOrder>)
    ensures Seqs.IsSubsequence(r, orders)
    ensures forall i :: 0 <= i < |r| ==> r[i] in orders && Passes(r[i], term, statusFilter)
    ensures forall i :: 0 <= i < |orders| && Passes(orders[i], term, statusFilter) ==> orders[i] in r
    ensures forall i :: 0 <= i < |orders| && Passes(orders[i], term, statusFilter) ==>
      multiset(r)[orders[i]] == multiset(orders)[orders[i]]
  {
    Seqs.FilterKeepsCopies(orders, Shown(term, statusFilter));
    Seqs.Filter(orders, Shown(term, statusFilter))
  }

  /** An empty search with the status filter on "all" shows every order. */
  lemma NoFilterShowsAll(orders: seq<WorkOrder>)
    ensures FilteredOrders(orders, "", All) == orders
  {
    forall wo | wo in orders
      ensures Shown("", All)(wo)
    {
      Text.MatchesEmpty(wo.orderNumber);
    }
    Seqs.FilterKeepsAll(orders, Shown("", All));
  }

  /** A number as `Math.round((completed / planned) * 100)` yields it: an
      integer, or one of the non-finite values a zero plan produces. */
  datatype Progress = Percent(value: int) | PosInfinity | NegInfinity | NotANumber

  /** `getProgressPercentage(completed, planned)`: neither clamped nor
      guarded against a zero plan. */
  function ProgressPercentage(completed: int, planned: int): (p: Progress)
    ensures planned == 0 && completed > 0 ==> p == PosInfinity
    ensures planned == 0 && completed < 0 ==> p == NegInfinity
    ensures planned == 0 && completed == 0 ==> p == NotANumber
    ensures planned != 0 ==> p.Percent?
    ensures planned != 0 ==>
      p.value as real - 0.5 <= completed as real / planned as real * 100.0 < p.value as real + 0.5
  {
    if planned == 0 then
      if completed > 0 then PosInfinity else if completed < 0 then NegInfinity else NotANumber
    else
      Percent(JsNumber.Round(completed as real / planned as real * 100.0))
  }

  /** Producing a whole multiple of the plan shows exactly that many
      hundreds of percent; meeting the plan shows 100. */
  lemma ProgressOfMultiple(planned: int, k: int)
    requires planned != 0
    ensures ProgressPercentage(k * planned, planned) == Percent(100 * k)
  {
    var ratio := (k * planned) as real / planned as real;
    assert ratio * planned as real == k as real * planned as real;
    assert ratio == k as real;
    JsNumber.RoundOfInt(100 * k);
  }

  /** For a positive plan, more produced never shows less progress. */
  lemma ProgressMonotone(c1: int, c2: int, planned: int)
    requires c1 <= c2 && planned > 0
    ensures ProgressPercentage(c1, planned).value <= ProgressPercentage(c2, planned).value
  {
    var r1 := c1 as real / planned as real;
    var r2 := c2 as real / planned as real;
    assert r1 * planned as real == c1 as real;
    assert r2 * planned as real == c2 as real;
    assert r1 <= r2;
    JsNumber.RoundMonotone(r1 * 100.0, r2 * 100.0);
  }

  /** Within the plan the bar stays within 0 to 100 percent; beyond it, the
      width goes past 100. */
  lemma ProgressWithinPlan(completed: int, planned: int)
    requires planned > 0
    ensures 0 <= completed <= planned ==> 0 <= ProgressPercentage(completed, planned).value <= 100
    ensures completed >= planned ==> ProgressPercentage(completed, planned).value >= 100
  {
    ProgressOfMultiple(planned, 0);
    ProgressOfMultiple(planned, 1);
    if 0 <= completed {
      ProgressMonotone(0, completed, planned);
    }
    if completed <= planned {
      ProgressMonotone(completed, planned, planned);
    } else {
      ProgressMonotone(planned, completed, planned);
    }
  }
}
