/** The work-order collection (src/hooks/useWorkOrders.ts): the rows of the
    `work_orders` table converted to in-memory orders, and the list, loading
    flag and error text the fetch, create, update and delete operations keep.
    Each remote call's answer is a parameter. */
module UseWorkOrders {

  import opened Wrappers
  import Text
  import Seqs
  import opened Domain

  /** A row of the `work_orders` table; its id is a number. */
  datatype WorkOrderRow = WorkOrderRow(
    id: nat,
    orderNumber: string,
    productName: string,
    quantityPlanned: int,
    quantityCompleted: int,
    status: WorkOrderStatus,
    priority: Priority,
    startDate: int,
    dueDate: int,
    assignedLine: string,
    createdAt: int,
    updatedAt: int)

  /** The fields a caller supplies to create an order: an order without id and
      timestamps. The create call inserts them unchanged. */
  datatype WorkOrderDraft = WorkOrderDraft(
    orderNumber: string,
    productName: string,
    quantityPlanned: int,
    quantityCompleted: int,
    status: WorkOrderStatus,
    priority: Priority,
    startDate: int,
    dueDate: int,
    assignedLine: string)

  /** `Partial<WorkOrder>`: `None` is a field left undefined. */
  datatype WorkOrderPatch = WorkOrderPatch(
    id: Option<string>,
    orderNumber: Option<string>,
    productName: Option<string>,
    quantityPlanned: Option<int>,
    quantityCompleted: Option<int>,
    status: Option<WorkOrderStatus>,
    priority: Option<Priority>,
    startDate: Option<int>,
    dueDate: Option<int>,
    assignedLine: Option<string>,
    createdAt: Option<int>,
    updatedAt: Option<int>)

  /** The update payload sent to the table: `None` is a key not sent. */
  datatype WorkOrderUpdate = WorkOrderUpdate(
    id: Option<nat>,
    orderNumber: Option<string>,
    productName: Option<string>,
    quantityPlanned: Option<int>,
    quantityCompleted: Option<int>,
    status: Option<WorkOrderStatus>,
    priority: Option<Priority>,
    startDate: Option<int>,
    dueDate: Option<int>,
    assignedLine: Option<string>,
    createdAt: Option<int>,
    updatedAt: Option<int>)

  const EmptyUpdate := WorkOrderUpdate(None, None, None, None, None, None, None, None, None, None, None, None)

  /** `convertToWorkOrder`: the numeric id becomes its decimal text, so that
      `parseInt` of the in-memory id finds the row again. */
  function ConvertToWorkOrder(row: WorkOrderRow): (wo: WorkOrder)
    ensures Text.ParseInt(wo.id) == Some(row.id)
    ensures wo.orderNumber == row.orderNumber && wo.productName == row.productName
    ensures wo.quantityPlanned == row.quantityPlanned && wo.quantityCompleted == row.quantityCompleted
    ensures wo.status == row.status && wo.priority == row.priority
    ensures wo.startDate == row.startDate && wo.dueDate == row.dueDate && wo.assignedLine == row.assignedLine
    ensures wo.createdAt == row.createdAt && wo.updatedAt == row.updatedAt
  {
    Text.ParseIntOfNatToString(row.id);
    WorkOrder(Text.NatToString(row.id), row.orderNumber, row.productName, row.quantityPlanned,
              row.quantityCompleted, row.status, row.priority, row.startDate, row.dueDate,
              row.assignedLine, row.createdAt, row.updatedAt)
  }

  /** Rows with different ids convert to orders with different ids. */
  lemma ConvertKeepsIdsDistinct(a: WorkOrderRow, b: WorkOrderRow)
    requires a.id != b.id
    ensures ConvertToWorkOrder(a).id != ConvertToWorkOrder(b).id
  {
    if ConvertToWorkOrder(a).id == ConvertToWorkOrder(b).id {
      Text.NatToStringInjective(a.id, b.id);
    }
  }

  /** The update payload: exactly the updatable fields the patch defines; id
      and timestamps are never sent. */
  function UpdateData(updates: WorkOrderPatch): (u: WorkOrderUpdate)
    ensures u.id.None? && u.createdAt.None? && u.updatedAt.None?
    ensures u.orderNumber == updates.orderNumber && u.productName == updates.productName
    ensures u.quantityPlanned == updates.quantityPlanned && u.quantityCompleted == updates.quantityCompleted
    ensures u.status == updates.status && u.priority == updates.priority
    ensures u.startDate == updates.startDate && u.dueDate == updates.dueDate
    ensures u.assignedLine == updates.assignedLine
  {
    EmptyUpdate.(orderNumber := updates.orderNumber, productName := updates.productName,
                 quantityPlanned := updates.quantityPlanned, quantityCompleted := updates.quantityCompleted,
                 status := updates.status, priority := updates.priority, startDate := updates.startDate,
                 dueDate := updates.dueDate, assignedLine := updates.assignedLine)
  }

  /** Builds the update payload one field at a time, starting from an empty
      object. */
  method BuildUpdateData(updates: WorkOrderPatch) returns (u: WorkOrderUpdate)
    ensures u == UpdateData(updates)
  {
    u := EmptyUpdate;
    if updates.orderNumber.Some? { u := u.(orderNumber := updates.orderNumber); }
    if updates.productName.Some? { u := u.(productName := updates.productName); }
    if updates.quantityPlanned.Some? { u := u.(quantityPlanned := updates.quantityPlanned); }
    if updates.quantityCompleted.Some? { u := u.(quantityCompleted := updates.quantityCompleted); }
    if updates.status.Some? { u := u.(status := updates.status); }
    if updates.priority.Some? { u := u.(priority := updates.priority); }
    if updates.startDate.Some? { u := u.(startDate := updates.startDate); }
    if updates.dueDate.Some? { u := u.(dueDate := updates.dueDate); }
    if updates.assignedLine.Some? { u := u.(assignedLine := updates.assignedLine); }
  }

  /** What the table does with an update payload: every key sent overwrites
      its column, every other column keeps its value. */
  function ApplyUpdate(row: WorkOrderRow, u: WorkOrderUpdate): WorkOrderRow {
    WorkOrderRow(u.id.GetOr(row.id), u.orderNumber.GetOr(row.orderNumber), u.productName.GetOr(row.productName),
                 u.quantityPlanned.GetOr(row.quantityPlanned), u.quantityCompleted.GetOr(row.quantityCompleted),
                 u.status.GetOr(row.status), u.priority.GetOr(row.priority), u.startDate.GetOr(row.startDate),
                 u.dueDate.GetOr(row.dueDate), u.assignedLine.GetOr(row.assignedLine),
                 u.createdAt.GetOr(row.createdAt), u.updatedAt.GetOr(row.updatedAt))
  }

  /** The in-memory order with the patch's updatable fields applied. */
  function Patched(wo: WorkOrder, p: WorkOrderPatch): WorkOrder {
    wo.(orderNumber := p.orderNumber.GetOr(wo.orderNumber), productName := p.productName.GetOr(wo.productName),
        quantityPlanned := p.quantityPlanned.GetOr(wo.quantityPlanned),
        quantityCompleted := p.quantityCompleted.GetOr(wo.quantityCompleted),
        status := p.status.GetOr(wo.status), priority := p.priority.GetOr(wo.priority),
        startDate := p.startDate.GetOr(wo.startDate), dueDate := p.dueDate.GetOr(wo.dueDate),
        assignedLine := p.assignedLine.GetOr(wo.assignedLine))
  }

  /** Sending a patch and reading the row back gives the patched order: the
      update changes what the patch defines and nothing else, and a patched
      id or timestamp is ignored. */
  lemma UpdateRoundTrip(row: WorkOrderRow, p: WorkOrderPatch)
    ensures ConvertToWorkOrder(ApplyUpdate(row, UpdateData(p))) == Patched(ConvertToWorkOrder(row), p)
  {
  }

  function HasId(id: string): WorkOrder -> bool {
    (wo: WorkOrder) => wo.id == id
  }

  function LacksId(id: string): WorkOrder -> bool {
    (wo: WorkOrder) => wo.id != id
  }

  /** `useWorkOrders()`: the orders, a loading flag and the last error text. */
  class WorkOrderStore {
    var workOrders: seq<WorkOrder>
    var loading: bool
    var error: Option<string>

    constructor()
      ensures workOrders == [] && loading && error == None
    {
      workOrders := [];
      loading := true;
      error := None;
    }

    /** `fetchWorkOrders`: a failure keeps the list and records the error, a
        missing result empties the list, otherwise the rows are converted in
        the order they came; loading always ends false. */
    method Fetch(response: Remote<Option<seq<WorkOrderRow>>>)
      modifies this
      ensures !loading
      ensures response.Failure? ==>
        workOrders == old(workOrders) && error == Some(ErrorText(response.err, "Failed to fetch work orders"))
      ensures response.Success? && response.value.None? ==> workOrders == [] && error == None
      ensures response.Success? && response.value.Some? ==>
        workOrders == Seqs.Map(response.value.value, ConvertToWorkOrder) && error == None
    {
      loading := true;
      error := None;
      match response {
        case Failure(err) =>
          error := Some(ErrorText(err, "Failed to fetch work orders"));
        case Success(data) =>
          if data.None? {
            workOrders := [];
          } else {
            workOrders := Seqs.Map(data.value, ConvertToWorkOrder);
          }
      }
      loading := false;
    }

    /** `createWorkOrder`: inserts the nine fields of the draft unchanged; on
        success the new order goes first; on failure the list stays and the
        error is recorded and rethrown. */
    method Create(data: WorkOrderDraft, response: Remote<WorkOrderRow>)
      returns (payload: WorkOrderDraft, result: Result<WorkOrder>)
      modifies this
      ensures payload == data
      ensures loading == old(loading)
      ensures response.Success? ==>
        result == Ok(ConvertToWorkOrder(response.value))
        && workOrders == [result.value] + old(workOrders) && error == None
      ensures response.Failure? ==>
        result == Err(response.err) && workOrders == old(workOrders)
        && error == Some(ErrorText(response.err, "Failed to create work order"))
    {
      error := None;
      payload := data;
      match response {
        case Failure(err) =>
          error := Some(ErrorText(err, "Failed to create work order"));
          result := Err(err);
        case Success(row) =>
          var created := ConvertToWorkOrder(row);
          workOrders := [created] + workOrders;
          result := Ok(created);
      }
    }

    /** `updateWorkOrder`: sends the fields the patch defines to the row whose
        number `parseInt(id)` gives; on success every order with the id is
        replaced by the returned row, the others stay as and where they were. */
    method Update(id: string, updates: WorkOrderPatch, response: Remote<WorkOrderRow>)
      returns (key: Option<nat>, payload: WorkOrderUpdate, result: Result<WorkOrder>)
      modifies this
      ensures key == Text.ParseInt(id) && payload == UpdateData(updates)
      ensures loading == old(loading)
      ensures response.Success? ==>
        result == Ok(ConvertToWorkOrder(response.value)) && error == None
        && workOrders == Seqs.ReplaceWhere(old(workOrders), HasId(id), result.value)
      ensures response.Failure? ==>
        result == Err(response.err) && workOrders == old(workOrders)
        && error == Some(ErrorText(response.err, "Failed to update work order"))
    {
      error := None;
      payload := BuildUpdateData(updates);
      key := Text.ParseInt(id);
      match response {
        case Failure(err) =>
          error := Some(ErrorText(err, "Failed to update work order"));
          result := Err(err);
        case Success(row) =>
          var updated := ConvertToWorkOrder(row);
          workOrders := Seqs.ReplaceWhere(workOrders, HasId(id), updated);
          result := Ok(updated);
      }
    }

    /** `deleteWorkOrder`: on success the orders with the id are gone and the
        rest keep their order. */
    method Delete(id: string, response: Remote<()>) returns (key: Option<nat>, result: Result<()>)
      modifies this
      ensures key == Text.ParseInt(id)
      ensures loading == old(loading)
      ensures response.Success? ==>
        result == Ok(()) && error == None && workOrders == Seqs.Filter(old(workOrders), LacksId(id))
      ensures response.Failure? ==>
        result == Err(response.err) && workOrders == old(workOrders)
        && error == Some(ErrorText(response.err, "Failed to delete work order"))
    {
      error := None;
      key := Text.ParseInt(id);
      match response {
        case Failure(err) =>
          error := Some(ErrorText(err, "Failed to delete work order"));
          result := Err(err);
        case Success(_) =>
          workOrders := Seqs.Filter(workOrders, LacksId(id));
          result := Ok(());
      }
    }

    /** `getWorkOrder`: the first order with the id, or nothing. */
    function GetWorkOrder(id: string): (r: Option<WorkOrder>)
      reads this
      ensures r.Some? ==> r.value in workOrders && r.value.id == id
      ensures r.Some? ==> exists i :: (0 <= i < |workOrders| && workOrders[i] == r.value
                                       && forall j :: 0 <= j < i ==> workOrders[j].id != id)
      ensures r.None? <==> forall i :: 0 <= i < |workOrders| ==> workOrders[i].id != id
    {
      WorkOrderWithId(workOrders, id)
    }
  }

  /** After a successful delete no order has the id, and the remaining orders
      are the old ones in their old order. */
  lemma DeleteRemovesId(orders: seq<WorkOrder>, id: string)
    ensures forall i :: 0 <= i < |Seqs.Filter(orders, LacksId(id))| ==> Seqs.Filter(orders, LacksId(id))[i].id != id
    ensures Seqs.IsSubsequence(Seqs.Filter(orders, LacksId(id)), orders)
    ensures (forall i :: 0 <= i < |orders| ==> orders[i].id != id) ==> Seqs.Filter(orders, LacksId(id)) == orders
  {
    if forall i :: 0 <= i < |orders| ==> orders[i].id != id {
      Seqs.FilterKeepsAll(orders, LacksId(id));
    }
  }

  /** After a successful update the order with the id reads as the returned
      row, and, as long as ids are unique, `getWorkOrder` finds exactly it. */
  lemma UpdateThenGet(orders: seq<WorkOrder>, id: string, updated: WorkOrder)
    requires updated.id == id
    requires exists i :: 0 <= i < |orders| && orders[i].id == id
    ensures WorkOrderWithId(Seqs.ReplaceWhere(orders, HasId(id), updated), id) == Some(updated)
  {
    var replaced := Seqs.ReplaceWhere(orders, HasId(id), updated);
    var i :| 0 <= i < |orders| && orders[i].id == id;
    assert replaced[i].id == id;
    var r := WorkOrderWithId(replaced, id);
    var j :| 0 <= j < |replaced| && replaced[j] == r.value && forall k :: 0 <= k < j ==> replaced[k].id != id;
    assert HasId(id)(orders[j]);
  }
}
