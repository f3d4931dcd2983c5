/** The entities of the dashboard as the hooks hold them in memory
    (src/types/index.ts), the rows of the table store they are converted from
    (src/types/database.ts), and the status tests the views filter by. Ids are
    strings in memory and numbers in the table store; dates are millisecond
    instants. */
module Domain {

  import opened Wrappers
  import Text
  import Seqs

  datatype WorkOrderStatus = Pending | InProgress | Completed | OnHold
  datatype Priority = Low | Medium | High | Urgent
  datatype MachineStatus = Running | Idle | Maintenance | Error
  datatype CheckResult = Pass | Fail | PendingCheck
  datatype Shift = Day | Night | Swing

  /** A list view's drop-down filter: `'all'`, or one value. */
  datatype Choice<T> = All | Only(value: T)

  datatype WorkOrder = WorkOrder(
    id: string,
    orderNumber: string,
    productName: string,
    quantityPlanned: int,
    quantityCompleted: int,
    status: WorkOrderStatus,
    priority: Priority,
    startDate: int,
    dueDate: int,
    assignedLine: string,
    createdAt: int,
    updatedAt: int)

  /** A machine as useMachines holds it: the order number and product of the
      assigned work order come from the joined work-order row. */
  datatype Machine = Machine(
    id: string,
    name: string,
    machineType: string,
    status: MachineStatus,
    currentWorkOrder: Option<string>,
    currentWorkOrderId: Option<string>,
    currentWorkOrderProduct: Option<string>,
    efficiency: real,
    lastMaintenance: int,
    location: string,
    createdAt: int)

  datatype Operator = Operator(
    id: string,
    name: string,
    employeeId: string,
    shift: Shift,
    skills: seq<string>,
    currentAssignment: Option<string>)

  datatype QualityCheck = QualityCheck(
    id: string,
    workOrderId: string,
    checkType: string,
    result: CheckResult,
    inspectorId: string,
    inspector: Option<Operator>,
    notes: Option<string>,
    checkedAt: int)

  // ---------------------------------------------------------------- status tests

  predicate IsCompleted(wo: WorkOrder) { wo.status == Completed }
  predicate IsNotCompleted(wo: WorkOrder) { wo.status != Completed }

  predicate IsRunning(m: Machine) { m.status == Running }
  predicate IsIdle(m: Machine) { m.status == Idle }
  predicate InMaintenance(m: Machine) { m.status == Maintenance }
  predicate InError(m: Machine) { m.status == Error }
  /** Down for the downtime figure: in error or under maintenance. */
  predicate IsDown(m: Machine) { m.status == Error || m.status == Maintenance }

  predicate Passed(c: QualityCheck) { c.result == Pass }
  predicate Failed(c: QualityCheck) { c.result == Fail }
  predicate Unchecked(c: QualityCheck) { c.result == PendingCheck }

  predicate OnDayShift(op: Operator) { op.shift == Day }
  predicate OnNightShift(op: Operator) { op.shift == Night }
  predicate OnSwingShift(op: Operator) { op.shift == Swing }

  /** `!!op.current_assignment`. */
  predicate IsAssigned(op: Operator) { Text.Truthy(op.currentAssignment) }
  predicate IsAvailable(op: Operator) { !Text.Truthy(op.currentAssignment) }

  function Efficiency(m: Machine): real { m.efficiency }
  function QuantityCompleted(wo: WorkOrder): int { wo.quantityCompleted }
  function QuantityPlanned(wo: WorkOrder): int { wo.quantityPlanned }

  // ---------------------------------------------------------------- lookup

  /** `workOrders.find(wo => wo.id === id)`: the first order with the id. */
  function WorkOrderWithId(orders: seq<WorkOrder>, id: string): (r: Option<WorkOrder>)
    ensures r.Some? ==> r.value.id == id
    ensures r.Some? ==> exists i :: (0 <= i < |orders| && orders[i] == r.value
                                     && forall j :: 0 <= j < i ==> orders[j].id != id)
    ensures r.None? <==> forall i :: 0 <= i < |orders| ==> orders[i].id != id
  {
    match Seqs.FindIndex(orders, (wo: WorkOrder) => wo.id == id)
    case None => None
    case Some(i) => Some(orders[i])
  }
}
