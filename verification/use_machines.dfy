/** The machine collection (src/hooks/useMachines.ts): rows of the `machines`
    table, each read together with the work order its `current_work_order`
    column refers to, converted to in-memory machines; and the list, loading
    flag and error text the fetch, create, update and delete operations keep. */
module UseMachines {

  import opened Wrappers
  import Text
  import Seqs
  import opened Domain

  /** A row of the `machines` table. `currentWorkOrder` is the referenced work
      order's id, `None` for null. */
  datatype MachineRow = MachineRow(
    id: nat,
    name: string,
    machineType: string,
    status: MachineStatus,
    currentWorkOrder: Option<string>,
    efficiency: real,
    lastMaintenance: int,
    location: string,
    createdAt: int,
    updatedAt: int)

  /** The columns of the joined work order the machine queries select. */
  datatype JoinedOrder = JoinedOrder(id: nat, orderNumber: string, productName: string)

  /** The fields a caller supplies to create a machine. */
  datatype MachineDraft = MachineDraft(
    name: string,
    machineType: string,
    status: MachineStatus,
    currentWorkOrder: Option<string>,
    currentWorkOrderId: Option<string>,
    currentWorkOrderProduct: Option<string>,
    efficiency: real,
    lastMaintenance: int,
    location: string)

  /** The insert payload; `currentWorkOrder == None` is an explicit null. */
  datatype MachineInsert = MachineInsert(
    name: string,
    machineType: string,
    status: MachineStatus,
    currentWorkOrder: Option<string>,
    efficiency: real,
    lastMaintenance: int,
    location: string)

  /** `Partial<Machine>`. `currentWorkOrderId` distinguishes a key that is
      absent (`None`) from one present with the value undefined
      (`Some(None)`), because the update looks at the key, not the value. */
  datatype MachinePatch = MachinePatch(
    id: Option<string>,
    name: Option<string>,
    machineType: Option<string>,
    status: Option<MachineStatus>,
    currentWorkOrder: Option<string>,
    currentWorkOrderId: Option<Option<string>>,
    currentWorkOrderProduct: Option<string>,
    efficiency: Option<real>,
    lastMaintenance: Option<int>,
    location: Option<string>,
    createdAt: Option<int>)

  /** The update payload: `None` is a key not sent; for the nullable
      `currentWorkOrder`, `Some(None)` sends null. */
  datatype MachineUpdate = MachineUpdate(
    id: Option<nat>,
    name: Option<string>,
    machineType: Option<string>,
    status: Option<MachineStatus>,
    currentWorkOrder: Option<Option<string>>,
    efficiency: Option<real>,
    lastMaintenance: Option<int>,
    location: Option<string>,
    createdAt: Option<int>,
    updatedAt: Option<int>)

  const EmptyUpdate := MachineUpdate(None, None, None, None, None, None, None, None, None, None)

  /** `convertToMachine`: the order number and product shown for a machine
      come only from the joined work order (and an empty one counts as
      missing); the assigned order's id comes from the row's own column. */
  function ConvertToMachine(row: MachineRow, join: Option<JoinedOrder>): (m: Machine)
    ensures Text.ParseInt(m.id) == Some(row.id)
    ensures join.None? ==> m.currentWorkOrder.None? && m.currentWorkOrderProduct.None?
    ensures join.Some? ==> m.currentWorkOrder == Text.NonEmpty(Some(join.value.orderNumber))
    ensures join.Some? ==> m.currentWorkOrderProduct == Text.NonEmpty(Some(join.value.productName))
    ensures m.currentWorkOrderId == Text.NonEmpty(row.currentWorkOrder)
    ensures m.name == row.name && m.machineType == row.machineType && m.status == row.status
    ensures m.efficiency == row.efficiency && m.lastMaintenance == row.lastMaintenance
    ensures m.location == row.location && m.createdAt == row.createdAt
  {
    Text.ParseIntOfNatToString(row.id);
    Machine(
      id := Text.NatToString(row.id),
      name := row.name,
      machineType := row.machineType,
      status := row.status,
      currentWorkOrder := if join.Some? then Text.NonEmpty(Some(join.value.orderNumber)) else None,
      currentWorkOrderId := Text.NonEmpty(row.currentWorkOrder),
      currentWorkOrderProduct := if join.Some? then Text.NonEmpty(Some(join.value.productName)) else None,
      efficiency := row.efficiency,
      lastMaintenance := row.lastMaintenance,
      location := row.location,
      createdAt := row.createdAt)
  }

  /** The insert payload: the assigned order's id, or null when there is none
      (an empty id is sent as it is); the display-only order number and
      product are not sent. */
  function InsertData(d: MachineDraft): (ins: MachineInsert)
    ensures ins.currentWorkOrder == d.currentWorkOrderId
    ensures ins.name == d.name && ins.machineType == d.machineType && ins.status == d.status
    ensures ins.efficiency == d.efficiency && ins.lastMaintenance == d.lastMaintenance && ins.location == d.location
  {
    MachineInsert(d.name, d.machineType, d.status, d.currentWorkOrderId, d.efficiency, d.lastMaintenance, d.location)
  }

  /** The update payload: the updatable fields the patch defines; when the
      patch has the `currentWorkOrderId` key, the column is set to its value,
      or to null when that value is missing or empty. */
  function UpdateData(updates: MachinePatch): (u: MachineUpdate)
    ensures u.id.None? && u.createdAt.None? && u.updatedAt.None?
    ensures u.name == updates.name && u.machineType == updates.machineType && u.status == updates.status
    ensures u.efficiency == updates.efficiency && u.lastMaintenance == updates.lastMaintenance
    ensures u.location == updates.location
    ensures updates.currentWorkOrderId.None? ==> u.currentWorkOrder.None?
    ensures updates.currentWorkOrderId.Some? ==>
      u.currentWorkOrder == Some(Text.NonEmpty(updates.currentWorkOrderId.value))
  {
    EmptyUpdate.(name := updates.name, machineType := updates.machineType, status := updates.status,
                 currentWorkOrder := match updates.currentWorkOrderId
                                     case None => None
                                     case Some(v) => Some(Text.NonEmpty(v)),
                 efficiency := updates.efficiency, lastMaintenance := updates.lastMaintenance,
                 location := updates.location)
  }

  /** Builds the update payload one field at a time. */
  method BuildUpdateData(updates: MachinePatch) returns (u: MachineUpdate)
    ensures u == UpdateData(updates)
  {
    u := EmptyUpdate;
    if updates.name.Some? { u := u.(name := updates.name); }
    if updates.machineType.Some? { u := u.(machineType := updates.machineType); }
    if updates.status.Some? { u := u.(status := updates.status); }
    if updates.currentWorkOrderId.Some? {
      u := u.(currentWorkOrder := Some(Text.NonEmpty(updates.currentWorkOrderId.value)));
    }
    if updates.efficiency.Some? { u := u.(efficiency := updates.efficiency); }
    if updates.lastMaintenance.Some? { u := u.(lastMaintenance := updates.lastMaintenance); }
    if updates.location.Some? { u := u.(location := updates.location); }
  }

  /** What the table does with an update payload. */
  function ApplyUpdate(row: MachineRow, u: MachineUpdate): MachineRow {
    MachineRow(u.id.GetOr(row.id), u.name.GetOr(row.name), u.machineType.GetOr(row.machineType),
               u.status.GetOr(row.status), u.currentWorkOrder.GetOr(row.currentWorkOrder),
               u.efficiency.GetOr(row.efficiency), u.lastMaintenance.GetOr(row.lastMaintenance),
               u.location.GetOr(row.location), u.createdAt.GetOr(row.createdAt), u.updatedAt.GetOr(row.updatedAt))
  }

  /** The in-memory machine with the patch applied as the update promises:
      assignment by key, the other updatable fields by value. */
  function Patched(m: Machine, p: MachinePatch): Machine {
    m.(name := p.name.GetOr(m.name), machineType := p.machineType.GetOr(m.machineType),
       status := p.status.GetOr(m.status),
       currentWorkOrderId := match p.currentWorkOrderId
                             case None => m.currentWorkOrderId
                             case Some(v) => Text.NonEmpty(v),
       efficiency := p.efficiency.GetOr(m.efficiency), lastMaintenance := p.lastMaintenance.GetOr(m.lastMaintenance),
       location := p.location.GetOr(m.location))
  }

  /** Sending a patch and reading the row back (with the same joined order)
      gives the patched machine. */
  lemma UpdateRoundTrip(row: MachineRow, join: Option<JoinedOrder>, p: MachinePatch)
    ensures ConvertToMachine(ApplyUpdate(row, UpdateData(p)), join) == Patched(ConvertToMachine(row, join), p)
  {
  }

  /** A patch that holds the assignment key with a missing or empty value
      unassigns the machine; a patch without the key keeps the assignment. */
  lemma UnassignByKey(row: MachineRow, join: Option<JoinedOrder>, p: MachinePatch)
    ensures p.currentWorkOrderId == Some(None) || p.currentWorkOrderId == Some(Some("")) ==>
      ConvertToMachine(ApplyUpdate(row, UpdateData(p)), join).currentWorkOrderId.None?
    ensures p.currentWorkOrderId.None? ==>
      ConvertToMachine(ApplyUpdate(row, UpdateData(p)), join).currentWorkOrderId
      == ConvertToMachine(row, join).currentWorkOrderId
  {
    UpdateRoundTrip(row, join, p);
  }

  /** Create and update treat an empty order id differently: create stores
      the empty text, update stores null; both read back as unassigned. */
  lemma EmptyAssignmentCreateVersusUpdate(d: MachineDraft, p: MachinePatch)
    requires d.currentWorkOrderId == Some("") && p.currentWorkOrderId == Some(Some(""))
    ensures InsertData(d).currentWorkOrder == Some("")
    ensures UpdateData(p).currentWorkOrder == Some(None)
    ensures Text.NonEmpty(InsertData(d).currentWorkOrder) == None
  {
  }

  function HasId(id: string): Machine -> bool {
    (m: Machine) => m.id == id
  }

  function LacksId(id: string): Machine -> bool {
    (m: Machine) => m.id != id
  }

  function HasStatus(status: MachineStatus): Machine -> bool {
    (m: Machine) => m.status == status
  }

  /** `useMachines()`: the machines, a loading flag and the last error text. */
  class MachineStore {
    var machines: seq<Machine>
    var loading: bool
    var error: Option<string>

    constructor()
      ensures machines == [] && loading && error == None
    {
      machines := [];
      loading := true;
      error := None;
    }

    /** `fetchMachines`: each row comes with its joined order. */
    method Fetch(response: Remote<Option<seq<(MachineRow, Option<JoinedOrder>)>>>)
      modifies this
      ensures !loading
      ensures response.Failure? ==>
        machines == old(machines) && error == Some(ErrorText(response.err, "Failed to fetch machines"))
      ensures response.Success? && response.value.None? ==> machines == [] && error == None
      ensures response.Success? && response.value.Some? ==>
        |machines| == |response.value.value| && error == None
        && forall i :: 0 <= i < |machines| ==>
             machines[i] == ConvertToMachine(response.value.value[i].0, response.value.value[i].1)
    {
      loading := true;
      error := None;
      match response {
        case Failure(err) =>
          error := Some(ErrorText(err, "Failed to fetch machines"));
        case Success(data) =>
          if data.None? {
            machines := [];
          } else {
            var rows := data.value;
            machines := seq(|rows|, i requires 0 <= i < |rows| => ConvertToMachine(rows[i].0, rows[i].1));
          }
      }
      loading := false;
    }

    /** `createMachine`: sends the insert payload; on success the new machine
        goes first. */
    method Create(data: MachineDraft, response: Remote<(MachineRow, Option<JoinedOrder>)>)
      returns (payload: MachineInsert, result: Result<Machine>)
      modifies this
      ensures payload == InsertData(data)
      ensures loading == old(loading)
      ensures response.Success? ==>
        result == Ok(ConvertToMachine(response.value.0, response.value.1))
        && machines == [result.value] + old(machines) && error == None
      ensures response.Failure? ==>
        result == Err(response.err) && machines == old(machines)
        && error == Some(ErrorText(response.err, "Failed to create machine"))
    {
      error := None;
      payload := InsertData(data);
      match response {
        case Failure(err) =>
          error := Some(ErrorText(err, "Failed to create machine"));
          result := Err(err);
        case Success(answer) =>
          var created := ConvertToMachine(answer.0, answer.1);
          machines := [created] + machines;
          result := Ok(created);
      }
    }

    /** `updateMachine`: on success every machine with the id is replaced by
        the returned row, the others stay as and where they were. */
    method Update(id: string, updates: MachinePatch, response: Remote<(MachineRow, Option<JoinedOrder>)>)
      returns (key: Option<nat>, payload: MachineUpdate, result: Result<Machine>)
      modifies this
      ensures key == Text.ParseInt(id) && payload == UpdateData(updates)
      ensures loading == old(loading)
      ensures response.Success? ==>
        result == Ok(ConvertToMachine(response.value.0, response.value.1)) && error == None
        && machines == Seqs.ReplaceWhere(old(machines), HasId(id), result.value)
      ensures response.Failure? ==>
        result == Err(response.err) && machines == old(machines)
        && error == Some(ErrorText(response.err, "Failed to update machine"))
    {
      error := None;
      payload := BuildUpdateData(updates);
      key := Text.ParseInt(id);
      match response {
        case Failure(err) =>
          error := Some(ErrorText(err, "Failed to update machine"));
          result := Err(err);
        case Success(answer) =>
          var updated := ConvertToMachine(answer.0, answer.1);
          machines := Seqs.ReplaceWhere(machines, HasId(id), updated);
          result := Ok(updated);
      }
    }

    /** `deleteMachine`: on success the machines with the id are gone. */
    method Delete(id: string, response: Remote<()>) returns (key: Option<nat>, result: Result<()>)
      modifies this
      ensures key == Text.ParseInt(id)
      ensures loading == old(loading)
      ensures response.Success? ==>
        result == Ok(()) && error == None && machines == Seqs.Filter(old(machines), LacksId(id))
      ensures response.Failure? ==>
        result == Err(response.err) && machines == old(machines)
        && error == Some(ErrorText(response.err, "Failed to delete machine"))
    {
      error := None;
      key := Text.ParseInt(id);
      match response {
        case Failure(err) =>
          error := Some(ErrorText(err, "Failed to delete machine"));
          result := Err(err);
        case Success(_) =>
          machines := Seqs.Filter(machines, LacksId(id));
          result := Ok(());
      }
    }

    /** `getMachine`: the first machine with the id, or nothing. */
    function GetMachine(id: string): (r: Option<Machine>)
      reads this
      ensures r.Some? ==> r.value in machines && r.value.id == id
      ensures r.Some? ==> exists i :: (0 <= i < |machines| && machines[i] == r.value
                                       && forall j :: 0 <= j < i ==> machines[j].id != id)
      ensures r.None? <==> forall i :: 0 <= i < |machines| ==> machines[i].id != id
    {
      Seqs.Find(machines, HasId(id))
    }

    /** `getMachinesByStatus`: exactly the machines with the status, in order. */
    function GetMachinesByStatus(status: MachineStatus): (r: seq<Machine>)
      reads this
      ensures forall i :: 0 <= i < |r| ==> r[i] in machines && r[i].status == status
      ensures forall i :: 0 <= i < |machines| && machines[i].status == status ==> machines[i] in r
      ensures forall i :: 0 <= i < |machines| && machines[i].status == status ==>
                multiset(r)[machines[i]] == multiset(machines)[machines[i]]
      ensures Seqs.IsSubsequence(r, machines)
    {
      Seqs.FilterKeepsCopies(machines, HasStatus(status));
      Seqs.Filter(machines, HasStatus(status))
    }
  }

  /** The four status lists split the machines: their lengths add up to the
      number of machines. */
  lemma StatusListsPartition(machines: seq<Machine>)
    ensures |Seqs.Filter(machines, HasStatus(Running))| + |Seqs.Filter(machines, HasStatus(Idle))|
          + |Seqs.Filter(machines, HasStatus(Maintenance))| + |Seqs.Filter(machines, HasStatus(Error))| == |machines|
  {
    Seqs.FilterPartition4(machines, HasStatus(Running), HasStatus(Idle), HasStatus(Maintenance), HasStatus(Error));
  }
}
