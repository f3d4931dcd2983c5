/** The operator collection (src/hooks/useOperators.ts): rows of the
    `operators` table converted to in-memory operators, and the list, loading
    flag and error text the fetch, create, update and delete operations keep. */
module UseOperators {

  import opened Wrappers
  import Text
  import Seqs
  import opened Domain

  /** A row of the `operators` table; `currentAssignment == None` is null. */
  datatype OperatorRow = OperatorRow(
    id: nat,
    name: string,
    employeeId: string,
    shift: Shift,
    skills: seq<string>,
    currentAssignment: Option<string>,
    createdAt: int,
    updatedAt: int)

  /** The fields a caller supplies to create or update an operator:
      an operator without its id. */
  datatype OperatorDraft = OperatorDraft(
    name: string,
    employeeId: string,
    shift: Shift,
    skills: seq<string>,
    currentAssignment: Option<string>)

  /** The insert payload; `currentAssignment == None` is an explicit null. */
  datatype OperatorInsert = OperatorInsert(
    name: string,
    employeeId: string,
    shift: Shift,
    skills: seq<string>,
    currentAssignment: Option<string>)

  /** `Partial<Operator>`: `None` is a field left undefined. */
  datatype OperatorPatch = OperatorPatch(
    id: Option<string>,
    name: Option<string>,
    employeeId: Option<string>,
    shift: Option<Shift>,
    skills: Option<seq<string>>,
    currentAssignment: Option<string>)

  /** The update payload: `None` is a key not sent; for the nullable
      `currentAssignment`, `Some(None)` sends null. */
  datatype OperatorUpdate = OperatorUpdate(
    id: Option<nat>,
    name: Option<string>,
    employeeId: Option<string>,
    shift: Option<Shift>,
    skills: Option<seq<string>>,
    currentAssignment: Option<Option<string>>,
    createdAt: Option<int>,
    updatedAt: Option<int>)

  const EmptyUpdate := OperatorUpdate(None, None, None, None, None, None, None, None)

  /** `convertToOperator`: the id becomes its decimal text and a null or
      empty assignment becomes no assignment. */
  function ConvertToOperator(row: OperatorRow): (op: Operator)
    ensures Text.ParseInt(op.id) == Some(row.id)
    ensures op.currentAssignment.Some? <==> Text.Truthy(row.currentAssignment)
    ensures op.currentAssignment.Some? ==> op.currentAssignment == row.currentAssignment
    ensures op.name == row.name && op.employeeId == row.employeeId && op.shift == row.shift && op.skills == row.skills
  {
    Text.ParseIntOfNatToString(row.id);
    Operator(Text.NatToString(row.id), row.name, row.employeeId, row.shift, row.skills,
             Text.NonEmpty(row.currentAssignment))
  }

  /** The insert payload: a missing or empty assignment is sent as null. */
  function InsertData(d: OperatorDraft): (ins: OperatorInsert)
    ensures ins.currentAssignment.Some? <==> Text.Truthy(d.currentAssignment)
    ensures ins.currentAssignment.Some? ==> ins.currentAssignment == d.currentAssignment
    ensures ins.name == d.name && ins.employeeId == d.employeeId && ins.shift == d.shift && ins.skills == d.skills
  {
    OperatorInsert(d.name, d.employeeId, d.shift, d.skills, Text.NonEmpty(d.currentAssignment))
  }

  /** The update payload: the updatable fields the patch defines. The
      assignment is sent only when the patch defines it, an empty one as
      null; an undefined assignment is not sent at all. */
  function UpdateData(updates: OperatorPatch): (u: OperatorUpdate)
    ensures u.id.None? && u.createdAt.None? && u.updatedAt.None?
    ensures u.name == updates.name && u.employeeId == updates.employeeId
    ensures u.shift == updates.shift && u.skills == updates.skills
    ensures u.currentAssignment.Some? <==> updates.currentAssignment.Some?
    ensures u.currentAssignment.Some? ==> u.currentAssignment.value == Text.NonEmpty(updates.currentAssignment)
  {
    EmptyUpdate.(name := updates.name, employeeId := updates.employeeId, shift := updates.shift,
                 skills := updates.skills,
                 currentAssignment := if updates.currentAssignment.Some?
                                      then Some(Text.NonEmpty(updates.currentAssignment)) else None)
  }

  /** Builds the update payload one field at a time. */
  method BuildUpdateData(updates: OperatorPatch) returns (u: OperatorUpdate)
    ensures u == UpdateData(updates)
  {
    u := EmptyUpdate;
    if updates.name.Some? { u := u.(name := updates.name); }
    if updates.employeeId.Some? { u := u.(employeeId := updates.employeeId); }
    if updates.shift.Some? { u := u.(shift := updates.shift); }
    if updates.skills.Some? { u := u.(skills := updates.skills); }
    if updates.currentAssignment.Some? {
      u := u.(currentAssignment := Some(Text.NonEmpty(updates.currentAssignment)));
    }
  }

  /** What the table does with an update payload. */
  function ApplyUpdate(row: OperatorRow, u: OperatorUpdate): OperatorRow {
    OperatorRow(u.id.GetOr(row.id), u.name.GetOr(row.name), u.employeeId.GetOr(row.employeeId),
                u.shift.GetOr(row.shift), u.skills.GetOr(row.skills),
                u.currentAssignment.GetOr(row.currentAssignment),
                u.createdAt.GetOr(row.createdAt), u.updatedAt.GetOr(row.updatedAt))
  }

  /** The in-memory operator with the patch's updatable fields applied. */
  function Patched(op: Operator, p: OperatorPatch): Operator {
    op.(name := p.name.GetOr(op.name), employeeId := p.employeeId.GetOr(op.employeeId),
        shift := p.shift.GetOr(op.shift), skills := p.skills.GetOr(op.skills),
        currentAssignment := if p.currentAssignment.Some? then Text.NonEmpty(p.currentAssignment)
                             else op.currentAssignment)
  }

  /** Sending a patch and reading the row back gives the patched operator. */
  lemma UpdateRoundTrip(row: OperatorRow, p: OperatorPatch)
    ensures ConvertToOperator(ApplyUpdate(row, UpdateData(p))) == Patched(ConvertToOperator(row), p)
  {
  }

  /** The patch an edit form's draft becomes: every field defined except a
      missing assignment, which stays undefined. */
  function PatchOf(d: OperatorDraft): OperatorPatch {
    OperatorPatch(None, Some(d.name), Some(d.employeeId), Some(d.shift), Some(d.skills), d.currentAssignment)
  }

  /** An update whose draft has no assignment leaves the stored assignment as
      it was: the key is not sent, so nothing clears it. */
  lemma UndefinedAssignmentKeepsAssignment(row: OperatorRow, d: OperatorDraft)
    requires d.currentAssignment.None?
    ensures UpdateData(PatchOf(d)).currentAssignment.None?
    ensures ConvertToOperator(ApplyUpdate(row, UpdateData(PatchOf(d)))).currentAssignment
         == ConvertToOperator(row).currentAssignment
  {
    UpdateRoundTrip(row, PatchOf(d));
  }

  function HasId(id: string): Operator -> bool {
    (op: Operator) => op.id == id
  }

  function LacksId(id: string): Operator -> bool {
    (op: Operator) => op.id != id
  }

  function OnShift(shift: Shift): Operator -> bool {
    (op: Operator) => op.shift == shift
  }

  /** `useOperators()`: the operators, a loading flag and the last error text. */
  class OperatorStore {
    var operators: seq<Operator>
    var loading: bool
    var error: Option<string>

    constructor()
      ensures operators == [] && loading && error == None
    {
      operators := [];
      loading := true;
      error := None;
    }

    /** `fetchOperators`. */
    method Fetch(response: Remote<Option<seq<OperatorRow>>>)
      modifies this
      ensures !loading
      ensures response.Failure? ==>
        operators == old(operators) && error == Some(ErrorText(response.err, "Failed to fetch operators"))
      ensures response.Success? && response.value.None? ==> operators == [] && error == None
      ensures response.Success? && response.value.Some? ==>
        operators == Seqs.Map(response.value.value, ConvertToOperator) && error == None
    {
      loading := true;
      error := None;
      match response {
        case Failure(err) =>
          error := Some(ErrorText(err, "Failed to fetch operators"));
        case Success(data) =>
          if data.None? {
            operators := [];
          } else {
            operators := Seqs.Map(data.value, ConvertToOperator);
          }
      }
      loading := false;
    }

    /** `createOperator`: sends the insert payload; on success the new
        operator goes first. */
    method Create(data: OperatorDraft, response: Remote<OperatorRow>)
      returns (payload: OperatorInsert, result: Result<Operator>)
      modifies this
      ensures payload == InsertData(data)
      ensures loading == old(loading)
      ensures response.Success? ==>
        result == Ok(ConvertToOperator(response.value))
        && operators == [result.value] + old(operators) && error == None
      ensures response.Failure? ==>
        result == Err(response.err) && operators == old(operators)
        && error == Some(ErrorText(response.err, "Failed to create operator"))
    {
      error := None;
      payload := InsertData(data);
      match response {
        case Failure(err) =>
          error := Some(ErrorText(err, "Failed to create operator"));
          result := Err(err);
        case Success(row) =>
          var created := ConvertToOperator(row);
          operators := [created] + operators;
          result := Ok(created);
      }
    }

    /** `updateOperator`: on success every operator with the id is replaced by
        the returned row, the others stay as and where they were. */
    method Update(id: string, updates: OperatorPatch, response: Remote<OperatorRow>)
      returns (key: Option<nat>, payload: OperatorUpdate, result: Result<Operator>)
      modifies this
      ensures key == Text.ParseInt(id) && payload == UpdateData(updates)
      ensures loading == old(loading)
      ensures response.Success? ==>
        result == Ok(ConvertToOperator(response.value)) && error == None
        && operators == Seqs.ReplaceWhere(old(operators), HasId(id), result.value)
      ensures response.Failure? ==>
        result == Err(response.err) && operators == old(operators)
        && error == Some(ErrorText(response.err, "Failed to update operator"))
    {
      error := None;
      payload := BuildUpdateData(updates);
      key := Text.ParseInt(id);
      match response {
        case Failure(err) =>
          error := Some(ErrorText(err, "Failed to update operator"));
          result := Err(err);
        case Success(row) =>
          var updated := ConvertToOperator(row);
          operators := Seqs.ReplaceWhere(operators, HasId(id), updated);
          result := Ok(updated);
      }
    }

    /** `deleteOperator`: on success the operators with the id are gone. */
    method Delete(id: string, response: Remote<()>) returns (key: Option<nat>, result: Result<()>)
      modifies this
      ensures key == Text.ParseInt(id)
      ensures loading == old(loading)
      ensures response.Success? ==>
        result == Ok(()) && error == None && operators == Seqs.Filter(old(operators), LacksId(id))
      ensures response.Failure? ==>
        result == Err(response.err) && operators == old(operators)
        && error == Some(ErrorText(response.err, "Failed to delete operator"))
    {
      error := None;
      key := Text.ParseInt(id);
      match response {
        case Failure(err) =>
          error := Some(ErrorText(err, "Failed to delete operator"));
          result := Err(err);
        case Success(_) =>
          operators := Seqs.Filter(operators, LacksId(id));
          result := Ok(());
      }
    }

    /** `getOperator`: the first operator with the id, or nothing. */
    function GetOperator(id: string): (r: Option<Operator>)
      reads this
      ensures r.Some? ==> r.value in operators && r.value.id == id
      ensures r.Some? ==> exists i :: (0 <= i < |operators| && operators[i] == r.value
                                       && forall j :: 0 <= j < i ==> operators[j].id != id)
      ensures r.None? <==> forall i :: 0 <= i < |operators| ==> operators[i].id != id
    {
      Seqs.Find(operators, HasId(id))
    }

    /** `getOperatorsByShift`: exactly the operators on the shift, in order. */
    function GetOperatorsByShift(shift: Shift): (r: seq<Operator>)
      reads this
      ensures forall i :: 0 <= i < |r| ==> r[i] in operators && r[i].shift == shift
      ensures forall i :: 0 <= i < |operators| && operators[i].shift == shift ==> operators[i] in r
      ensures forall i :: 0 <= i < |operators| && operators[i].shift == shift ==>
                multiset(r)[operators[i]] == multiset(operators)[operators[i]]
      ensures Seqs.IsSubsequence(r, operators)
    {
      Seqs.FilterKeepsCopies(operators, OnShift(shift));
      Seqs.Filter(operators, OnShift(shift))
    }

    /** `getAvailableOperators`: exactly the operators without an
        assignment, in order. */
    function GetAvailableOperators(): (r: seq<Operator>)
      reads this
      ensures forall i :: 0 <= i < |r| ==> r[i] in operators && !Text.Truthy(r[i].currentAssignment)
      ensures forall i :: 0 <= i < |operators| && !Text.Truthy(operators[i].currentAssignment) ==> operators[i] in r
      ensures forall i :: 0 <= i < |operators| && !Text.Truthy(operators[i].currentAssignment) ==>
                multiset(r)[operators[i]] == multiset(operators)[operators[i]]
      ensures Seqs.IsSubsequence(r, operators)
    {
      Seqs.FilterKeepsCopies(operators, IsAvailable);
      Seqs.Filter(operators, IsAvailable)
    }
  }

  /** Available and assigned operators split the list. */
  lemma AvailablePlusAssigned(operators: seq<Operator>)
    ensures |Seqs.Filter(operators, IsAvailable)| + |Seqs.Filter(operators, IsAssigned)| == |operators|
  {
    Seqs.FilterComplementCount(operators, IsAvailable, IsAssigned);
  }
}
