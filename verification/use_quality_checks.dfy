/** The quality-check collection (src/hooks/useQualityChecks.ts): rows of the
    `quality_control` table, each read together with its inspector's
    `operators` row, converted to in-memory checks; and the list, loading
    flag and error text the fetch, create, update and delete operations keep. */
module UseQualityChecks {

  import opened Wrappers
  import Text
  import Seqs
  import opened Domain

  /** A row of the `quality_control` table; `notes == None` is null. */
  datatype QualityCheckRow = QualityCheckRow(
    id: nat,
    createdAt: int,
    workOrderId: string,
    checkType: string,
    result: CheckResult,
    inspectorId: nat,
    notes: Option<string>,
    checkedAt: int)

  /** The joined `operators` columns; `currentAssignment == None` is null. */
  datatype InspectorRow = InspectorRow(
    id: nat,
    name: string,
    employeeId: string,
    shift: Shift,
    skills: seq<string>,
    currentAssignment: Option<string>)

  /** The fields a caller supplies to create a check: a check without its id. */
  datatype QualityCheckDraft = QualityCheckDraft(
    workOrderId: string,
    checkType: string,
    result: CheckResult,
    inspectorId: string,
    inspector: Option<Operator>,
    notes: Option<string>,
    checkedAt: int)

  /** The insert payload. `inspectorId == None` is the NaN that `parseInt`
      gives for a non-numeric id; `notes == None` is an explicit null. */
  datatype QualityCheckInsert = QualityCheckInsert(
    workOrderId: string,
    checkType: string,
    result: CheckResult,
    inspectorId: Option<nat>,
    notes: Option<string>,
    checkedAt: int)

  /** `Partial<QualityCheck>`: `None` is a field left undefined. */
  datatype QualityCheckPatch = QualityCheckPatch(
    id: Option<string>,
    workOrderId: Option<string>,
    checkType: Option<string>,
    result: Option<CheckResult>,
    inspectorId: Option<string>,
    inspector: Option<Operator>,
    notes: Option<string>,
    checkedAt: Option<int>)

  /** The update payload: `None` is a key not sent; `Some(None)` sends NaN
      for the inspector and null for the notes. */
  datatype QualityCheckUpdate = QualityCheckUpdate(
    id: Option<nat>,
    createdAt: Option<int>,
    workOrderId: Option<string>,
    checkType: Option<string>,
    result: Option<CheckResult>,
    inspectorId: Option<Option<nat>>,
    notes: Option<Option<string>>,
    checkedAt: Option<int>)

  const EmptyUpdate := QualityCheckUpdate(None, None, None, None, None, None, None, None)

  /** The inspector as the check shows it: the joined row taken as it is, an
      empty assignment included. */
  function InspectorOf(r: InspectorRow): (op: Operator)
    ensures Text.ParseInt(op.id) == Some(r.id) && op.currentAssignment == r.currentAssignment
  {
    Text.ParseIntOfNatToString(r.id);
    Operator(Text.NatToString(r.id), r.name, r.employeeId, r.shift, r.skills, r.currentAssignment)
  }

  /** `convertToQualityCheck`: the inspector is present exactly when the
      joined row is, and notes are never missing, a null becoming empty. */
  function ConvertToQualityCheck(row: QualityCheckRow, join: Option<InspectorRow>): (qc: QualityCheck)
    ensures Text.ParseInt(qc.id) == Some(row.id) && Text.ParseInt(qc.inspectorId) == Some(row.inspectorId)
    ensures qc.inspector.Some? <==> join.Some?
    ensures join.Some? ==> qc.inspector == Some(InspectorOf(join.value))
    ensures qc.notes.Some?
    ensures Text.Truthy(row.notes) ==> qc.notes == row.notes
    ensures !Text.Truthy(row.notes) ==> qc.notes == Some("")
    ensures qc.workOrderId == row.workOrderId && qc.checkType == row.checkType
    ensures qc.result == row.result && qc.checkedAt == row.checkedAt
  {
    Text.ParseIntOfNatToString(row.id);
    Text.ParseIntOfNatToString(row.inspectorId);
    QualityCheck(
      id := Text.NatToString(row.id),
      workOrderId := row.workOrderId,
      checkType := row.checkType,
      result := row.result,
      inspectorId := Text.NatToString(row.inspectorId),
      inspector := if join.Some? then Some(InspectorOf(join.value)) else None,
      notes := Some(if Text.Truthy(row.notes) then row.notes.value else ""),
      checkedAt := row.checkedAt)
  }

  /** The insert payload: the inspector's id parsed to a number, and missing
      or empty notes sent as null. */
  function InsertData(d: QualityCheckDraft): (ins: QualityCheckInsert)
    ensures ins.inspectorId == Text.ParseInt(d.inspectorId)
    ensures ins.notes.Some? <==> Text.Truthy(d.notes)
    ensures ins.notes.Some? ==> ins.notes == d.notes
    ensures ins.workOrderId == d.workOrderId && ins.checkType == d.checkType
    ensures ins.result == d.result && ins.checkedAt == d.checkedAt
  {
    QualityCheckInsert(d.workOrderId, d.checkType, d.result, Text.ParseInt(d.inspectorId),
                       Text.NonEmpty(d.notes), d.checkedAt)
  }

  /** The update payload: the updatable fields the patch defines, the
      inspector's id parsed to a number and empty notes sent as null. */
  function UpdateData(updates: QualityCheckPatch): (u: QualityCheckUpdate)
    ensures u.id.None? && u.createdAt.None?
    ensures u.workOrderId == updates.workOrderId && u.checkType == updates.checkType
    ensures u.result == updates.result && u.checkedAt == updates.checkedAt
    ensures u.inspectorId.Some? <==> updates.inspectorId.Some?
    ensures u.inspectorId.Some? ==> u.inspectorId.value == Text.ParseInt(updates.inspectorId.value)
    ensures u.notes.Some? <==> updates.notes.Some?
    ensures u.notes.Some? ==> u.notes.value == Text.NonEmpty(updates.notes)
  {
    EmptyUpdate.(workOrderId := updates.workOrderId, checkType := updates.checkType, result := updates.result,
                 inspectorId := match updates.inspectorId
                                case None => None
                                case Some(s) => Some(Text.ParseInt(s)),
                 notes := if updates.notes.Some? then Some(Text.NonEmpty(updates.notes)) else None,
                 checkedAt := updates.checkedAt)
  }

  /** Builds the update payload one field at a time. */
  method BuildUpdateData(updates: QualityCheckPatch) returns (u: QualityCheckUpdate)
    ensures u == UpdateData(updates)
  {
    u := EmptyUpdate;
    if updates.workOrderId.Some? { u := u.(workOrderId := updates.workOrderId); }
    if updates.checkType.Some? { u := u.(checkType := updates.checkType); }
    if updates.result.Some? { u := u.(result := updates.result); }
    if updates.inspectorId.Some? { u := u.(inspectorId := Some(Text.ParseInt(updates.inspectorId.value))); }
    if updates.notes.Some? { u := u.(notes := Some(Text.NonEmpty(updates.notes))); }
    if updates.checkedAt.Some? { u := u.(checkedAt := updates.checkedAt); }
  }

  /** What the table does with an update payload whose inspector id is a
      number. */
  function ApplyUpdate(row: QualityCheckRow, u: QualityCheckUpdate): QualityCheckRow
    requires u.inspectorId != Some(None)
  {
    QualityCheckRow(u.id.GetOr(row.id), u.createdAt.GetOr(row.createdAt), u.workOrderId.GetOr(row.workOrderId),
                    u.checkType.GetOr(row.checkType), u.result.GetOr(row.result),
                    if u.inspectorId.Some? then u.inspectorId.value.value else row.inspectorId,
                    u.notes.GetOr(row.notes), u.checkedAt.GetOr(row.checkedAt))
  }

  /** The in-memory check with the patch's updatable fields applied; the
      inspector's id is read back as the decimal text of its parsed value. */
  function Patched(qc: QualityCheck, p: QualityCheckPatch): QualityCheck
    requires p.inspectorId.Some? ==> Text.ParseInt(p.inspectorId.value).Some?
  {
    qc.(workOrderId := p.workOrderId.GetOr(qc.workOrderId), checkType := p.checkType.GetOr(qc.checkType),
        result := p.result.GetOr(qc.result),
        inspectorId := if p.inspectorId.Some? then Text.NatToString(Text.ParseInt(p.inspectorId.value).value)
                       else qc.inspectorId,
        notes := if p.notes.Some? then Some(p.notes.value) else qc.notes,
        checkedAt := p.checkedAt.GetOr(qc.checkedAt))
  }

  /** Sending a patch with a numeric inspector id and reading the row back
      (with the same joined inspector) gives the patched check; notes sent
      empty read back empty. */
  lemma UpdateRoundTrip(row: QualityCheckRow, join: Option<InspectorRow>, p: QualityCheckPatch)
    requires p.inspectorId.Some? ==> Text.ParseInt(p.inspectorId.value).Some?
    ensures UpdateData(p).inspectorId != Some(None)
    ensures ConvertToQualityCheck(ApplyUpdate(row, UpdateData(p)), join) == Patched(ConvertToQualityCheck(row, join), p)
  {
  }

  /** An inspector id that came from a row reads back unchanged. */
  lemma InspectorIdRoundTrip(n: nat)
    ensures Text.ParseInt(Text.NatToString(n)).Some?
    ensures Text.NatToString(Text.ParseInt(Text.NatToString(n)).value) == Text.NatToString(n)
  {
    Text.ParseIntOfNatToString(n);
  }

  function HasId(id: string): QualityCheck -> bool {
    (qc: QualityCheck) => qc.id == id
  }

  function LacksId(id: string): QualityCheck -> bool {
    (qc: QualityCheck) => qc.id != id
  }

  function ForWorkOrder(workOrderId: string): QualityCheck -> bool {
    (qc: QualityCheck) => qc.workOrderId == workOrderId
  }

  /** `useQualityChecks()`: the checks, a loading flag and the last error text. */
  class QualityCheckStore {
    var qualityChecks: seq<QualityCheck>
    var loading: bool
    var error: Option<string>

    constructor()
      ensures qualityChecks == [] && loading && error == None
    {
      qualityChecks := [];
      loading := true;
      error := None;
    }

    /** `fetchQualityChecks`: each row comes with its joined inspector. */
    method Fetch(response: Remote<Option<seq<(QualityCheckRow, Option<InspectorRow>)>>>)
      modifies this
      ensures !loading
      ensures response.Failure? ==>
        qualityChecks == old(qualityChecks) && error == Some(ErrorText(response.err, "Failed to fetch quality checks"))
      ensures response.Success? && response.value.None? ==> qualityChecks == [] && error == None
      ensures response.Success? && response.value.Some? ==>
        |qualityChecks| == |response.value.value| && error == None
        && forall i :: 0 <= i < |qualityChecks| ==>
             qualityChecks[i] == ConvertToQualityCheck(response.value.value[i].0, response.value.value[i].1)
    {
      loading := true;
      error := None;
      match response {
        case Failure(err) =>
          error := Some(ErrorText(err, "Failed to fetch quality checks"));
        case Success(data) =>
          if data.None? {
            qualityChecks := [];
          } else {
            var rows := data.value;
            qualityChecks := seq(|rows|, i requires 0 <= i < |rows| => ConvertToQualityCheck(rows[i].0, rows[i].1));
          }
      }
      loading := false;
    }

    /** `createQualityCheck`: sends the insert payload; on success the new
        check goes first. */
    method Create(data: QualityCheckDraft, response: Remote<(QualityCheckRow, Option<InspectorRow>)>)
      returns (payload: QualityCheckInsert, result: Result<QualityCheck>)
      modifies this
      ensures payload == InsertData(data)
      ensures loading == old(loading)
      ensures response.Success? ==>
        result == Ok(ConvertToQualityCheck(response.value.0, response.value.1))
        && qualityChecks == [result.value] + old(qualityChecks) && error == None
      ensures response.Failure? ==>
        result == Err(response.err) && qualityChecks == old(qualityChecks)
        && error == Some(ErrorText(response.err, "Failed to create quality check"))
    {
      error := None;
      payload := InsertData(data);
      match response {
        case Failure(err) =>
          error := Some(ErrorText(err, "Failed to create quality check"));
          result := Err(err);
        case Success(answer) =>
          var created := ConvertToQualityCheck(answer.0, answer.1);
          qualityChecks := [created] + qualityChecks;
          result := Ok(created);
      }
    }

    /** `updateQualityCheck`: on success every check with the id is replaced
        by the returned row, the others stay as and where they were. */
    method Update(id: string, updates: QualityCheckPatch, response: Remote<(QualityCheckRow, Option<InspectorRow>)>)
      returns (key: Option<nat>, payload: QualityCheckUpdate, result: Result<QualityCheck>)
      modifies this
      ensures key == Text.ParseInt(id) && payload == UpdateData(updates)
      ensures loading == old(loading)
      ensures response.Success? ==>
        result == Ok(ConvertToQualityCheck(response.value.0, response.value.1)) && error == None
        && qualityChecks == Seqs.ReplaceWhere(old(qualityChecks), HasId(id), result.value)
      ensures response.Failure? ==>
        result == Err(response.err) && qualityChecks == old(qualityChecks)
        && error == Some(ErrorText(response.err, "Failed to update quality check"))
    {
      error := None;
      payload := BuildUpdateData(updates);
      key := Text.ParseInt(id);
      match response {
        case Failure(err) =>
          error := Some(ErrorText(err, "Failed to update quality check"));
          result := Err(err);
        case Success(answer) =>
          var updated := ConvertToQualityCheck(answer.0, answer.1);
          qualityChecks := Seqs.ReplaceWhere(qualityChecks, HasId(id), updated);
          result := Ok(updated);
      }
    }

    /** `deleteQualityCheck`: on success the checks with the id are gone. */
    method Delete(id: string, response: Remote<()>) returns (key: Option<nat>, result: Result<()>)
      modifies this
      ensures key == Text.ParseInt(id)
      ensures loading == old(loading)
      ensures response.Success? ==>
        result == Ok(()) && error == None && qualityChecks == Seqs.Filter(old(qualityChecks), LacksId(id))
      ensures response.Failure? ==>
        result == Err(response.err) && qualityChecks == old(qualityChecks)
        && error == Some(ErrorText(response.err, "Failed to delete quality check"))
    {
      error := None;
      key := Text.ParseInt(id);
      match response {
        case Failure(err) =>
          error := Some(ErrorText(err, "Failed to delete quality check"));
          result := Err(err);
        case Success(_) =>
          qualityChecks := Seqs.Filter(qualityChecks, LacksId(id));
          result := Ok(());
      }
    }

    /** `getQualityCheck`: the first check with the id, or nothing. */
    function GetQualityCheck(id: string): (r: Option<QualityCheck>)
      reads this
      ensures r.Some? ==> r.value in qualityChecks && r.value.id == id
      ensures r.Some? ==> exists i :: (0 <= i < |qualityChecks| && qualityChecks[i] == r.value
                                       && forall j :: 0 <= j < i ==> qualityChecks[j].id != id)
      ensures r.None? <==> forall i :: 0 <= i < |qualityChecks| ==> qualityChecks[i].id != id
    {
      Seqs.Find(qualityChecks, HasId(id))
    }

    /** `getQualityChecksByWorkOrder`: exactly the checks of the order, in order. */
    function GetQualityChecksByWorkOrder(workOrderId: string): (r: seq<QualityCheck>)
      reads this
      ensures forall i :: 0 <= i < |r| ==> r[i] in qualityChecks && r[i].workOrderId == workOrderId
      ensures forall i :: 0 <= i < |qualityChecks| && qualityChecks[i].workOrderId == workOrderId ==>
                qualityChecks[i] in r
      ensures forall i :: 0 <= i < |qualityChecks| && qualityChecks[i].workOrderId == workOrderId ==>
                multiset(r)[qualityChecks[i]] == multiset(qualityChecks)[qualityChecks[i]]
      ensures Seqs.IsSubsequence(r, qualityChecks)
    {
      Seqs.FilterKeepsCopies(qualityChecks, ForWorkOrder(workOrderId));
      Seqs.Filter(qualityChecks, ForWorkOrder(workOrderId))
    }
  }
}
