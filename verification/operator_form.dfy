/** The operator edit form (src/components/Operators/OperatorForm.tsx): the
    form's fields, the skill being typed, the skill list's editing, and the
    data the form submits. */
module OperatorForm {

  import opened Wrappers
  import Text
  import Seqs
  import opened Domain
  import UseOperators

  /** The form's fields; an empty assignment is the "No assignment" choice. */
  datatype FormData = FormData(
    name: string,
    employeeId: string,
    shift: Shift,
    skills: seq<string>,
    currentAssignment: string)

  /** The skills offered as one-click buttons. */
  const CommonSkills: seq<string> := [
    "CNC Operation", "Welding", "Assembly", "Quality Control", "Machine Setup", "Hydraulic Press",
    "Material Handling", "Maintenance", "Programming", "Tool Setup", "Surface Grinding",
    "Precision Measurement", "Blueprint Reading", "Fabrication", "Troubleshooting",
    "Statistical Analysis", "Process Improvement", "CAD/CAM", "Testing", "Documentation",
    "Safety Inspection", "Inventory Management", "Packaging", "Preventive Maintenance"]

  /** The form's fields for an operator being edited, or blank ones for a
      new operator: the assignment shows as empty when there is none. */
  function InitialData(operator: Option<Operator>): (f: FormData)
    ensures operator.None? ==> f == FormData("", "", Day, [], "")
    ensures operator.Some? ==> f.skills == operator.value.skills && f.name == operator.value.name
    ensures operator.Some? ==> f.employeeId == operator.value.employeeId && f.shift == operator.value.shift
    ensures operator.Some? ==> (f.currentAssignment == "" <==> !Text.Truthy(operator.value.currentAssignment))
    ensures operator.Some? && Text.Truthy(operator.value.currentAssignment) ==>
      f.currentAssignment == operator.value.currentAssignment.value
  {
    match operator
    case None => FormData("", "", Day, [], "")
    case Some(op) =>
      FormData(op.name, op.employeeId, op.shift, op.skills,
               if Text.Truthy(op.currentAssignment) then op.currentAssignment.value else "")
  }

  /** The skill list after offering `skill`: appended unless already there. */
  function WithSkill(skills: seq<string>, skill: string): (r: seq<string>)
    ensures skill in r
    ensures skill in skills ==> r == skills
    ensures skill !in skills ==> r == skills + [skill]
  {
    if skill in skills then skills else skills + [skill]
  }

  /** Offering a skill keeps a duplicate-free list duplicate-free. */
  lemma WithSkillNoDuplicates(skills: seq<string>, skill: string)
    requires Seqs.NoDuplicates(skills)
    ensures Seqs.NoDuplicates(WithSkill(skills, skill))
  {
  }

  function IsNot(skill: string): string -> bool {
    (s: string) => s != skill
  }

  /** The skill list without `skill`: every copy goes, the rest keep their order. */
  function WithoutSkill(skills: seq<string>, skill: string): (r: seq<string>)
    ensures skill !in r
    ensures forall i :: 0 <= i < |skills| && skills[i] != skill ==> skills[i] in r
    ensures forall i :: 0 <= i < |skills| && skills[i] != skill ==> multiset(r)[skills[i]] == multiset(skills)[skills[i]]
    ensures Seqs.IsSubsequence(r, skills)
    ensures Seqs.NoDuplicates(skills) ==> Seqs.NoDuplicates(r)
  {
    Seqs.FilterKeepsCopies(skills, IsNot(skill));
    if Seqs.NoDuplicates(skills) then
      Seqs.FilterNoDuplicates(skills, IsNot(skill));
      Seqs.Filter(skills, IsNot(skill))
    else
      Seqs.Filter(skills, IsNot(skill))
  }

  /** The data handed to the form's submit callback: the fields as they are,
      except that an empty assignment becomes undefined. */
  function SubmitData(f: FormData): (d: UseOperators.OperatorDraft)
    ensures d.currentAssignment.None? <==> f.currentAssignment == ""
    ensures d.currentAssignment.Some? ==> d.currentAssignment.value == f.currentAssignment
    ensures d.name == f.name && d.employeeId == f.employeeId && d.shift == f.shift && d.skills == f.skills
  {
    UseOperators.OperatorDraft(f.name, f.employeeId, f.shift, f.skills,
                               if f.currentAssignment == "" then None else Some(f.currentAssignment))
  }

  /** The form's state: its fields and the text in the skill box. */
  class OperatorFormState {
    var formData: FormData
    var skillInput: string

    constructor(operator: Option<Operator>)
      ensures formData == InitialData(operator) && skillInput == ""
    {
      formData := InitialData(operator);
      skillInput := "";
    }

    /** `addSkill`: the trimmed input is appended and the box cleared, but
        only when it is not blank and not already in the list; otherwise
        nothing changes. */
    method AddSkill()
      modifies this
      ensures var t := Text.Trim(old(skillInput));
        if t != "" && t !in old(formData.skills) then
          formData == old(formData).(skills := old(formData.skills) + [t]) && skillInput == ""
        else
          formData == old(formData) && skillInput == old(skillInput)
      ensures Seqs.NoDuplicates(old(formData.skills)) ==> Seqs.NoDuplicates(formData.skills)
    {
      var t := Text.Trim(skillInput);
      if t != "" && t !in formData.skills {
        if Seqs.NoDuplicates(formData.skills) {
          WithSkillNoDuplicates(formData.skills, t);
        }
        formData := formData.(skills := WithSkill(formData.skills, t));
        skillInput := "";
      }
    }

    /** A click on a common skill's button: appended unless already chosen. */
    method AddCommonSkill(skill: string)
      requires skill in CommonSkills
      modifies this
      ensures formData == old(formData).(skills := WithSkill(old(formData.skills), skill))
      ensures skillInput == old(skillInput)
      ensures Seqs.NoDuplicates(old(formData.skills)) ==> Seqs.NoDuplicates(formData.skills)
    {
      if skill !in formData.skills {
        formData := formData.(skills := formData.skills + [skill]);
      }
      if Seqs.NoDuplicates(old(formData.skills)) {
        WithSkillNoDuplicates(old(formData.skills), skill);
      }
    }

    /** `removeSkill`. */
    method RemoveSkill(skill: string)
      modifies this
      ensures formData == old(formData).(skills := WithoutSkill(old(formData.skills), skill))
      ensures skillInput == old(skillInput)
    {
      formData := formData.(skills := WithoutSkill(formData.skills, skill));
    }

    /** `handleSubmit`: hands the submitted data over and changes nothing. */
    method Submit() returns (d: UseOperators.OperatorDraft)
      ensures d == SubmitData(formData)
      ensures (d.currentAssignment.None? <==> formData.currentAssignment == "")
    {
      d := SubmitData(formData);
    }
  }

  /** Choosing "No assignment" while editing an assigned operator does not
      unassign them: the form submits the assignment as undefined, the update
      then leaves the column out, and the stored assignment reads back as it
      was. */
  lemma ClearingAssignmentInFormKeepsIt(row: UseOperators.OperatorRow, f: FormData)
    requires f.currentAssignment == ""
    ensures UseOperators.UpdateData(UseOperators.PatchOf(SubmitData(f))).currentAssignment.None?
    ensures UseOperators.ConvertToOperator(
              UseOperators.ApplyUpdate(row, UseOperators.UpdateData(UseOperators.PatchOf(SubmitData(f))))
            ).currentAssignment
         == UseOperators.ConvertToOperator(row).currentAssignment
  {
    UseOperators.UndefinedAssignmentKeepsAssignment(row, SubmitData(f));
  }

  /** So an operator stored with an assignment keeps it after being edited
      with "No assignment" chosen. */
  lemma ClearedOperatorStillAssigned(row: UseOperators.OperatorRow, f: FormData)
    requires f.currentAssignment == "" && Text.Truthy(row.currentAssignment)
    ensures IsAssigned(UseOperators.ConvertToOperator(
              UseOperators.ApplyUpdate(row, UseOperators.UpdateData(UseOperators.PatchOf(SubmitData(f))))))
  {
    ClearingAssignmentInFormKeepsIt(row, f);
  }
}
