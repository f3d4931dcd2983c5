/** The inspector drop-down of the quality-check form
    (src/components/Quality/QualityCheckForm.tsx): operators with a quality
    skill are offered first, and every operator when there is none. */
module QualityCheckForm {

  import Text
  import Seqs
  import opened Domain
  import OperatorForm

  /** A skill counts for quality work when, lower-cased, it contains
      "quality", "inspection" or "testing". */
  predicate IsQualitySkill(skill: string) {
    var s := Text.ToLower(skill);
    Text.Includes(s, "quality") || Text.Includes(s, "inspection") || Text.Includes(s, "testing")
  }

  predicate HasQualitySkill(op: Operator) {
    exists k :: 0 <= k < |op.skills| && IsQualitySkill(op.skills[k])
  }

  /** `qualityInspectors`: the operators with a quality skill, in order. */
  function QualityInspectors(operators: seq<Operator>): (r: seq<Operator>)
    ensures Seqs.IsSubsequence(r, operators)
    ensures forall i :: 0 <= i < |r| ==> r[i] in operators && HasQualitySkill(r[i])
    ensures forall i :: 0 <= i < |operators| && HasQualitySkill(operators[i]) ==> operators[i] in r
    ensures forall i :: 0 <= i < |operators| && HasQualitySkill(operators[i]) ==>
      multiset(r)[operators[i]] == multiset(operators)[operators[i]]
  {
    Seqs.FilterKeepsCopies(operators, HasQualitySkill);
    Seqs.Filter(operators, HasQualitySkill)
  }

  /** `availableInspectors`: the quality inspectors, or every operator when
      none has a quality skill. */
  function AvailableInspectors(operators: seq<Operator>): (r: seq<Operator>)
    ensures (exists i :: 0 <= i < |operators| && HasQualitySkill(operators[i])) ==> r == QualityInspectors(operators)
    ensures (forall i :: 0 <= i < |operators| ==> !HasQualitySkill(operators[i])) ==> r == operators
    ensures forall i :: 0 <= i < |r| ==> r[i] in operators
    ensures |operators| > 0 ==> |r| > 0
  {
    var inspectors := QualityInspectors(operators);
    if |inspectors| > 0 then inspectors
    else
      assert forall i :: 0 <= i < |operators| ==> !HasQualitySkill(operators[i]);
      operators
  }

  /** The "Showing operators with quality control skills" note appears
      exactly when some operator has a quality skill. */
  predicate ShowsQualityHint(operators: seq<Operator>) {
    |QualityInspectors(operators)| > 0
  }

  lemma QualityHintExactlyWhenFiltered(operators: seq<Operator>)
    ensures ShowsQualityHint(operators) <==> exists i :: 0 <= i < |operators| && HasQualitySkill(operators[i])
    ensures ShowsQualityHint(operators) <==> AvailableInspectors(operators) == QualityInspectors(operators)
                                                && |AvailableInspectors(operators)| > 0
  {
    if ShowsQualityHint(operators) {
      var r := QualityInspectors(operators);
      assert r[0] in operators && HasQualitySkill(r[0]);
    }
  }

  /** Three of the form's one-click skills, "Quality Control", "Testing" and
      "Safety Inspection", make an operator a quality inspector. */
  lemma CommonSkillsThatQualify()
    ensures "Quality Control" in OperatorForm.CommonSkills && IsQualitySkill("Quality Control")
    ensures "Testing" in OperatorForm.CommonSkills && IsQualitySkill("Testing")
    ensures "Safety Inspection" in OperatorForm.CommonSkills && IsQualitySkill("Safety Inspection")
  {
    assert OperatorForm.CommonSkills[3] == "Quality Control";
    assert OperatorForm.CommonSkills[18] == "Testing";
    assert OperatorForm.CommonSkills[20] == "Safety Inspection";
    QualityControlQualifies();
    TestingQualifies();
    SafetyInspectionQualifies();
  }

  lemma QualityControlQualifies()
    ensures IsQualitySkill("Quality Control")
  {
    var q := Text.ToLower("Quality Control");
    assert q[..7] == "quality";
    assert Text.IsPrefix("quality", q);
  }

  lemma TestingQualifies()
    ensures IsQualitySkill("Testing")
  {
    var t := Text.ToLower("Testing");
    assert t[..7] == "testing";
    assert Text.IsPrefix("testing", t);
  }

  lemma SafetyInspectionQualifies()
    ensures IsQualitySkill("Safety Inspection")
  {
    var s := Text.ToLower("Safety Inspection");
    assert s[7..] == "inspection";
    assert Text.OccursAt(s, "inspection", 7);
    Text.IncludesAt(s, "inspection");
  }
}
