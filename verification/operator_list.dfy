/** The operator list (src/components/Operators/OperatorList.tsx): the search
    and the shift and assignment filters, the counts at the top of the page,
    and the skill chips of each row. */
module OperatorList {

  import opened Wrappers
  import Text
  import Seqs
  import opened Domain

  /** The assignment drop-down: all operators, assigned ones, available ones. */
  datatype AssignmentFilter = AnyAssignment | OnlyAssigned | OnlyAvailable

  /** The search term matches the name, the employee id or one of the skills,
      ignoring case. */
  predicate MatchesSearch(op: Operator, term: string) {
    || Text.Matches(op.name, term)
    || Text.Matches(op.employeeId, term)
    || exists k :: 0 <= k < |op.skills| && Text.Matches(op.skills[k], term)
  }

  predicate MatchesShift(op: Operator, shiftFilter: Choice<Shift>) {
    shiftFilter.All? || op.shift == shiftFilter.value
  }

  predicate MatchesAssignment(op: Operator, assignmentFilter: AssignmentFilter) {
    match assignmentFilter
    case AnyAssignment => true
    case OnlyAssigned => IsAssigned(op)
    case OnlyAvailable => IsAvailable(op)
  }

  /** An operator row is shown when it passes the search and both filters. */
  predicate Passes(op: Operator, term: string, shiftFilter: Choice<Shift>, assignmentFilter: AssignmentFilter) {
    MatchesSearch(op, term) && MatchesShift(op, shiftFilter) && MatchesAssignment(op, assignmentFilter)
  }

  function Shown(term: string, shiftFilter: Choice<Shift>, assignmentFilter: AssignmentFilter): Operator -> bool {
    (op: Operator) => Passes(op, term, shiftFilter, assignmentFilter)
  }

  /** `filteredOperators`: the operators passing all three tests, in order. */
  function FilteredOperators(operators: seq<Operator>, term: string, shiftFilter: Choice<Shift>,
                             assignmentFilter: AssignmentFilter): (r: seq<Operator>)
    ensures Seqs.IsSubsequence(r, operators)
    ensures forall i :: 0 <= i < |r| ==> r[i] in operators && Passes(r[i], term, shiftFilter, assignmentFilter)
    ensures forall i :: 0 <= i < |operators| && Passes(operators[i], term, shiftFilter, assignmentFilter) ==> operators[i] in r
    ensures forall i :: 0 <= i < |operators| && Passes(operators[i], term, shiftFilter, assignmentFilter) ==>
      multiset(r)[operators[i]] == multiset(operators)[operators[i]]
  {
    Seqs.FilterKeepsCopies(operators, Shown(term, shiftFilter, assignmentFilter));
    Seqs.Filter(operators, Shown(term, shiftFilter, assignmentFilter))
  }

  /** An empty search with both filters on "all" shows every operator. */
  lemma NoFilterShowsAll(operators: seq<Operator>)
    ensures FilteredOperators(operators, "", All, AnyAssignment) == operators
  {
    forall op | op in operators
      ensures Shown("", All, AnyAssignment)(op)
    {
      Text.MatchesEmpty(op.name);
    }
    Seqs.FilterKeepsAll(operators, Shown("", All, AnyAssignment));
  }

  /** The "assigned" and "available" filters split what "all" shows: no
      operator is in both, and their counts add up. */
  lemma AssignmentFiltersSplit(operators: seq<Operator>, term: string, shiftFilter: Choice<Shift>)
    ensures forall op :: op in FilteredOperators(operators, term, shiftFilter, OnlyAssigned) ==>
      op !in FilteredOperators(operators, term, shiftFilter, OnlyAvailable)
    ensures |FilteredOperators(operators, term, shiftFilter, OnlyAssigned)|
          + |FilteredOperators(operators, term, shiftFilter, OnlyAvailable)|
         == |FilteredOperators(operators, term, shiftFilter, AnyAssignment)|
  {
    Seqs.FilterSplit(operators, Shown(term, shiftFilter, AnyAssignment), IsAssigned,
                     Shown(term, shiftFilter, OnlyAssigned), Shown(term, shiftFilter, OnlyAvailable));
  }

  /** With an empty search and every shift, the "assigned" and "available"
      filters list exactly as many operators as the two counters show. */
  lemma AssignmentFilterMatchesCounters(operators: seq<Operator>)
    ensures |FilteredOperators(operators, "", All, OnlyAssigned)| == GetOperatorStats(operators).assignedCount
    ensures |FilteredOperators(operators, "", All, OnlyAvailable)| == GetOperatorStats(operators).availableCount
  {
    forall op | op in operators
      ensures MatchesSearch(op, "")
    {
      Text.MatchesEmpty(op.name);
    }
    Seqs.FilterEquivalent(operators, Shown("", All, OnlyAssigned), IsAssigned);
    Seqs.FilterEquivalent(operators, Shown("", All, OnlyAvailable), IsAvailable);
  }

  datatype OperatorStats = OperatorStats(
    total: nat, dayShift: nat, nightShift: nat, swingShift: nat, assignedCount: nat, availableCount: int)

  /** `getOperatorStats()`: the shift counts split the total, and
      `available`, computed as total minus assigned, is exactly the number of
      operators without an assignment. */
  function GetOperatorStats(operators: seq<Operator>): (st: OperatorStats)
    ensures st.total == |operators|
    ensures st.dayShift == Seqs.Count(operators, OnDayShift)
    ensures st.nightShift == Seqs.Count(operators, OnNightShift)
    ensures st.swingShift == Seqs.Count(operators, OnSwingShift)
    ensures st.dayShift + st.nightShift + st.swingShift == st.total
    ensures st.assignedCount == Seqs.Count(operators, IsAssigned)
    ensures st.availableCount == Seqs.Count(operators, IsAvailable)
    ensures st.assignedCount + st.availableCount == st.total && st.availableCount >= 0
  {
    Seqs.FilterPartition3(operators, OnDayShift, OnNightShift, OnSwingShift);
    Seqs.FilterComplementCount(operators, IsAvailable, IsAssigned);
    var total := |operators|;
    var assignedCount := Seqs.Count(operators, IsAssigned);
    OperatorStats(total, Seqs.Count(operators, OnDayShift), Seqs.Count(operators, OnNightShift),
                  Seqs.Count(operators, OnSwingShift), assignedCount, total - assignedCount)
  }

  /** A row's skill chips: the first three skills, and the number of the
      others for a "+n more" chip when there are more than three. */
  function SkillChips(skills: seq<string>): (chips: (seq<string>, Option<nat>))
    ensures |chips.0| <= 3 && |chips.0| <= |skills| && Seqs.IsSubsequence(chips.0, skills)
    ensures chips.0 == skills[..|chips.0|]
    ensures chips.1.Some? <==> |skills| > 3
    ensures chips.1.Some? ==> |chips.0| == 3 && |chips.0| + chips.1.value == |skills|
    ensures chips.1.None? ==> chips.0 == skills
  {
    if |skills| > 3 then
      PrefixIsSubsequence(skills, 3);
      (skills[..3], Some(|skills| - 3))
    else
      PrefixIsSubsequence(skills, |skills|);
      assert skills[..|skills|] == skills;
      (skills, None)
  }

  lemma {:induction false} PrefixIsSubsequence(s: seq<string>, n: nat)
    requires n <= |s|
    ensures Seqs.IsSubsequence(s[..n], s)
  {
    if n > 0 {
      PrefixIsSubsequence(s[1..], n - 1);
      assert s[..n][1..] == s[1..][..n - 1];
    }
  }
}
