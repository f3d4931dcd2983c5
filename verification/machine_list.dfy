/** The machine list (src/components/Machines/MachineList.tsx): the search
    and the status filter, and the counts and mean efficiency at the top of
    the page. */
module MachineList {

  import Text
  import Seqs
  import JsNumber
  import Metrics
  import opened Domain

  /** The search term matches the name, the type or the location, ignoring case. */
  predicate MatchesSearch(m: Machine, term: string) {
    Text.Matches(m.name, term) || Text.Matches(m.machineType, term) || Text.Matches(m.location, term)
  }

  /** A machine row is shown when it matches the search and the status filter. */
  predicate Passes(m: Machine, term: string, statusFilter: Choice<MachineStatus>) {
    MatchesSearch(m, term) && (statusFilter.All? || m.status == statusFilter.value)
  }

  function Shown(term: string, statusFilter: Choice<MachineStatus>): Machine -> bool {
    (m: Machine) => Passes(m, term, statusFilter)
  }

  /** `filteredMachines`: the machines passing both tests, in order. */
  function FilteredMachines(machines: seq<Machine>, term: string, statusFilter: Choice<MachineStatus>): (r: seq<Machine>)
    ensures Seqs.IsSubsequence(r, machines)
    ensures forall i :: 0 <= i < |r| ==> r[i] in machines && Passes(r[i], term, statusFilter)
    ensures forall i :: 0 <= i < |machines| && Passes(machines[i], term, statusFilter) ==> machines[i] in r
    ensures forall i :: 0 <= i < |machines| && Passes(machines[i], term, statusFilter) ==>
      multiset(r)[machines[i]] == multiset(machines)[machines[i]]
  {
    Seqs.FilterKeepsCopies(machines, Shown(term, statusFilter));
    Seqs.Filter(machines, Shown(term, statusFilter))
  }

  /** An empty search with the status filter on "all" shows every machine. */
  lemma NoFilterShowsAll(machines: seq<Machine>)
    ensures FilteredMachines(machines, "", All) == machines
  {
    forall m | m in machines
      ensures Shown("", All)(m)
    {
      Text.MatchesEmpty(m.name);
    }
    Seqs.FilterKeepsAll(machines, Shown("", All));
  }

  datatype MachineStats = MachineStats(
    total: nat, running: nat, idle: nat, maintenance: nat, error: nat, avgEfficiency: int)

  /** `getMachineStats()`: the status counts split the total, and the mean
      efficiency is the true mean rounded to a whole percent (0 without
      machines). */
  function GetMachineStats(machines: seq<Machine>): (st: MachineStats)
    ensures st.total == |machines|
    ensures st.running + st.idle + st.maintenance + st.error == st.total
    ensures st.running == Seqs.Count(machines, IsRunning) && st.idle == Seqs.Count(machines, IsIdle)
    ensures st.maintenance == Seqs.Count(machines, InMaintenance) && st.error == Seqs.Count(machines, InError)
    ensures |machines| == 0 ==> st.avgEfficiency == 0
    ensures |machines| > 0 ==>
      Metrics.AverageEfficiency(machines) - 0.5 < st.avgEfficiency as real <= Metrics.AverageEfficiency(machines) + 0.5
  {
    Metrics.MachineStatusPartition(machines);
    MachineStats(
      |machines|,
      Seqs.Count(machines, IsRunning),
      Seqs.Count(machines, IsIdle),
      Seqs.Count(machines, InMaintenance),
      Seqs.Count(machines, InError),
      if |machines| > 0 then JsNumber.Round(Seqs.Sum(machines, Efficiency) / |machines| as real) else 0)
  }

  /** With every efficiency a percentage, the rounded mean is one too. */
  lemma AverageEfficiencyIsPercent(machines: seq<Machine>)
    requires forall m :: m in machines ==> 0.0 <= m.efficiency <= 100.0
    ensures 0 <= GetMachineStats(machines).avgEfficiency <= 100
  {
    if |machines| > 0 {
      Metrics.AverageEfficiencyBounds(machines, 0.0, 100.0);
      var avg := Metrics.AverageEfficiency(machines);
      JsNumber.RoundMonotone(0.0, avg);
      JsNumber.RoundMonotone(avg, 100.0);
      JsNumber.RoundOfInt(0);
      JsNumber.RoundOfInt(100);
    }
  }

  /** Choosing one status with an empty search lists exactly as many
      machines as that status's counter shows. */
  lemma StatusFilterMatchesCounter(machines: seq<Machine>)
    ensures |FilteredMachines(machines, "", Only(Running))| == GetMachineStats(machines).running
    ensures |FilteredMachines(machines, "", Only(Idle))| == GetMachineStats(machines).idle
    ensures |FilteredMachines(machines, "", Only(Maintenance))| == GetMachineStats(machines).maintenance
    ensures |FilteredMachines(machines, "", Only(Error))| == GetMachineStats(machines).error
  {
    forall m | m in machines
      ensures MatchesSearch(m, "")
    {
      Text.MatchesEmpty(m.name);
    }
    Seqs.FilterEquivalent(machines, Shown("", Only(Running)), IsRunning);
    Seqs.FilterEquivalent(machines, Shown("", Only(Idle)), IsIdle);
    Seqs.FilterEquivalent(machines, Shown("", Only(Maintenance)), InMaintenance);
    Seqs.FilterEquivalent(machines, Shown("", Only(Error)), InError);
  }
}
