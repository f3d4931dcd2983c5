/** The machine-status panel of the dashboard
    (src/components/Dashboard/MachineStatus.tsx): the counts by status, and a
    row for each of the first six machines. */
module MachineStatusPanel {

  import opened Wrappers
  import Text
  import Seqs
  import Metrics
  import MachineList
  import opened Domain

  datatype StatusCounts = StatusCounts(total: nat, running: nat, idle: nat, maintenance: nat, error: nat)

  /** `getMachineStats()`: the four status counts split the total. */
  function GetMachineStats(machines: seq<Machine>): (st: StatusCounts)
    ensures st.total == |machines|
    ensures st.running + st.idle + st.maintenance + st.error == st.total
    ensures st.running == Seqs.Count(machines, IsRunning) && st.idle == Seqs.Count(machines, IsIdle)
    ensures st.maintenance == Seqs.Count(machines, InMaintenance) && st.error == Seqs.Count(machines, InError)
  {
    Metrics.MachineStatusPartition(machines);
    StatusCounts(|machines|, Seqs.Count(machines, IsRunning), Seqs.Count(machines, IsIdle),
                 Seqs.Count(machines, InMaintenance), Seqs.Count(machines, InError))
  }

  /** The dashboard panel and the machine list show the same counts. */
  lemma SameCountsAsMachineList(machines: seq<Machine>)
    ensures var st := GetMachineStats(machines);
      var listed := MachineList.GetMachineStats(machines);
      st.total == listed.total && st.running == listed.running && st.idle == listed.idle
      && st.maintenance == listed.maintenance && st.error == listed.error
  {
  }

  /** `machines.slice(0, 6)`: the first six machines, in order, or all of
      them when there are fewer. */
  function ListedMachines(machines: seq<Machine>): (r: seq<Machine>)
    ensures |r| == if |machines| < 6 then |machines| else 6
    ensures forall i :: 0 <= i < |r| ==> r[i] == machines[i]
    ensures |machines| <= 6 ==> r == machines
  {
    if |machines| <= 6 then machines else machines[..6]
  }

  function StatusLabel(s: MachineStatus): string {
    match s
    case Running => "Running"
    case Idle => "Idle"
    case Maintenance => "Maintenance"
    case Error => "Error"
  }

  /** What a row shows: the name, the line under it, the status badge, and
      the efficiency when it is shown. */
  datatype Row = Row(name: string, subtitle: string, badge: string, efficiency: Option<real>)

  /** A machine's row: the line under the name is "Job: " and the current
      work order when one is set, and the status otherwise; the efficiency
      appears for running machines only. */
  function RowOf(m: Machine): (row: Row)
    ensures row.name == m.name && row.badge == StatusLabel(m.status)
    ensures Text.Truthy(m.currentWorkOrder) ==> row.subtitle == "Job: " + m.currentWorkOrder.value
    ensures !Text.Truthy(m.currentWorkOrder) ==> row.subtitle == StatusLabel(m.status)
    ensures row.efficiency.Some? <==> m.status == Running
    ensures row.efficiency.Some? ==> row.efficiency.value == m.efficiency
  {
    Row(m.name,
        if Text.Truthy(m.currentWorkOrder) then "Job: " + m.currentWorkOrder.value else StatusLabel(m.status),
        StatusLabel(m.status),
        if m.status == Running then Some(m.efficiency) else None)
  }

  /** The panel's rows: at most six, for the first machines in order. */
  function Rows(machines: seq<Machine>): (rows: seq<Row>)
    ensures |rows| == if |machines| < 6 then |machines| else 6
    ensures forall i :: 0 <= i < |rows| ==> rows[i] == RowOf(machines[i])
  {
    Seqs.Map(ListedMachines(machines), RowOf)
  }

  predicate ShowsEfficiency(row: Row) { row.efficiency.Some? }

  /** Rows show as many efficiency lines as there are running machines
      among the machines they stand for. */
  lemma {:induction false} EfficiencyLinesCountRunning(machines: seq<Machine>)
    ensures Seqs.Count(Seqs.Map(machines, RowOf), ShowsEfficiency) == Seqs.Count(machines, IsRunning)
  {
    if machines != [] {
      EfficiencyLinesCountRunning(machines[1..]);
      assert Seqs.Map(machines, RowOf)[1..] == Seqs.Map(machines[1..], RowOf);
    }
  }
}
