/** The machine efficiency bar chart of the analytics page
    (src/components/Analytics/MachineEfficiencyChart.tsx): the machines as
    bars from most to least efficient, the colour of each bar, and the
    high-performer and need-attention counts under the chart. */
module MachineEfficiencyChart {

  import Seqs
  import StableSort
  import opened Domain

  /** One bar: the machine's name, efficiency and status. */
  datatype Bar = Bar(name: string, efficiency: real, status: MachineStatus)

  function ToBar(m: Machine): (b: Bar)
    ensures b.name == m.name && b.efficiency == m.efficiency && b.status == m.status
  {
    Bar(m.name, m.efficiency, m.status)
  }

  /** The comparator `(a, b) => b.efficiency - a.efficiency`, as "a may
      precede b": a is at least as efficient. */
  function MoreEfficient(a: Bar, b: Bar): bool {
    b.efficiency - a.efficiency <= 0.0
  }

  lemma MoreEfficientIsTotalPreorder()
    ensures StableSort.TotalPreorder(MoreEfficient)
  {
  }

  /** `chartData`: the machines' bars sorted by falling efficiency, machines
      of equal efficiency in their input order. Without machines the chart
      shows demonstration bars of random efficiency, here the `mock`
      argument, sorted the same way. */
  function ChartData(machines: seq<Machine>, mock: seq<Bar>): (r: seq<Bar>)
    ensures |machines| > 0 ==> multiset(r) == multiset(Seqs.Map(machines, ToBar))
    ensures |machines| == 0 ==> multiset(r) == multiset(mock)
    ensures forall i, j :: 0 <= i < j < |r| ==> r[i].efficiency >= r[j].efficiency
  {
    MoreEfficientIsTotalPreorder();
    var bars := if |machines| > 0 then Seqs.Map(machines, ToBar) else mock;
    StableSort.SortBySorted(bars, MoreEfficient);
    StableSort.SortBy(bars, MoreEfficient)
  }

  /** Bars of equal efficiency keep their input order: among the ties of any
      bar `x`, the chart lists the machines' bars (or the demonstration bars)
      in the order they came. */
  lemma ChartDataStable(machines: seq<Machine>, mock: seq<Bar>, x: Bar)
    ensures |machines| > 0 ==>
      Seqs.Filter(ChartData(machines, mock), StableSort.Ties(x, MoreEfficient))
      == Seqs.Filter(Seqs.Map(machines, ToBar), StableSort.Ties(x, MoreEfficient))
    ensures |machines| == 0 ==>
      Seqs.Filter(ChartData(machines, mock), StableSort.Ties(x, MoreEfficient))
      == Seqs.Filter(mock, StableSort.Ties(x, MoreEfficient))
  {
    MoreEfficientIsTotalPreorder();
    var bars := if |machines| > 0 then Seqs.Map(machines, ToBar) else mock;
    StableSort.SortByStable(bars, MoreEfficient, x);
  }

  /** Every machine has its bar, and every bar is a machine's. */
  lemma ChartDataIsMachines(machines: seq<Machine>, mock: seq<Bar>)
    requires |machines| > 0
    ensures |ChartData(machines, mock)| == |machines|
    ensures forall i :: 0 <= i < |machines| ==> ToBar(machines[i]) in ChartData(machines, mock)
    ensures forall b :: b in ChartData(machines, mock) ==> exists i :: 0 <= i < |machines| && b == ToBar(machines[i])
  {
    var r := ChartData(machines, mock);
    var bars := Seqs.Map(machines, ToBar);
    assert |r| == |multiset(r)| == |multiset(bars)| == |bars|;
    forall i | 0 <= i < |machines|
      ensures ToBar(machines[i]) in r
    {
      assert bars[i] in multiset(bars);
    }
    forall b | b in r
      ensures exists i :: 0 <= i < |machines| && b == ToBar(machines[i])
    {
      assert b in multiset(bars);
      var i :| 0 <= i < |bars| && bars[i] == b;
    }
  }

  datatype BarColor = Emerald | Amber | Rose

  /** `getBarColor(status, efficiency)`: a machine in error is red and one
      under maintenance amber whatever its efficiency; any other is green
      from 90 up, amber from 75 up, and red below. */
  function GetBarColor(status: MachineStatus, efficiency: real): (c: BarColor)
    ensures c == Emerald <==> status != Error && status != Maintenance && efficiency >= 90.0
    ensures c == Amber <==> status == Maintenance || (status != Error && 75.0 <= efficiency < 90.0)
    ensures c == Rose <==> status == Error || (status != Maintenance && efficiency < 75.0)
  {
    if status == Error then Rose
    else if status == Maintenance then Amber
    else if efficiency >= 90.0 then Emerald
    else if efficiency >= 75.0 then Amber
    else Rose
  }

  /** The hex code each colour is drawn in. */
  function Hex(c: BarColor): string {
    match c
    case Emerald => "#10b981"
    case Amber => "#f59e0b"
    case Rose => "#ef4444"
  }

  /** For a running or idle machine, a higher efficiency never gives a
      worse colour. */
  lemma BarColorMonotone(status: MachineStatus, e1: real, e2: real)
    requires status == Running || status == Idle
    requires e1 <= e2
    ensures GetBarColor(status, e1) == Emerald ==> GetBarColor(status, e2) == Emerald
    ensures GetBarColor(status, e2) == Rose ==> GetBarColor(status, e1) == Rose
  {
  }

  predicate IsHighPerformer(b: Bar) { b.efficiency >= 90.0 }
  predicate NeedsAttention(b: Bar) { b.efficiency < 75.0 }

  /** The "High Performers" and "Need Attention" counts: no bar is in both,
      so together they count at most the bars; and the sort changes neither. */
  lemma PerformanceCounts(machines: seq<Machine>, mock: seq<Bar>)
    ensures var data := ChartData(machines, mock);
      Seqs.Count(data, IsHighPerformer) + Seqs.Count(data, NeedsAttention) <= |data|
    ensures |machines| > 0 ==>
      Seqs.Count(ChartData(machines, mock), IsHighPerformer) == Seqs.Count(Seqs.Map(machines, ToBar), IsHighPerformer)
    ensures |machines| > 0 ==>
      Seqs.Count(ChartData(machines, mock), NeedsAttention) == Seqs.Count(Seqs.Map(machines, ToBar), NeedsAttention)
  {
    var bars := if |machines| > 0 then Seqs.Map(machines, ToBar) else mock;
    Seqs.FilterDisjointCount(ChartData(machines, mock), IsHighPerformer, NeedsAttention);
    StableSort.SortByCount(bars, MoreEfficient, IsHighPerformer);
    StableSort.SortByCount(bars, MoreEfficient, NeedsAttention);
  }
}
