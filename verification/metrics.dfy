/** The machine figures the dashboard (src/components/Dashboard/Dashboard.tsx)
    and the analytics page (src/components/Analytics/Analytics.tsx) both
    compute the same way, the OEE product, and the three-colour threshold
    rule of their cards. Ratios are exact reals. */
module Metrics {

  import Seqs
  import JsNumber
  import opened Domain

  /** `total > 0 ? (part / total) * 100 : fallback`: the share of a
      non-empty whole that a part makes up, in percent, so between 0 and
      100 for a part of it, 100 for all of it and 0 for none of it. */
  function Percentage(part: nat, total: nat, fallback: real): (r: real)
    ensures total == 0 ==> r == fallback
    ensures total > 0 ==> r * total as real == part as real * 100.0
    ensures total > 0 && part <= total ==> 0.0 <= r <= 100.0
    ensures total > 0 && part == total ==> r == 100.0
    ensures total > 0 && part == 0 ==> r == 0.0
  {
    if total > 0 then
      var ratio := part as real / total as real;
      assert ratio * total as real == part as real;
      ratio * 100.0
    else fallback
  }

  /** A figure that, times a positive whole, is 100 times a part of it lies
      in [0, 100], and is 100 for all of it. */
  lemma ShareBounds(part: int, whole: int, r: real)
    requires whole > 0 && r * whole as real == part as real * 100.0
    ensures 0 <= part <= whole ==> 0.0 <= r <= 100.0
    ensures part == whole ==> r == 100.0
  {
    var w := whole as real;
    if r < 0.0 {
      assert r * w < 0.0;
    }
    if r < 100.0 {
      assert r * w < 100.0 * w;
    }
    if r > 100.0 {
      assert r * w > 100.0 * w;
    }
  }

  /** Machine counts by status partition the machines. */
  lemma MachineStatusPartition(machines: seq<Machine>)
    ensures Seqs.Count(machines, IsRunning) + Seqs.Count(machines, IsIdle)
          + Seqs.Count(machines, InMaintenance) + Seqs.Count(machines, InError) == |machines|
  {
    Seqs.FilterPartition4(machines, IsRunning, IsIdle, InMaintenance, InError);
  }

  /** Running machines over all machines, in percent; 0 without machines. */
  function Availability(machines: seq<Machine>): (r: real)
    ensures 0.0 <= r <= 100.0
    ensures |machines| == 0 ==> r == 0.0
    ensures |machines| > 0 ==> r == Seqs.Count(machines, IsRunning) as real / |machines| as real * 100.0
  {
    if |machines| > 0 then
      assert 0.0 <= Percentage(Seqs.Count(machines, IsRunning), |machines|, 0.0) <= 100.0;
      Percentage(Seqs.Count(machines, IsRunning), |machines|, 0.0)
    else 0.0
  }

  /** The mean efficiency of all machines; 0 without machines. */
  function AverageEfficiency(machines: seq<Machine>): (r: real)
    ensures |machines| == 0 ==> r == 0.0
    ensures |machines| > 0 ==> r * |machines| as real == Seqs.Sum(machines, Efficiency)
  {
    if |machines| > 0 then Seqs.Sum(machines, Efficiency) / |machines| as real else 0.0
  }

  /** The mean lies between the smallest and largest possible efficiency. */
  lemma AverageEfficiencyBounds(machines: seq<Machine>, lo: real, hi: real)
    requires lo <= 0.0 <= hi
    requires forall m :: m in machines ==> lo <= m.efficiency <= hi
    ensures lo <= AverageEfficiency(machines) <= hi
  {
    if |machines| > 0 {
      Seqs.SumBounds(machines, Efficiency, lo, hi);
      var n := |machines| as real;
      var avg := AverageEfficiency(machines);
      assert avg * n >= n * lo;
      assert avg * n <= n * hi;
    }
  }

  /** Machines in error plus machines under maintenance, over all machines,
      in percent; 0 without machines. */
  function DowntimePercentage(machines: seq<Machine>): (r: real)
    ensures 0.0 <= r <= 100.0
    ensures |machines| == 0 ==> r == 0.0
    ensures |machines| > 0 ==>
      r == (Seqs.Count(machines, InError) + Seqs.Count(machines, InMaintenance)) as real / |machines| as real * 100.0
  {
    if |machines| > 0 then
      MachineStatusPartition(machines);
      assert 0.0 <= Percentage(Seqs.Count(machines, InError) + Seqs.Count(machines, InMaintenance), |machines|, 0.0) <= 100.0;
      Percentage(Seqs.Count(machines, InError) + Seqs.Count(machines, InMaintenance), |machines|, 0.0)
    else 0.0
  }

  /** Two percentages of the same whole add up to the percentage of the sum. */
  lemma PercentageAdd(a: nat, b: nat, total: nat)
    requires total > 0
    ensures Percentage(a, total, 0.0) + Percentage(b, total, 0.0) == Percentage(a + b, total, 0.0)
  {
    var n := total as real;
    assert a as real / n + b as real / n == (a + b) as real / n;
  }

  /** A machine is never both running and down, so availability and downtime
      add up to at most 100; what they leave out are the idle machines. */
  lemma AvailabilityPlusDowntime(machines: seq<Machine>)
    ensures Availability(machines) + DowntimePercentage(machines) <= 100.0
    ensures |machines| > 0 ==>
      (Availability(machines) + DowntimePercentage(machines)
       == Percentage(|machines| - Seqs.Count(machines, IsIdle), |machines|, 0.0))
  {
    MachineStatusPartition(machines);
    if |machines| > 0 {
      SharesAdd(Seqs.Count(machines, IsRunning), Seqs.Count(machines, InError) + Seqs.Count(machines, InMaintenance),
                Seqs.Count(machines, IsIdle), |machines|, Availability(machines), DowntimePercentage(machines));
    }
  }

  /** The shares of two disjoint parts of a whole add up to the share of
      what the rest leaves. */
  lemma SharesAdd(a: nat, b: nat, rest: nat, total: nat, shareA: real, shareB: real)
    requires total > 0 && a + b + rest == total
    requires shareA == a as real / total as real * 100.0 && shareB == b as real / total as real * 100.0
    ensures shareA + shareB <= 100.0
    ensures shareA + shareB == Percentage(total - rest, total, 0.0)
  {
    PercentageAdd(a, b, total);
    assert 0.0 <= Percentage(a + b, total, 0.0) <= 100.0;
  }

  /** A product of three fractions of one is a fraction of one. */
  lemma UnitProduct(x: real, y: real, z: real)
    ensures 0.0 <= x <= 1.0 && 0.0 <= y <= 1.0 && 0.0 <= z <= 1.0 ==> 0.0 <= x * y * z <= 1.0
  {
    if 0.0 <= x <= 1.0 && 0.0 <= y <= 1.0 && 0.0 <= z <= 1.0 {
      assert 0.0 <= x * y <= 1.0 by {
        assert x * y <= 1.0 * y;
      }
      var xy := x * y;
      assert 0.0 <= xy * z <= 1.0 by {
        assert xy * z <= 1.0 * z;
      }
    }
  }

  /** `(availability / 100) * (performance / 100) * (quality / 100) * 100`:
      the product of the three percentages, scaled back to a percentage, so
      within [0, 100] when all three are. */
  function Oee(availability: real, performance: real, quality: real): (r: real)
    ensures r * 10000.0 == availability * performance * quality
    ensures 0.0 <= availability <= 100.0 && 0.0 <= performance <= 100.0 && 0.0 <= quality <= 100.0 ==>
      0.0 <= r <= 100.0
  {
    var x, y, z := availability / 100.0, performance / 100.0, quality / 100.0;
    UnitProduct(x, y, z);
    x * y * z * 100.0
  }

  /** When one of its factors is 0, OEE and its one-decimal rounding are 0. */
  lemma OeeOfZeroFactor(availability: real, performance: real, quality: real)
    ensures (availability == 0.0 || performance == 0.0 || quality == 0.0) ==>
      Oee(availability, performance, quality) == 0.0 && JsNumber.Round1(Oee(availability, performance, quality)) == 0.0
  {
    if availability == 0.0 || performance == 0.0 || quality == 0.0 {
      assert Oee(availability, performance, quality) * 10000.0 == 0.0;
      JsNumber.Round1OfInt(0);
    }
  }

  /** Availability 50, performance 45 and quality 90 (one of two machines
      running, at 90 and 0 efficiency, and 9 of 10 checks passed) give an OEE
      of 20.25, shown as 20.3: halves round up. */
  lemma OeeOfExample()
    ensures Oee(50.0, 45.0, 90.0) == 20.25
    ensures JsNumber.Round1(Oee(50.0, 45.0, 90.0)) == 20.3
  {
    assert Oee(50.0, 45.0, 90.0) * 10000.0 == 202500.0;
    assert JsNumber.Round(202.5) == 203;
  }

  /** `Math.round((part / total) * 100)`: a part of a non-empty whole as a
      whole percentage. */
  function RoundedPercent(part: nat, total: nat): (r: int)
    requires part <= total && total > 0
    ensures 0 <= r <= 100
    ensures r as real - 0.5 <= part as real / total as real * 100.0 < r as real + 0.5
    ensures part == total ==> r == 100
    ensures part == 0 ==> r == 0
  {
    var ratio := part as real / total as real;
    assert 0.0 <= Percentage(part, total, 0.0) <= 100.0;
    assert 0.0 <= ratio * 100.0 <= 100.0;
    assert ratio * total as real == part as real;
    assert part == total ==> ratio == 1.0;
    JsNumber.RoundMonotone(0.0, ratio * 100.0);
    JsNumber.RoundMonotone(ratio * 100.0, 100.0);
    JsNumber.RoundOfInt(0);
    JsNumber.RoundOfInt(100);
    JsNumber.Round(ratio * 100.0)
  }

  /** Rounding to one decimal keeps a percentage within [0, 100]. */
  lemma Round1Percent(x: real)
    requires 0.0 <= x <= 100.0
    ensures 0.0 <= JsNumber.Round1(x) <= 100.0
  {
    JsNumber.RoundMonotone(0.0, x * 10.0);
    JsNumber.RoundMonotone(x * 10.0, 1000.0);
    JsNumber.RoundOfInt(0);
    JsNumber.RoundOfInt(1000);
  }

  datatype Color = Green | Yellow | Red

  /** Green is the best colour a card can take, red the worst. */
  function Rank(c: Color): nat {
    match c
    case Green => 2
    case Yellow => 1
    case Red => 0
  }

  /** A card where more is better: green from `green` up, yellow from
      `yellow` up, red below. */
  function HigherIsBetter(value: real, green: real, yellow: real): (c: Color)
    requires yellow <= green
    ensures c == Green <==> value >= green
    ensures c == Yellow <==> yellow <= value < green
    ensures c == Red <==> value < yellow
  {
    if value >= green then Green else if value >= yellow then Yellow else Red
  }

  /** A card where less is better: green up to `green`, yellow up to
      `yellow`, red above. */
  function LowerIsBetter(value: real, green: real, yellow: real): (c: Color)
    requires green <= yellow
    ensures c == Green <==> value <= green
    ensures c == Yellow <==> green < value <= yellow
    ensures c == Red <==> value > yellow
  {
    if value <= green then Green else if value <= yellow then Yellow else Red
  }

  /** A larger value never gets a worse colour on a higher-is-better card. */
  lemma HigherIsBetterMonotone(v: real, w: real, green: real, yellow: real)
    requires yellow <= green && v <= w
    ensures Rank(HigherIsBetter(v, green, yellow)) <= Rank(HigherIsBetter(w, green, yellow))
  {
  }

  /** A larger value never gets a better colour on a lower-is-better card. */
  lemma LowerIsBetterAntitone(v: real, w: real, green: real, yellow: real)
    requires green <= yellow && v <= w
    ensures Rank(LowerIsBetter(w, green, yellow)) <= Rank(LowerIsBetter(v, green, yellow))
  {
  }
}
