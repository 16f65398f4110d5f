/**
 The water-balance projection and supply alert of the Janaúba dashboard.

 Inflow is derived from daily rainfall, the reservoir level series is the
 running net balance on top of a fixed starting volume (clipped below at
 zero), and the days of supply left are extrapolated from the means of the
 last week of inflow and consumption. Quantities are exact reals; the
 simulated rainfall and consumption series are inputs.
 */
module WaterBalance {

  /** Cubic metres of inflow per millimetre of rainfall. */
  const InflowPerMm: real := 80.0

  /** Volume added to the cumulative net balance to give the reservoir level. */
  const InitialVolume: real := 500000.0

  /** Number of trailing days the means are taken over. */
  const WindowDays: nat := 7

  /** Days remaining reported when the daily balance is not negative. */
  const Unlimited: real := 999.0

  /** Fewer days remaining than this raise the supply warning. */
  const ThresholdDays: real := 30.0

  /** The banner shown under "Alerta de Abastecimento". */
  datatype Alert = SupplyWarning | SupplyOk

  /** Everything the dashboard derives from one pair of series. */
  datatype Projection = Projection(
    levels: seq<real>,
    currentLevel: real,
    meanInflow: real,
    meanConsumption: real,
    dailyBalance: real,
    daysRemaining: real,
    alert: Alert)

  // ---------------------------------------------------------------------
  // Series arithmetic

  /** Sum of a series, accumulated from the first element to the last. */
  function Sum(s: seq<real>): (r: real)
    decreases |s|
  {
    if s == [] then 0.0 else Sum(s[..|s| - 1]) + s[|s| - 1]
  }

  /** Arithmetic mean of a non-empty series: the value that, taken once per element, gives the same total. */
  function Mean(s: seq<real>): (r: real)
    requires |s| > 0
    ensures r * (|s| as real) == Sum(s)
  {
    Sum(s) / (|s| as real)
  }

  /** Running totals: each entry is the previous entry plus the next element. */
  function CumSum(s: seq<real>): (r: seq<real>)
    ensures |r| == |s|
    ensures forall i :: 0 <= i < |s| ==> r[i] == Sum(s[..i + 1])
    decreases |s|
  {
    if s == [] then []
    else
      var init := s[..|s| - 1];
      var p := CumSum(init);
      assert forall i :: 0 <= i < |init| ==> p[i] == Sum(s[..i + 1]) by {
        forall i | 0 <= i < |init| ensures p[i] == Sum(s[..i + 1]) {
          assert init[..i + 1] == s[..i + 1];
        }
      }
      assert init[..|init|] == init && s[..|s|] == s;
      p + [(if p == [] then 0.0 else p[|p| - 1]) + s[|s| - 1]]
  }

  /** Clipping from below at zero with no upper bound. */
  function ClipAtZero(x: real): (r: real)
  {
    if x < 0.0 then 0.0 else x
  }

  /** Elementwise inflow minus consumption. */
  function Net(inflow: seq<real>, consumption: seq<real>): (r: seq<real>)
    requires |inflow| == |consumption|
  {
    seq(|inflow|, i requires 0 <= i < |inflow| => inflow[i] - consumption[i])
  }

  /** The last entries of a series, at most a week of them. */
  function Trailing(s: seq<real>): (r: seq<real>)
    ensures |r| == if |s| < WindowDays then |s| else WindowDays
    ensures r == s[|s| - |r|..]
  {
    if |s| <= WindowDays then s else s[|s| - WindowDays..]
  }

  // ---------------------------------------------------------------------
  // The projection: inflow, levels, days remaining and banner

  /** Water entering the reservoir: rainfall scaled elementwise. */
  function Inflow(rainfall: seq<real>): (r: seq<real>)
    ensures |r| == |rainfall|
    ensures forall i :: 0 <= i < |r| ==> r[i] == InflowPerMm * rainfall[i]
  {
    seq(|rainfall|, i requires 0 <= i < |rainfall| => InflowPerMm * rainfall[i])
  }

  /**
   Reservoir level series: the running net balance plus `offset`, each entry
   clipped below at zero. The clip does not feed back into the running total.
   */
  function Levels(inflow: seq<real>, consumption: seq<real>, offset: real): (r: seq<real>)
    requires |inflow| == |consumption|
    ensures |r| == |inflow|
    ensures forall i :: 0 <= i < |r| ==> r[i] >= 0.0
    ensures forall i :: 0 <= i < |r| ==>
      r[i] == (if offset + Sum(Net(inflow, consumption)[..i + 1]) < 0.0 then 0.0
               else offset + Sum(Net(inflow, consumption)[..i + 1]))
  {
    var c := CumSum(Net(inflow, consumption));
    seq(|c|, i requires 0 <= i < |c| => ClipAtZero(c[i] + offset))
  }

  /**
   Days until the reservoir is empty if the daily balance stays as it is, or
   the sentinel when the balance does not go down.
   */
  function DaysRemaining(level: real, balance: real): (d: real)
    ensures balance >= 0.0 ==> d == Unlimited
    ensures balance < 0.0 ==> d * (-balance) == level
    ensures level >= 0.0 ==> d >= 0.0
  {
    if balance < 0.0 then level / (-balance) else Unlimited
  }

  /** The supply banner for a number of days remaining. */
  function ClassifyAlert(days: real): (a: Alert)
    ensures a == SupplyWarning <==> days < ThresholdDays
  {
    if days < ThresholdDays then SupplyWarning else SupplyOk
  }

  /** The daily balance, the days remaining and the banner from a level series and the two means. */
  function Assess(levels: seq<real>, meanInflow: real, meanConsumption: real): (p: Projection)
    requires |levels| > 0 && levels[|levels| - 1] >= 0.0
    ensures p.levels == levels && p.currentLevel == levels[|levels| - 1]
    ensures p.meanInflow == meanInflow && p.meanConsumption == meanConsumption
    ensures p.dailyBalance == meanInflow - meanConsumption
    ensures p.dailyBalance >= 0.0 ==> p.daysRemaining == Unlimited && p.alert == SupplyOk
    ensures p.dailyBalance < 0.0 ==> p.daysRemaining == p.currentLevel / (meanConsumption - meanInflow)
    ensures p.daysRemaining >= 0.0
    ensures p.alert == SupplyWarning <==> p.daysRemaining < ThresholdDays
  {
    var current := levels[|levels| - 1];
    var balance := meanInflow - meanConsumption;
    var days := DaysRemaining(current, balance);
    Projection(levels, current, meanInflow, meanConsumption, balance, days, ClassifyAlert(days))
  }

  /** The whole pipeline from rainfall and consumption to the banner. */
  function Project(rainfall: seq<real>, consumption: seq<real>): (p: Projection)
    requires |rainfall| == |consumption| > 0
    ensures p.levels == Levels(Inflow(rainfall), consumption, InitialVolume)
    ensures |p.levels| == |rainfall|
    ensures forall i :: 0 <= i < |p.levels| ==> p.levels[i] >= 0.0
    ensures p.currentLevel == p.levels[|p.levels| - 1] && p.currentLevel >= 0.0
    ensures p.currentLevel == ClipAtZero(InitialVolume + Sum(Net(Inflow(rainfall), consumption)))
    ensures p.meanInflow == Mean(Trailing(Inflow(rainfall)))
    ensures p.meanConsumption == Mean(Trailing(consumption))
    ensures p.dailyBalance == p.meanInflow - p.meanConsumption
    ensures p.dailyBalance >= 0.0 ==> p.daysRemaining == Unlimited && p.alert == SupplyOk
    ensures p.dailyBalance < 0.0 ==> p.daysRemaining == p.currentLevel / (p.meanConsumption - p.meanInflow)
    ensures p.daysRemaining >= 0.0
    ensures p.alert == SupplyWarning <==> p.daysRemaining < ThresholdDays
  {
    var inflow := Inflow(rainfall);
    var net := Net(inflow, consumption);
    assert net[..|net| - 1 + 1] == net;
    Assess(Levels(inflow, consumption, InitialVolume), Mean(Trailing(inflow)), Mean(Trailing(consumption)))
  }

  // ---------------------------------------------------------------------
  // Properties

  /** Inflow is rainfall times 80 day by day, so dry or wet days never give negative inflow. */
  lemma InflowNonNegative(rainfall: seq<real>)
    ensures |Inflow(rainfall)| == |rainfall|
    ensures forall i :: 0 <= i < |rainfall| ==> Inflow(rainfall)[i] == InflowPerMm * rainfall[i]
    ensures (forall i :: 0 <= i < |rainfall| ==> rainfall[i] >= 0.0) ==>
      forall i :: 0 <= i < |rainfall| ==> Inflow(rainfall)[i] >= 0.0
  {
  }

  /** Adding one element at the end adds it to the sum. */
  lemma {:induction false} SumSnoc(s: seq<real>, x: real)
    ensures Sum(s + [x]) == Sum(s) + x
  {
    assert (s + [x])[..|s + [x]| - 1] == s;
  }

  /** A prefix one longer adds the next element to the sum. */
  lemma SumPrefixStep(s: seq<real>, i: nat)
    requires i < |s|
    ensures Sum(s[..i + 1]) == Sum(s[..i]) + s[i]
  {
    assert s[..i + 1] == s[..i] + [s[i]];
    SumSnoc(s[..i], s[i]);
  }

  /** A sum of a series is bounded by its length times an elementwise bound. */
  lemma {:induction false} SumBounds(s: seq<real>, lo: real, hi: real)
    requires forall i :: 0 <= i < |s| ==> lo <= s[i] <= hi
    ensures (|s| as real) * lo <= Sum(s) <= (|s| as real) * hi
    decreases |s|
  {
    if s != [] {
      SumBounds(s[..|s| - 1], lo, hi);
    }
  }

  /** The mean of a series lies between any lower and upper bound of its elements. */
  lemma MeanWithinBounds(s: seq<real>, lo: real, hi: real)
    requires |s| > 0
    requires forall i :: 0 <= i < |s| ==> lo <= s[i] <= hi
    ensures lo <= Mean(s) <= hi
  {
    SumBounds(s, lo, hi);
    var n := |s| as real;
    assert Mean(s) * n == Sum(s);
  }

  /**
   Day-by-day dominance carries over to the sums, strictly when it is strict
   on every day of a non-empty series.
   */
  lemma {:induction false} SumMonotone(a: seq<real>, b: seq<real>)
    requires |a| == |b|
    requires forall i :: 0 <= i < |a| ==> a[i] >= b[i]
    ensures Sum(a) >= Sum(b)
    ensures |a| > 0 && (forall i :: 0 <= i < |a| ==> a[i] > b[i]) ==> Sum(a) > Sum(b)
    decreases |a|
  {
    if a != [] {
      SumMonotone(a[..|a| - 1], b[..|b| - 1]);
    }
  }

  /** Dividing both sides by the same positive count keeps their order. */
  lemma DivideKeepsOrder(x: real, y: real, n: real)
    requires n > 0.0 && x >= y
    ensures x / n >= y / n
    ensures x > y ==> x / n > y / n
  {
    assert x / n - y / n == (x - y) / n;
  }

  /** Means of equally long series compare as their elements do. */
  lemma MeanMonotone(a: seq<real>, b: seq<real>)
    requires |a| == |b| > 0
    requires forall i :: 0 <= i < |a| ==> a[i] >= b[i]
    ensures Mean(a) >= Mean(b)
    ensures (forall i :: 0 <= i < |a| ==> a[i] > b[i]) ==> Mean(a) > Mean(b)
  {
    SumMonotone(a, b);
    DivideKeepsOrder(Sum(a), Sum(b), |a| as real);
  }

  /** The means over the trailing week compare as the days in that week do. */
  lemma TrailingMeansCompare(a: seq<real>, b: seq<real>)
    requires |a| == |b| > 0
    requires forall i :: 0 <= i < |a| ==> a[i] >= b[i]
    ensures Mean(Trailing(a)) >= Mean(Trailing(b))
    ensures (forall i :: 0 <= i < |a| ==> a[i] > b[i]) ==> Mean(Trailing(a)) > Mean(Trailing(b))
  {
    var ta, tb := Trailing(a), Trailing(b);
    var k := |a| - |ta|;
    assert |ta| == |tb|;
    forall i | 0 <= i < |ta| ensures ta[i] == a[k + i] && tb[i] == b[k + i] {
    }
    if forall i :: 0 <= i < |a| ==> a[i] > b[i] {
      assert forall i :: 0 <= i < |ta| ==> ta[i] > tb[i];
    }
    MeanMonotone(ta, tb);
  }

  /**
   The clip acts on the running total, not on the previous level: once the
   running total is in deficit, the level reads zero and the deficit is still
   owed, so a day of surplus raises the level by less than that surplus (or
   not at all) where flooring each day would have raised it by all of it.
   */
  lemma DeficitCarriedForward(inflow: seq<real>, consumption: seq<real>, offset: real, i: nat)
    requires |inflow| == |consumption|
    requires 0 < i < |inflow|
    requires offset + Sum(Net(inflow, consumption)[..i]) < 0.0
    ensures Levels(inflow, consumption, offset)[i - 1] == 0.0
    ensures Levels(inflow, consumption, offset)[i]
      == ClipAtZero(offset + Sum(Net(inflow, consumption)[..i]) + (inflow[i] - consumption[i]))
    ensures inflow[i] > consumption[i] ==>
      Levels(inflow, consumption, offset)[i]
        < ClipAtZero(Levels(inflow, consumption, offset)[i - 1] + (inflow[i] - consumption[i]))
  {
    SumPrefixStep(Net(inflow, consumption), i);
  }

  /** Every level, the current one included, grows with the starting volume. */
  lemma LevelsMonotoneInOffset(inflow: seq<real>, consumption: seq<real>, lo: real, hi: real)
    requires |inflow| == |consumption|
    requires lo <= hi
    ensures forall i :: 0 <= i < |inflow| ==>
      Levels(inflow, consumption, lo)[i] <= Levels(inflow, consumption, hi)[i]
  {
  }

  /** More days remaining never turns the banner from OK into a warning. */
  lemma AlertMonotone(fewer: real, more: real)
    requires fewer <= more
    ensures ClassifyAlert(more) == SupplyWarning ==> ClassifyAlert(fewer) == SupplyWarning
  {
  }

  /** An empty reservoir that is still losing water is reported as zero days and warned about. */
  lemma EmptyAndLosingWarns(level: real, balance: real)
    requires level == 0.0 && balance < 0.0
    ensures DaysRemaining(level, balance) == 0.0
    ensures ClassifyAlert(DaysRemaining(level, balance)) == SupplyWarning
  {
  }

  /** When inflow covers consumption on every day, the supply is reported unlimited and OK. */
  lemma SurplusEveryDayIsOk(rainfall: seq<real>, consumption: seq<real>)
    requires |rainfall| == |consumption| > 0
    requires forall i :: 0 <= i < |rainfall| ==> InflowPerMm * rainfall[i] >= consumption[i]
    ensures Project(rainfall, consumption).daysRemaining == Unlimited
    ensures Project(rainfall, consumption).alert == SupplyOk
  {
    TrailingMeansCompare(Inflow(rainfall), consumption);
  }

  /**
   When consumption exceeds inflow on every day, the daily balance is negative
   and the days remaining are the current level over the daily loss.
   */
  lemma DeficitEveryDayIsFinite(rainfall: seq<real>, consumption: seq<real>)
    requires |rainfall| == |consumption| > 0
    requires forall i :: 0 <= i < |rainfall| ==> InflowPerMm * rainfall[i] < consumption[i]
    ensures Project(rainfall, consumption).dailyBalance < 0.0
    ensures Project(rainfall, consumption).daysRemaining
      == Project(rainfall, consumption).currentLevel
         / (Project(rainfall, consumption).meanConsumption - Project(rainfall, consumption).meanInflow)
  {
    var inflow := Inflow(rainfall);
    InflowNonNegative(rainfall);
    assert forall i :: 0 <= i < |consumption| ==> consumption[i] > inflow[i];
    TrailingMeansCompare(consumption, inflow);
  }
}
