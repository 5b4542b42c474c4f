/** The feasibility projection of the analysis page: yearly cash flows that
    grow at a fixed rate, their running total, and their value discounted to
    today. */
module Feasibility {
  import opened Numbers

  datatype Idea = Idea(cost: real, profitRate: real)

  datatype Assumptions = Assumptions(growthRate: real, discountRate: real, maxBudget: real, projectionYears: nat)

  /** The page's fixed assumptions. */
  const FixedAssumptions: Assumptions := Assumptions(0.10, 0.12, 20000.0, 3)

  /** What `calculateFeasibility` returns.  The page renders the first four
      numbers with `toFixed`/`toLocaleString`; the two series are rounded to
      whole numbers. */
  datatype Projection = Projection(
    annualReturnYear1: real,
    npv: real,
    paybackPeriod: real,
    contingency: real,
    cashFlows: seq<int>,
    cumulativeCF: seq<int>,
    pvCumulativeFinal: real)

  /** The projected cash flows of years 1..n: the first year's return grown
      by the growth rate once per later year. */
  function YearFlows(idea: Idea, a: Assumptions, n: nat): (flows: seq<real>)
    ensures |flows| == n
  {
    if n == 0 then [] else YearFlows(idea, a, n - 1) + [Flow(idea, a, n - 1)]
  }

  /** Year t + 1 of any projection long enough to reach it carries that
      year's flow: growing the horizon never changes earlier years. */
  lemma {:induction false} YearFlowsAt(idea: Idea, a: Assumptions, n: nat, t: nat)
    requires t < n
    ensures YearFlows(idea, a, n)[t] == Flow(idea, a, t)
  {
    if t < n - 1 {
      YearFlowsAt(idea, a, n - 1, t);
    }
  }

  /** The flow of year t + 1: the first year's return grown t times. */
  function Flow(idea: Idea, a: Assumptions, t: nat): real
  {
    idea.cost * idea.profitRate * Pow(1.0 + a.growthRate, t)
  }

  /** The first year earns the first-year return; each later year earns the
      year before grown by the growth rate. */
  lemma FlowGrows(idea: Idea, a: Assumptions, t: nat)
    ensures t == 0 ==> Flow(idea, a, t) == idea.cost * idea.profitRate
    ensures t > 0 ==> Flow(idea, a, t) == Flow(idea, a, t - 1) * (1.0 + a.growthRate)
  {
    if t > 0 {
      var r, g := idea.cost * idea.profitRate, 1.0 + a.growthRate;
      assert Pow(g, t) == g * Pow(g, t - 1);
      assert r * (g * Pow(g, t - 1)) == (r * Pow(g, t - 1)) * g;
    }
  }

  /** Running totals: entry t is the sum of entries 0..t. */
  function Cumulative(xs: seq<real>): (c: seq<real>)
    ensures |c| == |xs|
    // the last running total is the total of all entries
    ensures |xs| > 0 ==> c[|xs| - 1] == Sum(xs)
  {
    assert xs[..|xs|] == xs;
    seq(|xs|, t requires 0 <= t < |xs| => Sum(xs[..t + 1]))
  }

  /** Each running total is the previous one plus that year's flow. */
  lemma CumulativeStep(xs: seq<real>, t: nat)
    requires 1 <= t < |xs|
    ensures Cumulative(xs)[t] == Cumulative(xs)[t - 1] + xs[t]
  {
    assert xs[..t + 1][..t] == xs[..t];
  }

  /** The first running total is the first entry. */
  lemma CumulativeHead(xs: seq<real>)
    requires xs != []
    ensures Cumulative(xs)[0] == xs[0]
  {
    assert xs[..1] == [xs[0]];
    assert [xs[0]][..0] == [];
    assert Sum([xs[0]]) == Sum([]) + xs[0];
  }

  lemma CumulativeSingle(x: real)
    ensures Cumulative([x]) == [x]
  {
    assert [x][..1] == [x];
    assert [x][..0] == [];
    assert Sum([x]) == Sum([]) + x;
    assert Cumulative([x])[0] == x;
  }

  /** Appending a flow appends the running total reached with it. */
  lemma CumulativeAppend(xs: seq<real>, x: real)
    requires xs != []
    ensures Cumulative(xs + [x]) == Cumulative(xs) + [Cumulative(xs)[|xs| - 1] + x]
  {
    var ys := xs + [x];
    forall t | 0 <= t < |xs|
      ensures Cumulative(ys)[t] == Cumulative(xs)[t]
    {
      assert ys[..t + 1] == xs[..t + 1];
    }
    assert ys[..|ys|][..|xs|] == xs;
    assert xs[..|xs|] == xs;
  }

  lemma PresentValueAppend(flows: seq<real>, f: real, base: real)
    requires base > 0.0
    ensures Pow(base, |flows| + 1) > 0.0
    ensures PresentValue(flows + [f], base) == PresentValue(flows, base) + f / Pow(base, |flows| + 1)
  {
    var ys := flows + [f];
    assert ys[..|ys| - 1] == flows;
    PowPositive(base, |flows| + 1);
  }

  /** The whole cash-flow series: the outlay, then the projected years. */
  function CashFlowSeries(idea: Idea, a: Assumptions): seq<real>
  {
    [-idea.cost] + YearFlows(idea, a, a.projectionYears)
  }

  /** `cf => Number(cf.toFixed(0))` over a series. */
  function RoundAll(xs: seq<real>): (r: seq<int>)
    ensures |r| == |xs|
    ensures forall i :: 0 <= i < |xs| ==> r[i] == RoundWhole(xs[i])
  {
    if xs == [] then [] else [RoundWhole(xs[0])] + RoundAll(xs[1..])
  }

  /** `years` of `annual` returns add up to `cost`. */
  predicate Repays(years: real, annual: real, cost: real)
  {
    years * annual == cost
  }

  /** One pass of the yearly loop keeps its three invariants. */
  lemma ProjectStep(idea: Idea, a: Assumptions, t: nat, cashFlows: seq<real>, cumulativeCF: seq<real>, pvCumulative: real)
    requires 1 <= t && 1.0 + a.discountRate > 0.0
    requires cashFlows == [-idea.cost] + YearFlows(idea, a, t - 1)
    requires cumulativeCF == Cumulative(cashFlows)
    requires pvCumulative == -idea.cost + PresentValue(YearFlows(idea, a, t - 1), 1.0 + a.discountRate)
    ensures |cumulativeCF| == t && Pow(1.0 + a.discountRate, t) > 0.0
    ensures cashFlows + [Flow(idea, a, t - 1)] == [-idea.cost] + YearFlows(idea, a, t)
    ensures cumulativeCF + [cumulativeCF[t - 1] + Flow(idea, a, t - 1)] == Cumulative(cashFlows + [Flow(idea, a, t - 1)])
    ensures pvCumulative + Flow(idea, a, t - 1) / Pow(1.0 + a.discountRate, t)
            == -idea.cost + PresentValue(YearFlows(idea, a, t), 1.0 + a.discountRate)
  {
    PowPositive(1.0 + a.discountRate, t);
    CumulativeAppend(cashFlows, Flow(idea, a, t - 1));
    PresentValueAppend(YearFlows(idea, a, t - 1), Flow(idea, a, t - 1), 1.0 + a.discountRate);
  }

  /** The yearly loop of `calculateFeasibility`: the outlay, then one flow
      per projected year, its running total and the discounted total. */
  method ProjectYears(idea: Idea, a: Assumptions) returns (cashFlows: seq<real>, cumulativeCF: seq<real>, pvCumulative: real)
    requires 1.0 + a.discountRate > 0.0
    ensures cashFlows == CashFlowSeries(idea, a)
    ensures cumulativeCF == Cumulative(cashFlows)
    ensures pvCumulative == -idea.cost + PresentValue(YearFlows(idea, a, a.projectionYears), 1.0 + a.discountRate)
  {
    cashFlows := [-idea.cost];
    cumulativeCF := [-idea.cost];
    pvCumulative := -idea.cost;
    CumulativeSingle(-idea.cost);
    var t := 1;
    while t <= a.projectionYears
      invariant 1 <= t <= a.projectionYears + 1
      invariant cashFlows == [-idea.cost] + YearFlows(idea, a, t - 1)
      invariant cumulativeCF == Cumulative(cashFlows)
      invariant pvCumulative == -idea.cost + PresentValue(YearFlows(idea, a, t - 1), 1.0 + a.discountRate)
    {
      // this year's flow
      var currentCF := Flow(idea, a, t - 1);
      ProjectStep(idea, a, t, cashFlows, cumulativeCF, pvCumulative);
      var pv := currentCF / Pow(1.0 + a.discountRate, t);
      cumulativeCF := cumulativeCF + [cumulativeCF[t - 1] + currentCF];
      pvCumulative := pvCumulative + pv;
      cashFlows := cashFlows + [currentCF];
      t := t + 1;
    }
  }

  /** Both series open with the outlay, rounded. */
  lemma SeriesStartWithOutlay(idea: Idea, a: Assumptions)
    ensures RoundAll(CashFlowSeries(idea, a))[0] == RoundWhole(-idea.cost)
    ensures RoundAll(Cumulative(CashFlowSeries(idea, a)))[0] == RoundWhole(-idea.cost)
  {
    CumulativeHead(CashFlowSeries(idea, a));
  }

  method CalculateFeasibility(idea: Idea, a: Assumptions) returns (p: Projection)
    requires 1.0 + a.discountRate > 0.0
    requires idea.cost * idea.profitRate != 0.0
    // both series have one entry per projected year plus the outlay, which comes first
    ensures |p.cashFlows| == |p.cumulativeCF| == a.projectionYears + 1
    ensures forall t :: 1 <= t <= a.projectionYears ==> p.cashFlows[t] == RoundWhole(Flow(idea, a, t - 1))
    // the cumulative series is the running total of the unrounded flows
    ensures p.cashFlows == RoundAll(CashFlowSeries(idea, a))
    ensures p.cumulativeCF == RoundAll(Cumulative(CashFlowSeries(idea, a)))
    // the net present value: the outlay plus every later flow discounted to today
    ensures p.pvCumulativeFinal == p.npv == -idea.cost + PresentValue(YearFlows(idea, a, a.projectionYears), 1.0 + a.discountRate)
    ensures p.annualReturnYear1 == idea.cost * idea.profitRate
    // the payback period is the years of first-year return that repay the cost
    ensures Repays(p.paybackPeriod, p.annualReturnYear1, idea.cost)
    ensures p.contingency + idea.cost == a.maxBudget
  {
    var annualReturnYear1 := idea.cost * idea.profitRate;
    var cashFlows, cumulativeCF, pvCumulative := ProjectYears(idea, a);
    var paybackPeriod := idea.cost / annualReturnYear1;
    DivMul(idea.cost, annualReturnYear1);
    assert Repays(paybackPeriod, annualReturnYear1, idea.cost);
    forall t | 1 <= t <= a.projectionYears
      ensures RoundAll(cashFlows)[t] == RoundWhole(Flow(idea, a, t - 1))
    {
      YearFlowsAt(idea, a, a.projectionYears, t - 1);
    }
    var contingency := a.maxBudget - idea.cost;
    p := Projection(annualReturnYear1, pvCumulative, paybackPeriod, contingency,
                    RoundAll(cashFlows), RoundAll(cumulativeCF), pvCumulative);
  }

  /** The NPV tile: its colour classes and the sign put before the figure. */
  datatype Badge = Badge(colour: string, sign: string)

  const FavourableColour: string := "bg-[#d1fae5] border-[#10b981] text-[#065f46]"
  const UnfavourableColour: string := "bg-[#fee2e2] border-[#ef4444] text-[#991b1b]"

  function NpvBadge(pvCumulativeFinal: real): (b: Badge)
    // a zero NPV is shown as favourable, with no sign
    ensures b.sign == "" <==> pvCumulativeFinal >= 0.0
    ensures b.colour == FavourableColour <==> b.sign == ""
    ensures b.sign == "-" <==> b.colour == UnfavourableColour
    // a loss is shown in red with a minus sign
    ensures pvCumulativeFinal < 0.0 ==> b == Badge(UnfavourableColour, "-")
  {
    if pvCumulativeFinal >= 0.0 then Badge(FavourableColour, "") else Badge(UnfavourableColour, "-")
  }

  /** Where `c` first occurs in `s`, or `|s|` if it does not. */
  function FirstIndex(s: string, c: char): (i: nat)
    ensures i <= |s| && c !in s[..i]
    ensures i < |s| ==> s[i] == c
    ensures i == |s| <==> c !in s
  {
    if s == [] then 0
    else if s[0] == c then 0
    else
      var i := 1 + FirstIndex(s[1..], c);
      assert s[..i] == [s[0]] + s[1..][..i - 1];
      i
  }

  /** `s.replace(c, '')` with a one-character string pattern: only the first
      occurrence goes, the rest of the text is kept in order. */
  function RemoveFirst(s: string, c: char): (r: string)
    ensures c !in s ==> r == s
    ensures c in s ==> |r| == |s| - 1
  {
    var i := FirstIndex(s, c);
    if i < |s| then s[..i] + s[i + 1..] else s
  }

  /** Exactly one `c` goes, and every other character is kept. */
  lemma RemoveFirstMultiset(s: string, c: char)
    requires c in s
    ensures multiset(RemoveFirst(s, c)) + multiset{c} == multiset(s)
    ensures multiset(RemoveFirst(s, c))[c] == multiset(s)[c] - 1
  {
    var i := FirstIndex(s, c);
    assert s == s[..i] + [s[i]] + s[i + 1..];
  }

  /** The cost text with its first "$" and then its first "," removed, as the
      page does before converting it to a number. */
  function CostDigits(cost: string): (r: string)
    ensures |r| <= |cost|
    ensures |cost| - 2 <= |r|
  {
    RemoveFirst(RemoveFirst(cost, '$'), ',')
  }

  /** The page's own idea costs "$8000", which becomes "8000". */
  lemma PageCost()
    ensures CostDigits("$8000") == "8000"
  {
    var s := "$8000";
    assert s[0] == '$';
    assert FirstIndex(s, '$') == 0;
    assert s[1..] == "8000";
    var t := "8000";
    assert ',' !in t by {
      assert forall i :: 0 <= i < |t| ==> t[i] != ',';
    }
  }

  /** Removing the first `c` when it sits at `i`. */
  lemma RemoveFirstAt(s: string, c: char, i: nat)
    requires i < |s| && s[i] == c && c !in s[..i]
    ensures RemoveFirst(s, c) == s[..i] + s[i + 1..]
  {
  }

  /** Only the first thousands separator goes: a cost of a million or more,
      such as "$1,000,000", keeps its second comma ("1000,000"). */
  lemma OnlyFirstSeparatorRemoved(a: string, b: string, c: string)
    requires '$' !in a && ',' !in a
    ensures CostDigits("$" + a + "," + b + "," + c) == a + b + "," + c
  {
    var s := "$" + a + "," + b + "," + c;
    RemoveFirstAt(s, '$', 0);
    var t := a + "," + b + "," + c;
    assert s[..0] + s[1..] == t;
    assert RemoveFirst(s, '$') == t;
    assert t[..|a|] == a;
    RemoveFirstAt(t, ',', |a|);
    assert t[|a| + 1..] == b + "," + c;
    assert RemoveFirst(t, ',') == a + (b + "," + c);
    assert a + (b + "," + c) == a + b + "," + c;
  }

  /** The page's figures: an $8000 idea at a 17.5% first-year return under
      the fixed assumptions returns 1400, 1540 and 1694, whose discounted
      value does not repay the cost, so the NPV tile shows a minus sign. */
  lemma PageProjection()
    ensures YearFlows(Idea(8000.0, 0.175), FixedAssumptions, 3) == [1400.0, 1540.0, 1694.0]
    ensures Cumulative(CashFlowSeries(Idea(8000.0, 0.175), FixedAssumptions)) == [-8000.0, -6600.0, -5060.0, -3366.0]
    ensures NpvBadge(-8000.0 + PresentValue([1400.0, 1540.0, 1694.0], 1.12)).sign == "-"
  {
    var idea, a := Idea(8000.0, 0.175), FixedAssumptions;
    assert Pow(1.1, 1) == 1.1;
    assert Pow(1.1, 2) == 1.21;
    var flows := YearFlows(idea, a, 3);
    assert flows[0] == 1400.0 && flows[1] == 1540.0 && flows[2] == 1694.0;
    assert flows == [1400.0, 1540.0, 1694.0];
    var series := CashFlowSeries(idea, a);
    assert series == [-8000.0, 1400.0, 1540.0, 1694.0];
    var c := Cumulative(series);
    assert series[..1] == [-8000.0] && series[..2] == [-8000.0, 1400.0];
    assert series[..3] == [-8000.0, 1400.0, 1540.0] && series[..4] == series;
    assert Sum([-8000.0]) == -8000.0 by { assert [-8000.0][..0] == []; }
    assert c[0] == -8000.0;
    assert c[1] == -6600.0 by { assert series[..2][..1] == [-8000.0]; }
    assert c[2] == -5060.0 by { assert series[..3][..2] == series[..2]; assert series[..2][..1] == [-8000.0]; }
    assert c[3] == -3366.0 by {
      assert series[..3][..2] == series[..2]; assert series[..2][..1] == [-8000.0]; assert series[..4][..3] == series[..3];
    }
    PresentValueBelow([1400.0, 1540.0, 1694.0], 1.12);
  }

  /** Discounting at a base of at least 1 never raises a non-negative total. */
  lemma PresentValueBelow(flows: seq<real>, base: real)
    requires base >= 1.0
    requires forall i :: 0 <= i < |flows| ==> flows[i] >= 0.0
    ensures PresentValue(flows, base) <= Sum(flows)
  {
    PresentValueAntitone(flows, 1.0, base);
    PresentValueUndiscounted(flows);
  }
}
