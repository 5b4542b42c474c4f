/** The financial calculator registry: seven named calculators, each a guard
    that yields an error message and a closed-form result record.  Inputs are
    taken as already-parsed exact reals (IRR's inputs may also be "not a
    number", which its guard rejects). */
module Formulas {
  import opened Numbers

  // ---------------------------------------------------------------------------
  // Data model
  // ---------------------------------------------------------------------------

  datatype FieldKind = NumberField | TextField

  datatype InputField = InputField(name: string, labelText: string, placeholder: string, kind: FieldKind)

  /** One registry entry: its id, texts and declared inputs.  The calculation
      each entry carries is the function or method below named after it. */
  datatype FormulaSpec = FormulaSpec(id: string, title: string, description: string, inputs: seq<InputField>)

  /** A `{name, value}` pair of a bar or pie series. */
  datatype Point = Point(name: string, value: real)

  /** The headline: `Whole` for a `Math.ceil`/`Math.floor` result, `Fixed(x, d)`
      for the string `x.toFixed(d)`. */
  datatype Shown = Whole(n: int) | Fixed(x: real, digits: nat)

  /** The details line: a constant text, or one of the two templates that
      embed a number. */
  datatype Detail =
    | Note(text: string)
    | RevenueNeeded(revenue: real)  // `Revenue needed: ${revenue.toLocaleString()} EGP`
    | RecoverIn(years: Shown)       // `You will recover your money in roughly ${years} years.`

  datatype Report = Report(mainValue: Shown, unit: string, details: Detail, chartData: seq<Point>, pieData: Option<seq<Point>>)

  /** `{ error }` or a result record. */
  datatype CalcResult = Failure(error: string) | Success(report: Report)

  /** The outcome of `parseFloat` on one field. */
  datatype Parsed = Number(x: real) | NotANumber

  // ---------------------------------------------------------------------------
  // The registry and its lookup
  // ---------------------------------------------------------------------------

  const Registry: seq<FormulaSpec> := [
    FormulaSpec("break-even", "Break-Even Point", "Calculate the sales volume needed to cover costs.", [
      InputField("fixedCosts", "Fixed Costs (EGP)", "50000", NumberField),
      InputField("sellingPrice", "Selling Price per Unit (EGP)", "100", NumberField),
      InputField("variableCost", "Variable Cost per Unit (EGP)", "60", NumberField)]),
    FormulaSpec("roi", "Return on Investment (ROI)", "Measure the profitability of an investment.", [
      InputField("netProfit", "Net Profit (EGP)", "20000", NumberField),
      InputField("totalInvestment", "Total Investment (EGP)", "100000", NumberField)]),
    FormulaSpec("npv", "Net Present Value (NPV)", "Calculate the current value of future cash flows.", [
      InputField("initialInvestment", "Initial Investment", "e.g., 100000", NumberField),
      InputField("discountRate", "Discount Rate (%)", "e.g., 10", NumberField),
      InputField("cashFlows", "Future Cash Flows (separated by comma)", "e.g., 20000, 30000", TextField)]),
    FormulaSpec("irr", "Internal Rate of Return (IRR)", "The discount rate that makes NPV zero.", [
      InputField("initialInvestment", "Initial Investment (EGP)", "e.g., 100000", NumberField),
      InputField("cashFlows", "Future Cash Flows (Yearly, separated by comma)", "e.g., 20000, 30000, 40000", TextField)]),
    FormulaSpec("payback-period", "Payback Period", "Time required to recover the initial cost of an investment.", [
      InputField("initialInvestment", "Initial Investment (EGP)", "e.g., 50000", NumberField),
      InputField("annualCashFlow", "Estimated Annual Cash Flow (EGP)", "e.g., 12000", NumberField)]),
    FormulaSpec("profit-margin", "Gross Profit Margin", "The percentage of revenue that exceeds the cost of goods sold.", [
      InputField("revenue", "Total Revenue", "100000", NumberField),
      InputField("cogs", "Cost of Goods Sold (COGS)", "60000", NumberField)]),
    FormulaSpec("runway", "Startup Runway", "How many months the business can survive with current cash.", [
      InputField("currentCash", "Current Cash on Hand (EGP)", "e.g., 200000", NumberField),
      InputField("monthlyBurn", "Monthly Burn Rate (Expenses) (EGP)", "e.g., 15000", NumberField)])
  ]

  /** `formulas.find((f) => f.id === id)`: the first entry with that id. */
  function Find(tools: seq<FormulaSpec>, id: string): (r: Option<FormulaSpec>)
    ensures r.None? <==> forall i :: 0 <= i < |tools| ==> tools[i].id != id
    ensures r.Some? ==> exists i :: 0 <= i < |tools| && tools[i] == r.value && r.value.id == id &&
                                    forall j :: 0 <= j < i ==> tools[j].id != id
  {
    if tools == [] then None
    else if tools[0].id == id then Some(tools[0])
    else
      var r := Find(tools[1..], id);
      assert r.Some? ==> exists i :: 0 <= i < |tools| && tools[i] == r.value && r.value.id == id &&
                                    forall j :: 0 <= j < i ==> tools[j].id != id by {
        if r.Some? {
          var i :| 0 <= i < |tools| - 1 && tools[1..][i] == r.value && r.value.id == id &&
                   forall j :: 0 <= j < i ==> tools[1..][j].id != id;
          assert tools[i + 1] == r.value;
          assert forall j :: 0 <= j < i + 1 ==> tools[j].id != id by {
            forall j | 0 <= j < i + 1 ensures tools[j].id != id {
              if j > 0 { assert tools[j] == tools[1..][j - 1]; }
            }
          }
        }
      }
      r
  }

  /** The registry's seven ids are pairwise distinct, so lookup by id is
      unambiguous. */
  lemma RegistryIdsDistinct()
    ensures |Registry| == 7
    ensures forall i, j :: 0 <= i < j < |Registry| ==> Registry[i].id != Registry[j].id
  {
  }

  /** Every calculator named in the registry is found under its own id. */
  lemma {:induction false} RegistryLookup(i: nat)
    requires i < |Registry|
    ensures Find(Registry, Registry[i].id) == Some(Registry[i])
  {
    RegistryIdsDistinct();
    var r := Find(Registry, Registry[i].id);
    var k :| 0 <= k < |Registry| && Registry[k] == r.value && r.value.id == Registry[i].id &&
             forall j :: 0 <= j < k ==> Registry[j].id != Registry[i].id;
    assert k == i;
  }

  // ---------------------------------------------------------------------------
  // 1. Break-even point
  // ---------------------------------------------------------------------------

  /** The least whole number of units whose margin covers the fixed costs. */
  lemma CeilCovers(fixedCosts: real, margin: real)
    requires margin > 0.0
    ensures var n := Ceil(fixedCosts / margin);
            n as real * margin >= fixedCosts && (n - 1) as real * margin < fixedCosts
  {
    var u := fixedCosts / margin;
    var n := Ceil(u);
    assert u * margin == fixedCosts;
    if u < n as real {
      MulStrict(u, n as real, margin);
    }
    MulStrict((n - 1) as real, u, margin);
    assert (n - 1) as real * margin < fixedCosts;
  }

  function BreakEven(fixedCosts: real, sellingPrice: real, variableCost: real): (r: CalcResult)
    ensures r.Failure? <==> sellingPrice - variableCost <= 0.0
    ensures r.Failure? ==> r.error == "Selling price must be higher than variable cost."
    ensures r.Success? ==>
      var m, rep := sellingPrice - variableCost, r.report;
      // the headline is the least whole number of units that covers the fixed costs
      && rep.mainValue.Whole?
      && rep.mainValue.n as real * m >= fixedCosts && (rep.mainValue.n - 1) as real * m < fixedCosts
      && rep.unit == "Units"
      // revenue needed: the revenue at which the units sold cover the fixed costs
      && rep.details.RevenueNeeded? && rep.details.revenue * m == fixedCosts * sellingPrice
      // at the break-even point total cost equals revenue
      && |rep.chartData| == 2
      && rep.chartData[0].name == "Total Cost" && rep.chartData[1].name == "Revenue"
      && rep.chartData[0].value == rep.chartData[1].value == rep.details.revenue
      // the cost breakdown adds up to the total cost
      && rep.pieData.Some? && |rep.pieData.value| == 2
      && rep.pieData.value[0] == Point("Fixed Costs", fixedCosts)
      && rep.pieData.value[1].name == "Variable Costs"
      && rep.pieData.value[0].value + rep.pieData.value[1].value == rep.chartData[0].value
  {
    var m := sellingPrice - variableCost;
    if m <= 0.0 then Failure("Selling price must be higher than variable cost.")
    else
      var units := fixedCosts / m;
      var revenue := units * sellingPrice;
      var variableTotal := units * variableCost;
      CeilCovers(fixedCosts, m);
      assert units * m == fixedCosts;
      assert fixedCosts + variableTotal == revenue;
      assert revenue * m == fixedCosts * sellingPrice;
      Success(Report(Whole(Ceil(units)), "Units", RevenueNeeded(revenue),
        [Point("Total Cost", fixedCosts + variableTotal), Point("Revenue", revenue)],
        Some([Point("Fixed Costs", fixedCosts), Point("Variable Costs", variableTotal)])))
  }

  /** Equal price and variable cost is the guarded error, not a division by zero. */
  lemma BreakEvenEqualPriceAndCost(fixedCosts: real, price: real)
    ensures BreakEven(fixedCosts, price, price) == Failure("Selling price must be higher than variable cost.")
  {
  }

  // ---------------------------------------------------------------------------
  // 2. Return on investment
  // ---------------------------------------------------------------------------

  lemma QuotientPositive(p: real, q: real)
    requires q != 0.0
    ensures p / q * 100.0 > 0.0 <==> (p > 0.0 && q > 0.0) || (p < 0.0 && q < 0.0)
  {
    var d := p / q;
    assert d * q == p;
    if q > 0.0 {
      assert d > 0.0 <==> p > 0.0;
    } else {
      assert d > 0.0 <==> p < 0.0;
    }
  }

  function Roi(netProfit: real, totalInvestment: real): (r: CalcResult)
    ensures r.Failure? <==> totalInvestment == 0.0
    ensures r.Failure? ==> r.error == "Investment cannot be zero."
    ensures r.Success? ==>
      var rep := r.report;
      // roi is profit as a percentage of the investment
      && rep.mainValue.Fixed? && rep.mainValue.digits == 2
      && rep.mainValue.x * totalInvestment == 100.0 * netProfit
      && rep.unit == "%"
      // a zero return counts as negative
      && (rep.details == Note("Positive Return") || rep.details == Note("Negative Return"))
      && (rep.details == Note("Positive Return") <==>
            (netProfit > 0.0 && totalInvestment > 0.0) || (netProfit < 0.0 && totalInvestment < 0.0))
      && rep.chartData == [Point("Invested", totalInvestment), Point("Return (Profit)", netProfit)]
      // the pie never has a negative slice for the profit
      && rep.pieData.Some? && |rep.pieData.value| == 2
      && rep.pieData.value[0] == Point("Investment Base", totalInvestment)
      && rep.pieData.value[1].name == "Net Profit"
      && rep.pieData.value[1].value >= 0.0
      && (rep.pieData.value[1].value == netProfit || rep.pieData.value[1].value == -netProfit)
  {
    if totalInvestment == 0.0 then Failure("Investment cannot be zero.")
    else
      var roi := (netProfit / totalInvestment) * 100.0;
      QuotientPositive(netProfit, totalInvestment);
      assert roi * totalInvestment == 100.0 * netProfit;
      Success(Report(Fixed(roi, 2), "%", Note(if roi > 0.0 then "Positive Return" else "Negative Return"),
        [Point("Invested", totalInvestment), Point("Return (Profit)", netProfit)],
        Some([Point("Investment Base", totalInvestment), Point("Net Profit", Abs(netProfit))])))
  }

  // ---------------------------------------------------------------------------
  // 3. Net present value, and the accumulation loop it shares with IRR
  // ---------------------------------------------------------------------------

  /** `flows.forEach((flow, i) => acc += flow / Math.pow(base, i + 1))`,
      starting from `start`. */
  method DiscountFlows(start: real, flows: seq<real>, base: real) returns (acc: real)
    requires base > 0.0
    ensures acc == start + PresentValue(flows, base)
  {
    acc := start;
    for i := 0 to |flows|
      invariant acc == start + PresentValue(flows[..i], base)
    {
      PowPositive(base, i + 1);
      assert flows[..i + 1][..i] == flows[..i];
      acc := acc + flows[i] / Pow(base, i + 1);
    }
    assert flows[..|flows|] == flows;
  }

  /** The NPV calculator; the discount rate is a percentage. */
  method Npv(initialInvestment: real, discountRate: real, cashFlows: seq<real>) returns (r: CalcResult)
    requires discountRate > -100.0
    ensures r.Success?
    ensures var pv := PresentValue(cashFlows, 1.0 + discountRate / 100.0);
            var npv := pv - initialInvestment;
            && r.report.mainValue == Fixed(npv, 2)
            && r.report.unit == "EGP"
            // zero NPV is not feasible
            && r.report.details == Note(if npv > 0.0 then "Feasible" else "Not Feasible")
            && r.report.chartData == [Point("Initial Cost", initialInvestment), Point("PV Returns", pv)]
            && r.report.pieData.None?
  {
    var rate := discountRate / 100.0;
    var presentValueSum := DiscountFlows(0.0, cashFlows, 1.0 + rate);
    var npv := presentValueSum - initialInvestment;
    r := Success(Report(Fixed(npv, 2), "EGP", Note(if npv > 0.0 then "Feasible" else "Not Feasible"),
      [Point("Initial Cost", initialInvestment), Point("PV Returns", presentValueSum)], None));
  }

  /** Investment 100000 at 10% with flows 20000 and 30000: the flows are worth
      20000/1.1 + 30000/1.21 today, so the project is not feasible. */
  lemma NpvExample()
    ensures PresentValue([20000.0, 30000.0], 1.1) == 20000.0 / 1.1 + 30000.0 / 1.21
    ensures PresentValue([20000.0, 30000.0], 1.1) - 100000.0 < 0.0
  {
    var flows := [20000.0, 30000.0];
    assert flows[..1] == [20000.0];
    assert flows[..1][..0] == [];
    assert Pow(1.1, 1) == 1.1;
    assert Pow(1.1, 2) == 1.21;
  }

  // ---------------------------------------------------------------------------
  // 4. Internal rate of return
  // ---------------------------------------------------------------------------

  const IrrMaxIterations: nat := 1000
  const IrrStep: real := 0.0001
  const IrrAccuracy: real := 0.001

  /** The guess after a net `k` steps up from the 10% start. */
  function Guess(k: int): real
  {
    0.1 + k as real * IrrStep
  }

  /** `calculateNPV(r)`: minus the investment plus the discounted flows. */
  function NpvAt(initial: real, flows: seq<real>, rate: real): (v: real)
    requires rate > -1.0
    // at a zero rate the flows count at face value
    ensures rate == 0.0 ==> v == Sum(flows) - initial
    ensures flows == [] ==> v == -initial
  {
    PresentValueUndiscounted(flows);
    -initial + PresentValue(flows, 1.0 + rate)
  }

  /** Where the search stops: the net offset of the guess and the loop index. */
  datatype Stop = Stop(offset: int, iteration: nat)

  /** The search loop from iteration `i` with the guess at offset `k`. */
  function IrrSearch(initial: real, flows: seq<real>, k: int, i: nat): (s: Stop)
    requires i <= IrrMaxIterations && -(i as int) <= k <= i
    ensures i <= s.iteration <= IrrMaxIterations
    // each iteration moves the guess by one step, so it is never further from
    // where it started than the number of iterations
    ensures s.offset - k <= s.iteration - i && k - s.offset <= s.iteration - i
    ensures -(s.iteration as int) <= s.offset <= s.iteration
    // stopping before the cap means the accuracy was reached
    ensures s.iteration < IrrMaxIterations ==> Abs(NpvAt(initial, flows, Guess(s.offset))) < IrrAccuracy
    decreases IrrMaxIterations - i
  {
    if i == IrrMaxIterations then Stop(k, i)
    else
      var npv := NpvAt(initial, flows, Guess(k));
      if Abs(npv) < IrrAccuracy then Stop(k, i)
      else if npv > 0.0 then IrrSearch(initial, flows, k + 1, i + 1)
      else IrrSearch(initial, flows, k - 1, i + 1)
  }

  /** The fixed-step search of the IRR calculator. */
  method SearchRate(initial: real, flows: seq<real>) returns (guess: real)
    ensures guess == Guess(IrrSearch(initial, flows, 0, 0).offset)
    ensures 0.0 <= guess <= 0.2
  {
    guess := 0.1;
    ghost var k := 0;
    var i := 0;
    while i < IrrMaxIterations
      invariant 0 <= i <= IrrMaxIterations && -i <= k <= i
      invariant guess == Guess(k)
      invariant IrrSearch(initial, flows, k, i) == IrrSearch(initial, flows, 0, 0)
    {
      var npv := DiscountFlows(-initial, flows, 1.0 + guess);
      if Abs(npv) < IrrAccuracy {
        break;
      }
      if npv > 0.0 {
        guess := guess + IrrStep;
        k := k + 1;
      } else {
        guess := guess - IrrStep;
        k := k - 1;
      }
      i := i + 1;
    }
  }

  /** The parsed flows, once none is "not a number". */
  function Values(ps: seq<Parsed>): (xs: seq<real>)
    requires forall i :: 0 <= i < |ps| ==> ps[i].Number?
    ensures |xs| == |ps|
    ensures forall i :: 0 <= i < |ps| ==> xs[i] == ps[i].x
  {
    if ps == [] then [] else [ps[0].x] + Values(ps[1..])
  }

  function YearPoints(flows: seq<real>, first: nat): (ps: seq<Point>)
    ensures |ps| == |flows|
    ensures forall i :: 0 <= i < |flows| ==> ps[i] == Point("Year " + NatToString(first + i), flows[i])
    decreases |flows|
  {
    if flows == [] then [] else [Point("Year " + NatToString(first), flows[0])] + YearPoints(flows[1..], first + 1)
  }

  /** The IRR bar chart: the outlay, then one bar per year in order. */
  function IrrChart(initial: real, flows: seq<real>): (c: seq<Point>)
    ensures |c| == |flows| + 1
    ensures c[0] == Point("Start", -initial)
    ensures forall i :: 0 <= i < |flows| ==> c[i + 1] == Point("Year " + NatToString(i + 1), flows[i])
  {
    [Point("Start", -initial)] + YearPoints(flows, 1)
  }

  /** `cashFlows.some(isNaN)`. */
  function SomeNaN(flows: seq<Parsed>): (b: bool)
    ensures b <==> exists i :: 0 <= i < |flows| && flows[i].NotANumber?
  {
    if flows == [] then false
    else
      assert forall i :: 1 <= i < |flows| ==> flows[i] == flows[1..][i - 1];
      flows[0].NotANumber? || SomeNaN(flows[1..])
  }

  /** The guard of the IRR calculator: the investment or some flow is not a number. */
  function AnyNaN(initial: Parsed, flows: seq<Parsed>): (b: bool)
    ensures b <==> initial.NotANumber? || exists i :: 0 <= i < |flows| && flows[i].NotANumber?
  {
    initial.NotANumber? || SomeNaN(flows)
  }

  method Irr(initialInvestment: Parsed, cashFlows: seq<Parsed>) returns (r: CalcResult)
    ensures r.Failure? <==> AnyNaN(initialInvestment, cashFlows)
    ensures r.Failure? ==> r.error == "Please check your inputs."
    ensures r.Success? ==>
      var initial, flows := initialInvestment.x, Values(cashFlows);
      && r.report.mainValue == Fixed(100.0 * Guess(IrrSearch(initial, flows, 0, 0).offset), 2)
      && 0.0 <= r.report.mainValue.x <= 20.0
      && r.report.unit == "%"
      && r.report.details == Note("This is the expected annual growth rate.")
      && r.report.chartData == IrrChart(initial, flows)
      && r.report.pieData.None?
  {
    if AnyNaN(initialInvestment, cashFlows) {
      return Failure("Please check your inputs.");
    }
    var initial, flows := initialInvestment.x, Values(cashFlows);
    var guess := SearchRate(initial, flows);
    var irrPercentage := guess * 100.0;
    r := Success(Report(Fixed(irrPercentage, 2), "%", Note("This is the expected annual growth rate."),
      IrrChart(initial, flows), None));
  }

  /** With non-negative flows the NPV falls as the rate rises. */
  lemma NpvAtAntitone(initial: real, flows: seq<real>, r1: real, r2: real)
    requires -1.0 < r1 <= r2
    requires forall i :: 0 <= i < |flows| ==> flows[i] >= 0.0
    ensures NpvAt(initial, flows, r2) <= NpvAt(initial, flows, r1)
  {
    PresentValueAntitone(flows, 1.0 + r1, 1.0 + r2);
  }

  /** Investment 100000 with three flows of 50000 (an IRR near 23.4%): the NPV
      stays above the accuracy on the whole reachable range, so the search
      climbs for all 1000 iterations and reports 20%. */
  lemma IrrExample()
    ensures IrrSearch(100000.0, [50000.0, 50000.0, 50000.0], 0, 0) == Stop(1000, 1000)
  {
    IrrExampleFrom(0);
  }

  lemma NpvAtTwentyPercent()
    ensures NpvAt(100000.0, [50000.0, 50000.0, 50000.0], 0.2) > 5000.0
  {
    var flows := [50000.0, 50000.0, 50000.0];
    assert flows[..2] == [50000.0, 50000.0];
    assert flows[..2][..1] == [50000.0];
    assert flows[..2][..1][..0] == [];
    assert Pow(1.2, 1) == 1.2;
    assert Pow(1.2, 2) == 1.44;
    assert Pow(1.2, 3) == 1.728;
    assert PresentValue(flows[..2][..1], 1.2) == 50000.0 / 1.2;
    assert PresentValue(flows[..2], 1.2) == 50000.0 / 1.2 + 50000.0 / 1.44;
    assert PresentValue(flows, 1.2) == 50000.0 / 1.2 + 50000.0 / 1.44 + 50000.0 / 1.728;
  }

  lemma {:induction false} IrrExampleFrom(i: nat)
    requires i <= 1000
    ensures IrrSearch(100000.0, [50000.0, 50000.0, 50000.0], i, i) == Stop(1000, 1000)
    decreases 1000 - i
  {
    var flows := [50000.0, 50000.0, 50000.0];
    if i < 1000 {
      NpvAtTwentyPercent();
      NpvAtAntitone(100000.0, flows, Guess(i), 0.2);
      IrrExampleFrom(i + 1);
    }
  }

  // ---------------------------------------------------------------------------
  // 5. Payback period
  // ---------------------------------------------------------------------------

  function Payback(initialInvestment: real, annualCashFlow: real): (r: CalcResult)
    ensures r.Failure? <==> annualCashFlow <= 0.0
    ensures r.Failure? ==> r.error == "Cash flow must be greater than zero."
    ensures r.Success? ==>
      var rep := r.report;
      // the years of constant flow that recover the investment
      && rep.mainValue.Fixed? && rep.mainValue.digits == 1
      && rep.mainValue.x * annualCashFlow == initialInvestment
      && rep.unit == "Years"
      && rep.details == RecoverIn(rep.mainValue)
      && rep.chartData == [Point("Investment", initialInvestment), Point("1st Year Flow", annualCashFlow),
                           Point("Cumulative 2y", 2.0 * annualCashFlow), Point("Cumulative 3y", 3.0 * annualCashFlow)]
      && rep.pieData.None?
  {
    if annualCashFlow <= 0.0 then Failure("Cash flow must be greater than zero.")
    else
      var years := initialInvestment / annualCashFlow;
      Success(Report(Fixed(years, 1), "Years", RecoverIn(Fixed(years, 1)),
        [Point("Investment", initialInvestment), Point("1st Year Flow", annualCashFlow),
         Point("Cumulative 2y", annualCashFlow * 2.0), Point("Cumulative 3y", annualCashFlow * 3.0)], None))
  }

  // ---------------------------------------------------------------------------
  // 6. Gross profit margin
  // ---------------------------------------------------------------------------

  function Margin(revenue: real, cogs: real): (r: CalcResult)
    ensures r.Failure? <==> revenue == 0.0
    ensures r.Failure? ==> r.error == "Revenue cannot be zero."
    ensures r.Success? ==>
      var rep := r.report;
      // the gross profit as a percentage of revenue
      && rep.mainValue.Fixed? && rep.mainValue.digits == 2
      && rep.mainValue.x * revenue == 100.0 * (revenue - cogs)
      && rep.unit == "%"
      && rep.details == Note("Margin Efficiency")
      && rep.chartData == [Point("Revenue", revenue), Point("COGS", cogs)]
      // the two slices of the pie make up the revenue
      && rep.pieData.Some? && |rep.pieData.value| == 2
      && rep.pieData.value[0] == Point("Costs (COGS)", cogs)
      && rep.pieData.value[1].name == "Gross Profit"
      && rep.pieData.value[0].value + rep.pieData.value[1].value == revenue
  {
    if revenue == 0.0 then Failure("Revenue cannot be zero.")
    else
      var grossProfit := revenue - cogs;
      var margin := (grossProfit / revenue) * 100.0;
      Success(Report(Fixed(margin, 2), "%", Note("Margin Efficiency"),
        [Point("Revenue", revenue), Point("COGS", cogs)],
        Some([Point("Costs (COGS)", cogs), Point("Gross Profit", grossProfit)])))
  }

  // ---------------------------------------------------------------------------
  // 7. Startup runway
  // ---------------------------------------------------------------------------

  const RunwayWarning: string := "Warning: Less than 6 months of runway left!"
  const RunwaySafe: string := "Safe zone: Sufficient runway."

  lemma FloorCovered(cash: real, burn: real)
    requires burn > 0.0
    ensures var n := Floor(cash / burn);
            n as real * burn <= cash < (n + 1) as real * burn
  {
    var u := cash / burn;
    var n := Floor(u);
    assert u * burn == cash;
    if n as real < u {
      MulStrict(n as real, u, burn);
    }
    MulStrict(u, (n + 1) as real, burn);
    assert cash < (n + 1) as real * burn;
  }

  lemma BelowSix(cash: real, burn: real)
    requires burn > 0.0
    ensures cash / burn < 6.0 <==> cash < 6.0 * burn
  {
    assert cash / burn * burn == cash;
  }

  function Runway(currentCash: real, monthlyBurn: real): (r: CalcResult)
    ensures r.Failure? <==> monthlyBurn <= 0.0
    ensures r.Failure? ==> r.error == "Monthly expenses must be greater than zero."
    ensures r.Success? ==>
      var rep := r.report;
      // whole months the cash lasts
      && rep.mainValue.Whole?
      && rep.mainValue.n as real * monthlyBurn <= currentCash < (rep.mainValue.n + 1) as real * monthlyBurn
      && rep.unit == "Months"
      // the warning is strict: exactly six months of cash is safe
      && (rep.details == Note(RunwayWarning) || rep.details == Note(RunwaySafe))
      && (rep.details == Note(RunwayWarning) <==> currentCash < 6.0 * monthlyBurn)
      && rep.chartData == [Point("Total Cash", currentCash), Point("Monthly Burn", monthlyBurn),
                           Point("6-Month Cost", 6.0 * monthlyBurn)]
      && rep.pieData.None?
  {
    if monthlyBurn <= 0.0 then Failure("Monthly expenses must be greater than zero.")
    else
      var months := currentCash / monthlyBurn;
      FloorCovered(currentCash, monthlyBurn);
      BelowSix(currentCash, monthlyBurn);
      Success(Report(Whole(Floor(months)), "Months", Note(if months < 6.0 then RunwayWarning else RunwaySafe),
        [Point("Total Cash", currentCash), Point("Monthly Burn", monthlyBurn), Point("6-Month Cost", monthlyBurn * 6.0)],
        None))
  }

  /** 90000 of cash at 15000 a month is exactly six months: safe, not a warning. */
  lemma RunwayBoundary()
    ensures Runway(90000.0, 15000.0).Success?
    ensures Runway(90000.0, 15000.0).report.mainValue == Whole(6)
    ensures Runway(90000.0, 15000.0).report.details == Note(RunwaySafe)
  {
  }
}
