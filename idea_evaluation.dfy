/** The idea evaluation form's schema: three required selections and six
    numeric texts, each checked by a whole-string pattern. */
module IdeaEvaluation {
  import opened Numbers
  import opened Validation

  /** The schema's fields. */
  datatype Field = Industry | Region | FundingRounds | FundingAmount | Valuation
                 | Revenue | Employees | MarketShare | YearFounded

  /** The form's values, all texts. */
  datatype IdeaForm = IdeaForm(
    industry: string,
    region: string,
    fundingRounds: string,
    fundingAmount: string,
    valuation: string,
    revenue: string,
    employees: string,
    marketShare: string,
    yearFounded: string)

  /** The issue each field's single check reports, in declaration order. */
  const Keys: seq<Issue<Field>> := [
    Issue(Industry, "Industry is required"),
    Issue(Region, "Region is required"),
    Issue(FundingRounds, "Funding rounds required"),
    Issue(FundingAmount, "Numbers only"),
    Issue(Valuation, "Numbers only"),
    Issue(Revenue, "Numbers only"),
    Issue(Employees, "Numbers only"),
    Issue(MarketShare, "Percentage only"),
    Issue(YearFounded, "Year must be 4 digits")
  ]

  /** Every check is on a field of its own, so no two report the same issue. */
  lemma KeysDistinct()
    ensures forall j, k :: 0 <= j < |Keys| && 0 <= k < |Keys| && j != k ==> Keys[j] != Keys[k]
  {
  }

  /** Whether check `k` of `Keys` fails. */
  predicate Fails(f: IdeaForm, k: nat)
    requires k < |Keys|
  {
    match k
    case 0 => |f.industry| < 1
    case 1 => |f.region| < 1
    case 2 => |f.fundingRounds| < 1
    case 3 => !DigitsOnly(f.fundingAmount)
    case 4 => !DigitsOnly(f.valuation)
    case 5 => !DigitsOnly(f.revenue)
    case 6 => !DigitsOnly(f.employees)
    case 7 => !DigitsOnly(f.marketShare)
    case _ => !FourDigits(f.yearFounded)
  }

  /** The schema's checks on a form. */
  function Checks(f: IdeaForm): (c: seq<Check<Field>>)
    ensures |c| == |Keys|
    ensures forall i :: 0 <= i < |Keys| ==> Reported(c[i]) == Keys[i]
    ensures forall i :: 0 <= i < |Keys| ==> (c[i].failed <==> Fails(f, i))
  {
    seq(|Keys|, i requires 0 <= i < |Keys| => Check(Keys[i].path, Fails(f, i), Keys[i].message))
  }

  /** The schema's issues. */
  function Validate(f: IdeaForm): (r: seq<Issue<Field>>)
    ensures |r| <= |Keys|
    ensures r == [] <==> forall i :: 0 <= i < |Keys| ==> !Fails(f, i)
  {
    Issues(Checks(f))
  }

  /** Check `k` reports its issue exactly when it fails. */
  lemma Reports(f: IdeaForm, k: nat)
    requires k < |Keys|
    ensures Keys[k] in Validate(f) <==> Fails(f, k)
  {
    KeysDistinct();
    IssuesReport(Checks(f), k);
  }

  /** Each field's message is reported exactly when its value is wrong. */
  lemma Messages(f: IdeaForm)
    ensures Issue(Industry, "Industry is required") in Validate(f) <==> f.industry == ""
    ensures Issue(Region, "Region is required") in Validate(f) <==> f.region == ""
    ensures Issue(FundingRounds, "Funding rounds required") in Validate(f) <==> f.fundingRounds == ""
    ensures Issue(FundingAmount, "Numbers only") in Validate(f) <==> !DigitsOnly(f.fundingAmount)
    ensures Issue(Valuation, "Numbers only") in Validate(f) <==> !DigitsOnly(f.valuation)
    ensures Issue(Revenue, "Numbers only") in Validate(f) <==> !DigitsOnly(f.revenue)
    ensures Issue(Employees, "Numbers only") in Validate(f) <==> !DigitsOnly(f.employees)
    ensures Issue(MarketShare, "Percentage only") in Validate(f) <==> !DigitsOnly(f.marketShare)
    ensures Issue(YearFounded, "Year must be 4 digits") in Validate(f) <==> !FourDigits(f.yearFounded)
  {
    Reports(f, 0);
    Reports(f, 1);
    Reports(f, 2);
    Reports(f, 3);
    Reports(f, 4);
    Reports(f, 5);
    Reports(f, 6);
    Reports(f, 7);
    Reports(f, 8);
  }

  /** What an acceptable evaluation form looks like. */
  predicate Acceptable(f: IdeaForm)
  {
    && f.industry != "" && f.region != "" && f.fundingRounds != ""
    && DigitsOnly(f.fundingAmount) && DigitsOnly(f.valuation)
    && DigitsOnly(f.revenue) && DigitsOnly(f.employees)
    && DigitsOnly(f.marketShare) && FourDigits(f.yearFounded)
  }

  /** The schema accepts exactly the acceptable forms. */
  lemma AcceptedIff(f: IdeaForm)
    ensures Validate(f) == [] <==> Acceptable(f)
  {
    assert (forall i :: 0 <= i < |Keys| ==> !Fails(f, i)) <==>
           !Fails(f, 0) && !Fails(f, 1) && !Fails(f, 2) && !Fails(f, 3) && !Fails(f, 4) &&
           !Fails(f, 5) && !Fails(f, 6) && !Fails(f, 7) && !Fails(f, 8);
  }

  /** The checks look at the form of a text only: the funding rounds need
      not be a number, the market share is not held to 100 and the founding
      year may be "0000". */
  lemma OnlyTheFormIsChecked(f: IdeaForm)
    requires f.fundingRounds == "Seed" && f.marketShare == "250" && f.yearFounded == "0000"
    ensures Issue(FundingRounds, "Funding rounds required") !in Validate(f)
    ensures Issue(MarketShare, "Percentage only") !in Validate(f)
    ensures Issue(YearFounded, "Year must be 4 digits") !in Validate(f)
  {
    Reports(f, 2);
    Reports(f, 7);
    Reports(f, 8);
    assert DigitsOnly(f.marketShare);
    assert FourDigits(f.yearFounded);
  }
}
