/** The idea suggestions form's schema: a numeric budget, the founder's
    experience and a location. */
module IdeaSuggestions {
  import opened Numbers
  import opened Validation

  /** The schema's fields. */
  datatype Field = Budget | Experience | Location

  /** The issue each check reports, in the order zod runs them. */
  const Keys: seq<Issue<Field>> := [
    Issue(Budget, "Budget is required"),
    Issue(Budget, "Budget must be a number"),
    Issue(Experience, "Please enter at least 3 characters"),
    Issue(Location, "Location is required")
  ]

  /** No two checks report the same issue. */
  lemma KeysDistinct()
    ensures forall j, k :: 0 <= j < |Keys| && 0 <= k < |Keys| && j != k ==> Keys[j] != Keys[k]
  {
  }

  /** Whether check `k` of `Keys` fails. */
  predicate Fails(budget: string, experience: string, location: string, k: nat)
    requires k < |Keys|
  {
    match k
    case 0 => |budget| < 1
    case 1 => !DigitsOnly(budget)
    case 2 => |experience| < 3
    case _ => |location| < 2
  }

  /** The schema's checks on the form's values. */
  function Checks(budget: string, experience: string, location: string): (c: seq<Check<Field>>)
    ensures |c| == |Keys|
    ensures forall i :: 0 <= i < |Keys| ==> Reported(c[i]) == Keys[i]
    ensures forall i :: 0 <= i < |Keys| ==> (c[i].failed <==> Fails(budget, experience, location, i))
  {
    seq(|Keys|, i requires 0 <= i < |Keys| =>
      Check(Keys[i].path, Fails(budget, experience, location, i), Keys[i].message))
  }

  /** The schema's issues. */
  function Validate(budget: string, experience: string, location: string): (r: seq<Issue<Field>>)
    ensures |r| <= |Keys|
    ensures r == [] <==> forall i :: 0 <= i < |Keys| ==> !Fails(budget, experience, location, i)
  {
    Issues(Checks(budget, experience, location))
  }

  /** Check `k` reports its issue exactly when it fails. */
  lemma Reports(budget: string, experience: string, location: string, k: nat)
    requires k < |Keys|
    ensures Keys[k] in Validate(budget, experience, location) <==> Fails(budget, experience, location, k)
  {
    KeysDistinct();
    IssuesReport(Checks(budget, experience, location), k);
  }

  /** Each message is reported exactly when its check fails. */
  lemma Messages(budget: string, experience: string, location: string)
    ensures Issue(Budget, "Budget is required") in Validate(budget, experience, location) <==> budget == ""
    ensures Issue(Budget, "Budget must be a number") in Validate(budget, experience, location) <==> !DigitsOnly(budget)
    ensures Issue(Experience, "Please enter at least 3 characters") in Validate(budget, experience, location) <==>
            |experience| < 3
    ensures Issue(Location, "Location is required") in Validate(budget, experience, location) <==> |location| < 2
  {
    Reports(budget, experience, location, 0);
    Reports(budget, experience, location, 1);
    Reports(budget, experience, location, 2);
    Reports(budget, experience, location, 3);
  }

  /** An empty budget fails both of its checks; the form shows the first. */
  lemma EmptyBudget(experience: string, location: string)
    ensures Issue(Budget, "Budget is required") in Validate("", experience, location)
    ensures Issue(Budget, "Budget must be a number") in Validate("", experience, location)
    ensures FirstMessage(Validate("", experience, location), Budget) == Some("Budget is required")
  {
    Messages("", experience, location);
    FirstReported(Checks("", experience, location), 0);
  }

  /** A budget that is not empty but not a number shows the number message. */
  lemma NonNumericBudget(budget: string, experience: string, location: string)
    requires budget != "" && !DigitsOnly(budget)
    ensures FirstMessage(Validate(budget, experience, location), Budget) == Some("Budget must be a number")
  {
    FirstReported(Checks(budget, experience, location), 1);
  }

  /** The schema accepts exactly a numeric budget, at least three characters
      of experience and at least two of location. */
  lemma AcceptedIff(budget: string, experience: string, location: string)
    ensures Validate(budget, experience, location) == [] <==>
            DigitsOnly(budget) && |experience| >= 3 && |location| >= 2
  {
    assert (forall i :: 0 <= i < |Keys| ==> !Fails(budget, experience, location, i)) <==>
           !Fails(budget, experience, location, 0) && !Fails(budget, experience, location, 1) &&
           !Fails(budget, experience, location, 2) && !Fails(budget, experience, location, 3);
  }
}
