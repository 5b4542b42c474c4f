/** The password strength meter of the sign-up form: five pattern rules,
    the number met, and the colour, caption and bar width chosen from that
    number. */
module PasswordStrength {
  import opened Numbers
  import opened Validation

  /** One line of the meter's checklist. */
  datatype Requirement = Requirement(met: bool, text: string)

  /** The checklist captions, in the order the meter lists them. */
  const RuleTexts: seq<string> := [
    "At least 8 characters",
    "At least 1 number",
    "At least 1 lowercase letter",
    "At least 1 uppercase letter",
    "At least 1 special character"
  ]

  /** `checkStrength`: each rule's pattern tested against the password. */
  function CheckStrength(pass: string): (r: seq<Requirement>)
    ensures |r| == 5
    ensures forall i :: 0 <= i < 5 ==> r[i].text == RuleTexts[i]
    // `.{8,}`: eight consecutive characters, none of them a line terminator
    ensures r[0].met <==> exists i :: CleanAt(pass, i, 8)
    ensures r[1].met <==> exists i :: 0 <= i < |pass| && IsDigit(pass[i])
    ensures r[2].met <==> exists i :: 0 <= i < |pass| && IsLower(pass[i])
    ensures r[3].met <==> exists i :: 0 <= i < |pass| && IsUpper(pass[i])
    ensures r[4].met <==> exists i :: 0 <= i < |pass| && IsSpecial(pass[i])
  {
    HasRunIff(pass, 8);
    [Requirement(HasRun(pass, 8), RuleTexts[0]),
     Requirement(Test(pass, Digit), RuleTexts[1]),
     Requirement(Test(pass, Lower), RuleTexts[2]),
     Requirement(Test(pass, Upper), RuleTexts[3]),
     Requirement(Test(pass, Special), RuleTexts[4])]
  }

  /** The positions of the met requirements. */
  function MetPositions(reqs: seq<Requirement>): set<int>
  {
    set i | 0 <= i < |reqs| && reqs[i].met
  }

  /** `strength.filter((req) => req.met).length`: the number of met
      requirements. */
  function Score(reqs: seq<Requirement>): (n: nat)
    ensures n == |MetPositions(reqs)|
    ensures n <= |reqs|
    ensures n == 0 <==> forall i :: 0 <= i < |reqs| ==> !reqs[i].met
    ensures n == |reqs| <==> forall i :: 0 <= i < |reqs| ==> reqs[i].met
  {
    if reqs == [] then 0
    else
      var n := |reqs| - 1;
      var rest := Score(reqs[..n]);
      assert forall i :: 0 <= i < n ==> reqs[i] == reqs[..n][i];
      assert MetPositions(reqs) == MetPositions(reqs[..n]) + (if reqs[n].met then {n} else {});
      rest + (if reqs[n].met then 1 else 0)
  }

  /** The strength score of a password: how many of the five rules it meets. */
  function StrengthScore(pass: string): (n: nat)
    ensures n <= 5
  {
    Score(CheckStrength(pass))
  }

  /** `field.value || ""`: an absent value is checked as the empty text. */
  function StrengthInput(value: Option<string>): (s: string)
    ensures value.None? ==> s == ""
    ensures value.Some? ==> s == value.value
  {
    if value.Some? && value.value != "" then value.value else ""
  }

  /** `getStrengthColor`. */
  function StrengthColor(score: nat): (c: string)
    ensures score == 0 <==> c == "bg-border"
    ensures score == 1 <==> c == "bg-red-500"
    ensures score == 2 <==> c == "bg-orange-500"
    ensures score == 3 <==> c == "bg-amber-500"
    ensures score >= 4 <==> c == "bg-emerald-500"
  {
    if score == 0 then "bg-border"
    else if score <= 1 then "bg-red-500"
    else if score <= 2 then "bg-orange-500"
    else if score == 3 then "bg-amber-500"
    else "bg-emerald-500"
  }

  /** `getStrengthText`. */
  function StrengthText(score: nat): (t: string)
    ensures score == 0 <==> t == "Enter a password"
    ensures 1 <= score <= 2 <==> t == "Weak password"
    ensures 3 <= score <= 4 <==> t == "Medium password"
    ensures score >= 5 <==> t == "Strong password"
  {
    if score == 0 then "Enter a password"
    else if score <= 2 then "Weak password"
    else if score == 3 || score == 4 then "Medium password"
    else "Strong password"
  }

  /** The bar's width in percent, `(score / 4) * 100`, with no cap. */
  function BarWidth(score: nat): (w: real)
    ensures w == 25.0 * score as real
    ensures w > 100.0 <==> score > 4
  {
    score as real / 4.0 * 100.0
  }

  /** `field.value?.length > 0`: the meter is shown only for a non-empty
      password. */
  function PanelShown(value: Option<string>): (b: bool)
    ensures b <==> StrengthInput(value) != ""
  {
    value.Some? && |value.value| > 0
  }

  /** An empty or absent password meets no rule and asks for a password. */
  lemma EmptyPassword(value: Option<string>)
    requires value.None? || value == Some("")
    ensures StrengthScore(StrengthInput(value)) == 0
    ensures StrengthText(StrengthScore(StrengthInput(value))) == "Enter a password"
    ensures !PanelShown(value)
  {
    var r := CheckStrength("");
    assert !r[0].met && !r[1].met && !r[2].met && !r[3].met && !r[4].met;
  }

  /** A space counts as a special character. */
  lemma SpaceIsSpecial(pass: string)
    requires ' ' in pass
    ensures CheckStrength(pass)[4].met
  {
    var i :| 0 <= i < |pass| && pass[i] == ' ';
    assert IsSpecial(pass[i]);
  }

  /** For a password without line breaks the length rule is plain length. */
  lemma LengthRule(pass: string)
    requires Clean(pass)
    ensures CheckStrength(pass)[0].met <==> |pass| >= 8
  {
    HasRunIff(pass, 8);
    RunWithoutTerminators(pass, 8);
  }

  /** Meeting all five rules is the only way to a "Strong password". */
  lemma StrongIffAllRules(pass: string)
    ensures StrengthText(StrengthScore(pass)) == "Strong password" <==>
            forall i :: 0 <= i < 5 ==> CheckStrength(pass)[i].met
  {
  }

  /** Five requirements of which all but the `j`th are met: four are met. */
  lemma {:induction false} FourOfFive(r: seq<Requirement>, j: nat)
    requires |r| == 5 && j < 5 && !r[j].met
    requires forall i :: 0 <= i < 5 && i != j ==> r[i].met
    ensures |MetPositions(r)| == 4
  {
    var met := MetPositions(r);
    if j == 0 {
      assert met == {1, 2, 3, 4};
    } else if j == 1 {
      assert met == {0, 2, 3, 4};
    } else if j == 2 {
      assert met == {0, 1, 3, 4};
    } else if j == 3 {
      assert met == {0, 1, 2, 4};
    } else {
      assert met == {0, 1, 2, 3};
    }
  }

  /** Missing exactly one rule gives a "Medium password", drawn in the
      colour of a strong one. */
  lemma AllButOneRule(pass: string, j: nat)
    requires j < 5 && !CheckStrength(pass)[j].met
    requires forall i :: 0 <= i < 5 && i != j ==> CheckStrength(pass)[i].met
    ensures StrengthText(StrengthScore(pass)) == "Medium password"
    ensures StrengthColor(StrengthScore(pass)) == StrengthColor(5)
  {
    FourOfFive(CheckStrength(pass), j);
  }

  /** The caption bands in terms of how many rules the password meets. */
  lemma CaptionBands(pass: string)
    ensures var met := |MetPositions(CheckStrength(pass))|;
            && (StrengthText(StrengthScore(pass)) == "Weak password" <==> 1 <= met <= 2)
            && (StrengthText(StrengthScore(pass)) == "Medium password" <==> 3 <= met <= 4)
  {
  }
}
