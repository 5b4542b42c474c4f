/** The create-account form: its four password requirements, the live
    checklist built from them, and the zod schema over name, email and
    password.  Whether a text is a well-formed email address is decided by
    zod's `.email()` and arrives here as a boolean. */
module CreateAccount {
  import opened Numbers
  import opened Validation

  /** The schema's fields. */
  datatype Field = Name | Email | Password

  /** One entry of `passwordRequirements`: its key and the message shown. */
  datatype Rule = Rule(key: string, msg: string)

  const Rules: seq<Rule> := [
    Rule("minLength", "At least 8 characters"),
    Rule("number", "At least 1 number"),
    Rule("lower", "At least 1 lowercase letter"),
    Rule("upper", "At least 1 uppercase letter")
  ]

  /** The `test` of requirement `i`; `/\d/` matches ASCII digits only. */
  function Passes(i: nat, s: string): (b: bool)
    requires i < |Rules|
    ensures i == 0 ==> (b <==> |s| >= 8)
    ensures i == 1 ==> (b <==> exists j :: 0 <= j < |s| && '0' <= s[j] <= '9')
    ensures i == 2 ==> (b <==> exists j :: 0 <= j < |s| && 'a' <= s[j] <= 'z')
    ensures i == 3 ==> (b <==> exists j :: 0 <= j < |s| && 'A' <= s[j] <= 'Z')
  {
    if i == 0 then |s| >= 8
    else if i == 1 then Test(s, Digit)
    else if i == 2 then Test(s, Lower)
    else Test(s, Upper)
  }

  /** `passwordRequirements.every((r) => r.test(pw))`, checked in order. */
  function MeetsRequirements(pw: string): (b: bool)
    ensures b <==> forall i :: 0 <= i < |Rules| ==> Passes(i, pw)
  {
    Passes(0, pw) && Passes(1, pw) && Passes(2, pw) && Passes(3, pw)
  }

  /** The live checklist, evaluated on `pwValue || ""`: each rule's key and
      whether the current password passes it. */
  function Checklist(pwValue: Option<string>): (r: seq<(string, bool)>)
    ensures |r| == |Rules|
    ensures forall i :: 0 <= i < |Rules| ==> r[i].0 == Rules[i].key
    ensures pwValue.Some? ==> forall i :: 0 <= i < |Rules| ==> (r[i].1 <==> Passes(i, pwValue.value))
    // an absent or empty password passes nothing
    ensures (pwValue.None? || pwValue == Some("")) ==> forall i :: 0 <= i < |Rules| ==> !r[i].1
  {
    var s := if pwValue.Some? then pwValue.value else "";
    seq(|Rules|, i requires 0 <= i < |Rules| => (Rules[i].key, Passes(i, s)))
  }

  /** The issue each check reports, in the order zod runs them: the fields
      in declaration order, each field's checks in chain order.  A short
      password fails both of its checks, so it collects both messages. */
  const Keys: seq<Issue<Field>> := [
    Issue(Name, "Name is required"),
    Issue(Email, "Email is required"),
    Issue(Email, "Enter a valid email"),
    Issue(Password, "Password must be at least 8 characters"),
    Issue(Password, "Password does not meet requirements")
  ]

  /** Whether check `k` of `Keys` fails. */
  predicate Fails(name: string, email: string, password: string, emailValid: bool, k: nat)
    requires k < |Keys|
  {
    match k
    case 0 => name == ""
    case 1 => email == ""
    case 2 => !emailValid
    case 3 => |password| < 8
    case _ => !MeetsRequirements(password)
  }

  /** The schema's checks on the form's values. */
  function Checks(name: string, email: string, password: string, emailValid: bool): (c: seq<Check<Field>>)
    ensures |c| == |Keys|
    ensures forall i :: 0 <= i < |Keys| ==> Reported(c[i]) == Keys[i]
    ensures forall i :: 0 <= i < |Keys| ==> (c[i].failed <==> Fails(name, email, password, emailValid, i))
  {
    seq(|Keys|, i requires 0 <= i < |Keys| =>
      Check(Keys[i].path, Fails(name, email, password, emailValid, i), Keys[i].message))
  }

  /** The whole schema's issues. */
  function Validate(name: string, email: string, password: string, emailValid: bool): (r: seq<Issue<Field>>)
    ensures |r| <= |Keys|
    ensures r == [] <==> forall i :: 0 <= i < |Keys| ==> !Fails(name, email, password, emailValid, i)
  {
    Issues(Checks(name, email, password, emailValid))
  }

  /** No two checks report the same issue. */
  lemma KeysDistinct()
    ensures forall j, k :: 0 <= j < |Keys| && 0 <= k < |Keys| && j != k ==> Keys[j] != Keys[k]
  {
  }

  /** Check `k` reports its issue exactly when it fails. */
  lemma Reports(name: string, email: string, password: string, emailValid: bool, k: nat)
    requires k < |Keys|
    ensures Keys[k] in Validate(name, email, password, emailValid) <==> Fails(name, email, password, emailValid, k)
  {
    KeysDistinct();
    IssuesReport(Checks(name, email, password, emailValid), k);
  }

  /** Each check reports its message exactly when it fails. */
  lemma Messages(name: string, email: string, password: string, emailValid: bool)
    ensures Issue(Name, "Name is required") in Validate(name, email, password, emailValid) <==> name == ""
    ensures Issue(Email, "Email is required") in Validate(name, email, password, emailValid) <==> email == ""
    ensures Issue(Email, "Enter a valid email") in Validate(name, email, password, emailValid) <==> !emailValid
    ensures Issue(Password, "Password must be at least 8 characters") in Validate(name, email, password, emailValid) <==>
            |password| < 8
    ensures Issue(Password, "Password does not meet requirements") in Validate(name, email, password, emailValid) <==>
            !MeetsRequirements(password)
  {
    Reports(name, email, password, emailValid, 0);
    Reports(name, email, password, emailValid, 1);
    Reports(name, email, password, emailValid, 2);
    Reports(name, email, password, emailValid, 3);
    Reports(name, email, password, emailValid, 4);
  }

  /** Under the password the form shows the length message first. */
  lemma ShortPasswordShown(name: string, email: string, password: string, emailValid: bool)
    requires |password| < 8
    ensures FirstMessage(Validate(name, email, password, emailValid), Password) ==
            Some("Password must be at least 8 characters")
  {
    FirstReported(Checks(name, email, password, emailValid), 3);
  }

  /** The form is accepted iff every field rule holds. */
  lemma AcceptedIff(name: string, email: string, password: string, emailValid: bool)
    ensures Validate(name, email, password, emailValid) == [] <==>
            name != "" && email != "" && emailValid && MeetsRequirements(password)
  {
    assert (forall i :: 0 <= i < |Keys| ==> !Fails(name, email, password, emailValid, i)) <==>
           !Fails(name, email, password, emailValid, 0) && !Fails(name, email, password, emailValid, 1) &&
           !Fails(name, email, password, emailValid, 2) && !Fails(name, email, password, emailValid, 3) &&
           !Fails(name, email, password, emailValid, 4);
  }

  /** No special character is needed here: "Password1" is accepted. */
  lemma NoSpecialCharacterNeeded()
    ensures MeetsRequirements("Password1")
  {
    var s := "Password1";
    assert s[8] == '1' && s[1] == 'a' && s[0] == 'P';
  }
}
