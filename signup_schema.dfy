/** The sign-up schema: length bounds on the names, the phone number pattern,
    the password rules and the confirmation check.  Whether a text is a
    well-formed email address is decided by zod's `z.email()` and arrives
    here as a boolean. */
module SignupSchema {
  import opened Numbers
  import opened Validation
  import PasswordStrength

  /** The schema's fields. */
  datatype Field = FirstName | LastName | UserName | Email | PhoneNumber | Password | PasswordConfirm

  /** `z.string().optional().nullable()`: missing, null or a text. */
  datatype OptionalText = Absent | Null | Text(text: string)

  datatype SignupForm = SignupForm(
    firstName: string,
    lastName: OptionalText,
    userName: string,
    email: string,
    phoneNumber: string,
    password: string,
    passwordConfirm: string)

  const FirstNameShort: string := "FirstName must be at least 2 characters."
  const UserNameShort: string := "UserName must be at least 2 characters."
  const EmailInvalid: string := "Please enter a valid email address."
  const PhoneRequired: string := "Please enter phone number"
  const PhoneInvalid: string := "Invalid phone number"
  const PasswordShort: string := "Password must be at least 8 characters"
  const PasswordLong: string := "Password must be at most 72 characters"
  const NoNumber: string := "Password must contain at least one number"
  const NoLower: string := "Password must contain at least one lowercase letter"
  const NoUpper: string := "Password must contain at least one uppercase letter"
  const NoSpecial: string := "Password must contain at least one special character"
  const Mismatch: string := "Passwords do not match"

  /** The issue each check reports, in the order zod runs the checks: the
      fields in declaration order (the last name has none), each field's
      checks in chain order, then the object-level confirmation check. */
  const Keys: seq<Issue<Field>> := [
    Issue(FirstName, FirstNameShort),
    Issue(UserName, UserNameShort),
    Issue(Email, EmailInvalid),
    Issue(PhoneNumber, PhoneRequired),
    Issue(PhoneNumber, PhoneInvalid),
    Issue(Password, PasswordShort),
    Issue(Password, PasswordLong),
    Issue(Password, NoNumber),
    Issue(Password, NoLower),
    Issue(Password, NoUpper),
    Issue(Password, NoSpecial),
    Issue(PasswordConfirm, Mismatch)
  ]

  /** No two checks report the same issue. */
  lemma KeysDistinct()
    ensures forall j, k :: 0 <= j < |Keys| && 0 <= k < |Keys| && j != k ==> Keys[j] != Keys[k]
  {
    assert PasswordShort[20] != PasswordLong[20];
    assert NoLower[35] != NoUpper[35];
  }

  /** Whether check `k` of `Keys` fails on a form.  Every field is a string,
      so the refinement runs even when a field has failed. */
  predicate Fails(f: SignupForm, emailValid: bool, k: nat)
    requires k < |Keys|
  {
    match k
    case 0 => |f.firstName| < 2
    case 1 => |f.userName| < 2
    case 2 => !emailValid
    case 3 => f.phoneNumber == ""
    case 4 => !PhonePattern(f.phoneNumber)
    case 5 => |f.password| < 8
    case 6 => |f.password| > 72
    case 7 => !Test(f.password, Digit)
    case 8 => !Test(f.password, Lower)
    case 9 => !Test(f.password, Upper)
    case 10 => !Test(f.password, Special)
    case _ => f.password != f.passwordConfirm
  }

  /** The schema's checks on a form. */
  function Checks(f: SignupForm, emailValid: bool): (c: seq<Check<Field>>)
    ensures |c| == |Keys|
    ensures forall i :: 0 <= i < |Keys| ==> Reported(c[i]) == Keys[i]
    ensures forall i :: 0 <= i < |Keys| ==> (c[i].failed <==> Fails(f, emailValid, i))
  {
    seq(|Keys|, i requires 0 <= i < |Keys| => Check(Keys[i].path, Fails(f, emailValid, i), Keys[i].message))
  }

  /** Check `k` reports its issue exactly when it fails. */
  lemma Reports(f: SignupForm, emailValid: bool, k: nat)
    requires k < |Keys|
    ensures Keys[k] in Validate(f, emailValid) <==> Fails(f, emailValid, k)
  {
    KeysDistinct();
    IssuesReport(Checks(f, emailValid), k);
  }

  /** `formSchema.safeParse`: the issues of a sign-up form. */
  function Validate(f: SignupForm, emailValid: bool): (r: seq<Issue<Field>>)
    ensures |r| <= |Keys|
    ensures r == [] <==> forall i :: 0 <= i < |Keys| ==> !Fails(f, emailValid, i)
  {
    Issues(Checks(f, emailValid))
  }

  /** Each check reports its message exactly when it fails; in particular an
      empty phone number collects both phone messages, and a mismatch is
      reported whatever else is wrong. */
  lemma FieldMessages(f: SignupForm, emailValid: bool)
    ensures Issue(FirstName, FirstNameShort) in Validate(f, emailValid) <==> |f.firstName| < 2
    ensures Issue(UserName, UserNameShort) in Validate(f, emailValid) <==> |f.userName| < 2
    ensures Issue(Email, EmailInvalid) in Validate(f, emailValid) <==> !emailValid
    ensures Issue(PhoneNumber, PhoneRequired) in Validate(f, emailValid) <==> f.phoneNumber == ""
    ensures Issue(PhoneNumber, PhoneInvalid) in Validate(f, emailValid) <==> !PhonePattern(f.phoneNumber)
    ensures Issue(PasswordConfirm, Mismatch) in Validate(f, emailValid) <==> f.password != f.passwordConfirm
  {
    Reports(f, emailValid, 0);
    Reports(f, emailValid, 1);
    Reports(f, emailValid, 2);
    Reports(f, emailValid, 3);
    Reports(f, emailValid, 4);
    Reports(f, emailValid, 11);
  }

  /** The six password checks report their messages exactly when they fail. */
  lemma PasswordMessages(f: SignupForm, emailValid: bool)
    ensures Issue(Password, PasswordShort) in Validate(f, emailValid) <==> |f.password| < 8
    ensures Issue(Password, PasswordLong) in Validate(f, emailValid) <==> |f.password| > 72
    ensures Issue(Password, NoNumber) in Validate(f, emailValid) <==> !Test(f.password, Digit)
    ensures Issue(Password, NoLower) in Validate(f, emailValid) <==> !Test(f.password, Lower)
    ensures Issue(Password, NoUpper) in Validate(f, emailValid) <==> !Test(f.password, Upper)
    ensures Issue(Password, NoSpecial) in Validate(f, emailValid) <==> !Test(f.password, Special)
  {
    Reports(f, emailValid, 5);
    Reports(f, emailValid, 6);
    Reports(f, emailValid, 7);
    Reports(f, emailValid, 8);
    Reports(f, emailValid, 9);
    Reports(f, emailValid, 10);
  }

  /** Under the password field the form shows the first failing rule: a
      short password is asked to be longer before anything else. */
  lemma ShortPasswordShown(f: SignupForm, emailValid: bool)
    requires |f.password| < 8
    ensures FirstMessage(Validate(f, emailValid), Password) == Some(PasswordShort)
  {
    FirstReported(Checks(f, emailValid), 5);
  }

  /** A password the schema takes, stated over characters. */
  predicate PasswordAcceptable(pw: string)
  {
    && 8 <= |pw| <= 72
    && (exists i :: 0 <= i < |pw| && IsDigit(pw[i]))
    && (exists i :: 0 <= i < |pw| && IsLower(pw[i]))
    && (exists i :: 0 <= i < |pw| && IsUpper(pw[i]))
    && (exists i :: 0 <= i < |pw| && IsSpecial(pw[i]))
  }

  /** What an acceptable sign-up looks like, stated over characters. */
  predicate Acceptable(f: SignupForm, emailValid: bool)
  {
    && |f.firstName| >= 2
    && |f.userName| >= 2
    && emailValid
    && ((AllDigits(f.phoneNumber) && 10 <= |f.phoneNumber| <= 15) ||
        (|f.phoneNumber| > 0 && f.phoneNumber[0] == '+' && AllDigits(f.phoneNumber[1..]) && 11 <= |f.phoneNumber| <= 16))
    && PasswordAcceptable(f.password)
    && f.password == f.passwordConfirm
  }

  /** The six password checks all pass exactly on an acceptable password. */
  lemma PasswordChecksPass(f: SignupForm, emailValid: bool)
    ensures (forall i :: 5 <= i < 11 ==> !Fails(f, emailValid, i)) <==> PasswordAcceptable(f.password)
  {
    assert (forall i :: 5 <= i < 11 ==> !Fails(f, emailValid, i)) <==>
           !Fails(f, emailValid, 5) && !Fails(f, emailValid, 6) && !Fails(f, emailValid, 7) &&
           !Fails(f, emailValid, 8) && !Fails(f, emailValid, 9) && !Fails(f, emailValid, 10);
  }

  /** The schema accepts exactly the acceptable forms, whatever the last name. */
  lemma AcceptedIff(f: SignupForm, emailValid: bool)
    ensures Validate(f, emailValid) == [] <==> Acceptable(f, emailValid)
  {
    PasswordChecksPass(f, emailValid);
    assert (forall i :: 0 <= i < |Keys| ==> !Fails(f, emailValid, i)) <==>
           !Fails(f, emailValid, 0) && !Fails(f, emailValid, 1) && !Fails(f, emailValid, 2) &&
           !Fails(f, emailValid, 3) && !Fails(f, emailValid, 4) &&
           (forall i :: 5 <= i < 11 ==> !Fails(f, emailValid, i)) && !Fails(f, emailValid, 11);
  }

  /** No message is shown under the password exactly when the password is
      acceptable. */
  lemma PasswordShownIff(f: SignupForm, emailValid: bool)
    ensures FirstMessage(Validate(f, emailValid), Password).None? <==> PasswordAcceptable(f.password)
  {
    var c := Checks(f, emailValid);
    NoneShown(c, Password);
    forall i | 0 <= i < |c| ensures c[i].path == Password <==> 5 <= i < 11 {
      assert c[i].path == Keys[i].path;
    }
    PasswordChecksPass(f, emailValid);
  }

  /** A password the schema takes scores full marks on the strength meter;
      the converse holds up to the 72-character maximum, for a password
      without line breaks (`.{8,}` does not count across them). */
  lemma SchemaAgreesWithMeter(pw: string)
    requires Clean(pw)
    ensures PasswordAcceptable(pw) <==> PasswordStrength.StrengthScore(pw) == 5 && |pw| <= 72
  {
    PasswordStrength.LengthRule(pw);
    var r := PasswordStrength.CheckStrength(pw);
    assert PasswordStrength.StrengthScore(pw) == 5 <==> forall i :: 0 <= i < 5 ==> r[i].met;
  }
}
