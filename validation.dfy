/** What the form schemas check, stated over characters: the ASCII character
    classes of their regular expressions, an unanchored search for one
    character of a class (`/[...]/.test(s)`), runs of characters that `.`
    matches, whole-string digit patterns, and the issues a zod schema
    reports. */
module Validation {
  import opened Numbers

  /** One zod issue: the field it is reported on (each form names its
      fields with its own enumeration) and its message. */
  datatype Issue<F> = Issue(path: F, message: string)

  predicate IsDigit(c: char) { '0' <= c <= '9' }
  predicate IsLower(c: char) { 'a' <= c <= 'z' }
  predicate IsUpper(c: char) { 'A' <= c <= 'Z' }

  /** `[^A-Za-z0-9]`: anything but an ASCII letter or digit, space included. */
  predicate IsSpecial(c: char) { !IsDigit(c) && !IsLower(c) && !IsUpper(c) }

  /** The characters `.` does not match: line feed, carriage return, and the
      line and paragraph separators. */
  predicate IsLineTerminator(c: char)
  {
    c == '\n' || c == '\r' || c == '\U{2028}' || c == '\U{2029}'
  }

  /** The one-character classes the password rules search for. */
  datatype CharClass = Digit | Lower | Upper | Special

  predicate InClass(c: char, k: CharClass)
  {
    match k
    case Digit => IsDigit(c)
    case Lower => IsLower(c)
    case Upper => IsUpper(c)
    case Special => IsSpecial(c)
  }

  /** `/[class]/.test(s)`: the search succeeds at the first character of the
      class, so it succeeds iff some character of `s` is in the class. */
  function Test(s: string, k: CharClass): (b: bool)
    ensures b <==> exists i :: 0 <= i < |s| && InClass(s[i], k)
  {
    if s == [] then false
    else if InClass(s[0], k) then true
    else
      var b := Test(s[1..], k);
      assert b ==> exists i :: 0 <= i < |s| && InClass(s[i], k) by {
        if b {
          var i :| 0 <= i < |s| - 1 && InClass(s[1..][i], k);
          assert InClass(s[i + 1], k);
        }
      }
      assert (exists i :: 0 <= i < |s| && InClass(s[i], k)) ==> b by {
        if exists i :: 0 <= i < |s| && InClass(s[i], k) {
          var i :| 0 <= i < |s| && InClass(s[i], k);
          assert i > 0 && InClass(s[1..][i - 1], k);
        }
      }
      b
  }

  /** No character of `t` is a line terminator. */
  predicate Clean(t: string)
  {
    forall j :: 0 <= j < |t| ==> !IsLineTerminator(t[j])
  }

  /** The `n` characters of `s` from position `i` on exist and none is a
      line terminator. */
  predicate CleanAt(s: string, i: int, n: nat)
  {
    0 <= i && i + n <= |s| && forall j :: i <= j < i + n ==> !IsLineTerminator(s[j])
  }

  /** How many characters at the end of `s` are not line terminators. */
  function TrailingRun(s: string): (k: nat)
    ensures k <= |s|
    ensures forall j :: |s| - k <= j < |s| ==> !IsLineTerminator(s[j])
    ensures k < |s| ==> IsLineTerminator(s[|s| - 1 - k])
  {
    if s == [] then 0
    else if IsLineTerminator(s[|s| - 1]) then 0
    else
      var k := 1 + TrailingRun(s[..|s| - 1]);
      assert forall j :: |s| - k <= j < |s| - 1 ==> s[j] == s[..|s| - 1][j];
      k
  }

  /** `/.{n,}/.test(s)`, scanned from the right: some stretch ending at or
      before the end of `s` holds `n` characters `.` matches. */
  function HasRun(s: string, n: nat): bool
  {
    if n == 0 then true
    else if s == [] then false
    else TrailingRun(s) >= n || HasRun(s[..|s| - 1], n)
  }

  /** The scan succeeds iff `s` holds `n` consecutive characters that are not
      line terminators. */
  lemma {:induction false} HasRunIff(s: string, n: nat)
    ensures HasRun(s, n) <==> exists i :: CleanAt(s, i, n)
  {
    if n == 0 {
      assert CleanAt(s, 0, 0);
    } else if s != [] {
      var m := |s|;
      var p := s[..m - 1];
      HasRunIff(p, n);
      if HasRun(s, n) {
        if TrailingRun(s) >= n {
          assert CleanAt(s, m - n, n);
        } else {
          var i :| CleanAt(p, i, n);
          assert CleanAt(s, i, n);
        }
      }
      if exists i :: CleanAt(s, i, n) {
        var i :| CleanAt(s, i, n);
        if i + n == m {
          var k := TrailingRun(s);
          if k < n {
            assert false;
          }
        } else {
          assert CleanAt(p, i, n);
        }
      }
    }
  }

  /** Without line terminators, a run of `n` is just a length of `n`. */
  lemma RunWithoutTerminators(s: string, n: nat)
    requires Clean(s)
    ensures HasRun(s, n) <==> |s| >= n
  {
    HasRunIff(s, n);
    if |s| >= n {
      assert CleanAt(s, 0, n);
    }
  }

  predicate AllDigits(s: string)
  {
    forall i :: 0 <= i < |s| ==> IsDigit(s[i])
  }

  /** Scans `s` and stops at the first character that is not a digit. */
  function ScanDigits(s: string): (b: bool)
    ensures b <==> AllDigits(s)
  {
    if s == [] then true
    else if !IsDigit(s[0]) then false
    else
      var b := ScanDigits(s[1..]);
      assert AllDigits(s) ==> AllDigits(s[1..]) by {
        if AllDigits(s) {
          forall i | 0 <= i < |s| - 1 ensures IsDigit(s[1..][i]) {
            assert s[1..][i] == s[i + 1];
          }
        }
      }
      assert AllDigits(s[1..]) ==> AllDigits(s) by {
        if AllDigits(s[1..]) {
          forall i | 0 <= i < |s| ensures IsDigit(s[i]) {
            if i > 0 {
              assert s[i] == s[1..][i - 1];
            }
          }
        }
      }
      b
  }

  /** `/^[0-9]+$/.test(s)`: one or more ASCII digits and nothing else. */
  function DigitsOnly(s: string): (b: bool)
    ensures b <==> |s| >= 1 && forall i :: 0 <= i < |s| ==> '0' <= s[i] <= '9'
  {
    |s| >= 1 && ScanDigits(s)
  }

  /** `/^[0-9]{4}$/.test(s)`: exactly four ASCII digits. */
  function FourDigits(s: string): (b: bool)
    ensures b <==> |s| == 4 && forall i :: 0 <= i < 4 ==> '0' <= s[i] <= '9'
  {
    |s| == 4 && ScanDigits(s)
  }

  /** `/^\+?[0-9]\d{9,14}$/.test(s)`.  A leading "+" can only be matched by
      `\+?`, since it is not a digit; what follows must be one digit and then
      nine to fourteen more. */
  function PhonePattern(s: string): (b: bool)
    ensures b <==> ((AllDigits(s) && 10 <= |s| <= 15) ||
                    (|s| > 0 && s[0] == '+' && AllDigits(s[1..]) && 11 <= |s| <= 16))
  {
    var d := if |s| > 0 && s[0] == '+' then s[1..] else s;
    10 <= |d| <= 15 && ScanDigits(d)
  }

  /** What the form shows under a field: the first issue on that path. */
  function FirstMessage<F(==)>(issues: seq<Issue<F>>, path: F): (m: Option<string>)
    ensures m.None? <==> forall i :: 0 <= i < |issues| ==> issues[i].path != path
    ensures m.Some? ==> exists i :: 0 <= i < |issues| && issues[i] == Issue(path, m.value) &&
                                    forall j :: 0 <= j < i ==> issues[j].path != path
  {
    if issues == [] then None
    else if issues[0].path == path then Some(issues[0].message)
    else
      var m := FirstMessage(issues[1..], path);
      assert m.Some? ==> exists i :: 0 <= i < |issues| && issues[i] == Issue(path, m.value) &&
                                    forall j :: 0 <= j < i ==> issues[j].path != path by {
        if m.Some? {
          var i :| 0 <= i < |issues| - 1 && issues[1..][i] == Issue(path, m.value) &&
                   forall j :: 0 <= j < i ==> issues[1..][j].path != path;
          assert issues[i + 1] == Issue(path, m.value);
          forall j | 0 <= j < i + 1 ensures issues[j].path != path {
            if j > 0 {
              assert issues[j] == issues[1..][j - 1];
            }
          }
        }
      }
      m
  }

  /** One check of a schema: the field it guards, whether the value fails
      it, and the message it reports then. */
  datatype Check<F> = Check(path: F, failed: bool, message: string)

  /** The issue a check reports when it fails. */
  function Reported<F>(c: Check<F>): Issue<F>
  {
    Issue(c.path, c.message)
  }

  /** A zod schema runs every check (none of them aborts) and reports, in
      check order, the issue of each one that fails. */
  function Issues<F>(checks: seq<Check<F>>): (r: seq<Issue<F>>)
    ensures |r| <= |checks|
    ensures r == [] <==> forall i :: 0 <= i < |checks| ==> !checks[i].failed
  {
    if checks == [] then []
    else
      var rest := Issues(checks[1..]);
      assert forall i :: 1 <= i < |checks| ==> checks[i] == checks[1..][i - 1];
      (if checks[0].failed then [Reported(checks[0])] else []) + rest
  }

  /** A check whose issue no other check can report shows up among the
      issues exactly when it fails. */
  lemma {:induction false} IssuesReport<F>(checks: seq<Check<F>>, k: nat)
    requires k < |checks|
    requires forall j :: 0 <= j < |checks| && j != k ==> Reported(checks[j]) != Reported(checks[k])
    ensures Reported(checks[k]) in Issues(checks) <==> checks[k].failed
  {
    if k > 0 {
      var rest := checks[1..];
      forall j | 0 <= j < |rest| && j != k - 1
        ensures Reported(rest[j]) != Reported(rest[k - 1])
      {
        assert rest[j] == checks[j + 1];
      }
      IssuesReport(rest, k - 1);
      assert rest[k - 1] == checks[k];
    } else if !checks[0].failed {
      NotReported(checks[1..], Reported(checks[0]));
    }
  }

  /** An issue no check reports is not among the issues. */
  lemma {:induction false} NotReported<F>(checks: seq<Check<F>>, x: Issue<F>)
    requires forall j :: 0 <= j < |checks| ==> Reported(checks[j]) != x
    ensures x !in Issues(checks)
  {
    if checks != [] {
      var rest := checks[1..];
      forall j | 0 <= j < |rest| ensures Reported(rest[j]) != x {
        assert rest[j] == checks[j + 1];
      }
      NotReported(rest, x);
    }
  }

  /** The message shown under a field is that of the first failing check on
      the field. */
  lemma {:induction false} FirstReported<F>(checks: seq<Check<F>>, k: nat)
    requires k < |checks| && checks[k].failed
    requires forall j :: 0 <= j < k && checks[j].path == checks[k].path ==> !checks[j].failed
    ensures FirstMessage(Issues(checks), checks[k].path) == Some(checks[k].message)
  {
    var rest := checks[1..];
    var r := Issues(checks);
    if k == 0 {
      assert r[0] == Reported(checks[0]);
    } else {
      forall j | 0 <= j < k - 1 && rest[j].path == rest[k - 1].path
        ensures !rest[j].failed
      {
        assert rest[j] == checks[j + 1];
      }
      assert rest[k - 1] == checks[k];
      FirstReported(rest, k - 1);
      if checks[0].failed {
        assert r == [Reported(checks[0])] + Issues(rest);
        assert r[0].path != checks[k].path;
        assert r[1..] == Issues(rest);
      } else {
        assert r == Issues(rest);
      }
    }
  }

  /** Nothing is shown under a field exactly when none of its checks fails. */
  lemma {:induction false} NoneShown<F>(checks: seq<Check<F>>, path: F)
    ensures FirstMessage(Issues(checks), path).None? <==>
            forall i :: 0 <= i < |checks| && checks[i].path == path ==> !checks[i].failed
  {
    if checks != [] {
      var rest := checks[1..];
      NoneShown(rest, path);
      var r := Issues(checks);
      if checks[0].failed {
        assert r == [Reported(checks[0])] + Issues(rest);
        assert r[1..] == Issues(rest);
      } else {
        assert r == Issues(rest);
      }
      assert forall i :: 1 <= i < |checks| ==> checks[i] == rest[i - 1];
    }
  }
}
