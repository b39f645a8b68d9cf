/**
 * The request schemas of Backend/src/routes/auth.ts: the signup payload (name,
 * email, password) and the signin payload (email, password), each field with its
 * ordered checks and messages, and the presence pre-checks the handlers run
 * before parsing.
 */
module AuthSchema {
  import opened JsonValue
  import opened Text
  import opened Validation

  datatype SignupBody = SignupBody(name: Value, email: Value, password: Value)

  datatype SigninBody = SigninBody(email: Value, password: Value)

  /** `/^[a-zA-Z\s]+$/`, one character. */
  predicate IsNameChar(c: char) { IsLetter(c) || IsWhiteSpace(c) }

  predicate NameCharacters(n: string) { |n| > 0 && All(n, IsNameChar) }

  /*
   * The email format check, `/^(?!\.)(?!.*\.\.)([A-Z0-9_'+\-\.]*)[A-Z0-9_+-]@([A-Z0-9][A-Z0-9\-]*\.)+[A-Z]{2,}$/i`:
   * a local part, one `@`, then dot-terminated labels and a top-level name of
   * at least two letters; no leading dot and no two dots in a row. The `i` flag
   * lets every letter class match both cases (and only ASCII letters).
   */

  predicate IsLocalChar(c: char)
  {
    IsAlphanumeric(c) || c == '_' || c == '\'' || c == '+' || c == '-' || c == '.'
  }

  predicate IsLocalLastChar(c: char)
  {
    IsAlphanumeric(c) || c == '_' || c == '+' || c == '-'
  }

  predicate IsLabelChar(c: char) { IsAlphanumeric(c) || c == '-' }

  predicate IsAt(c: char) { c == '@' }

  predicate LocalPart(s: string)
  {
    |s| > 0 && s[0] != '.' && All(s[..|s| - 1], IsLocalChar) && IsLocalLastChar(s[|s| - 1])
  }

  predicate Label(s: string)
  {
    |s| > 0 && IsAlphanumeric(s[0]) && All(s, IsLabelChar)
  }

  predicate TopLevel(s: string)
  {
    |s| >= 2 && All(s, IsLetter)
  }

  /** Zero or more `label.` groups followed by the top-level name. */
  predicate LabelsThenTopLevel(s: string)
    decreases |s|
  {
    var j := FirstIndex(s, IsDot);
    if j == |s| then TopLevel(s)
    else Label(s[..j]) && LabelsThenTopLevel(s[j + 1..])
  }

  /** One or more `label.` groups followed by the top-level name. */
  predicate Domain(s: string)
  {
    var i := FirstIndex(s, IsDot);
    i < |s| && Label(s[..i]) && LabelsThenTopLevel(s[i + 1..])
  }

  predicate HasDoubleDot(s: string)
  {
    exists i :: 0 <= i < |s| - 1 && s[i] == '.' && s[i + 1] == '.'
  }

  /** The local part has no `@` and neither has the domain, so the split is at the first `@`. */
  predicate IsEmail(s: string)
  {
    var a := FirstIndex(s, IsAt);
    a < |s| && LocalPart(s[..a]) && Domain(s[a + 1..]) && !HasDoubleDot(s)
  }

  predicate IsPasswordSpecial(c: char)
  {
    c == '@' || c == '$' || c == '!' || c == '%' || c == '*' || c == '?' || c == '&'
  }

  predicate IsPasswordChar(c: char) { IsAlphanumeric(c) || IsPasswordSpecial(c) }

  /** `/^(?=.*[A-Z])(?=.*[a-z])(?=.*\d)(?=.*[@$!%*?&])[A-Za-z\d@$!%*?&]+$/`. */
  predicate StrongPassword(p: string)
  {
    && |p| > 0 && All(p, IsPasswordChar)
    && Any(p, IsUpper) && Any(p, IsLower) && Any(p, IsDigit) && Any(p, IsPasswordSpecial)
  }

  const NameChecks: seq<Check<string>> := [
    Check(n => |n| >= 2, "Name must be at least 2 characters"),
    Check(n => |n| <= 50, "Name too long"),
    Check(NameCharacters, "Name can only contain letters and spaces")
  ]

  const EmailChecks: seq<Check<string>> := [
    Check(IsEmail, "Invalid email format"),
    Check(e => |e| <= 100, "Email too long"),
    Check(e => ' ' !in e, "Email cannot contain spaces")
  ]

  const SignupPasswordChecks: seq<Check<string>> := [
    Check(p => |p| >= 8, "Password must be at least 8 characters"),
    Check(p => |p| <= 14, "Password cannot exceed 14 characters"),
    Check(StrongPassword, "Password must contain uppercase, lowercase, number and special character")
  ]

  const SigninPasswordChecks: seq<Check<string>> := [
    Check(p => |p| >= 8, "Password must be at least 8 characters"),
    Check(p => |p| <= 14, "Password cannot exceed 14 characters")
  ]

  /** Every issue of `userPayloadSchema.safeParse`, in field order then check order. */
  function SignupIssues(b: SignupBody): seq<string>
  {
    StringField(b.name, NameChecks)
    + StringField(b.email, EmailChecks)
    + StringField(b.password, SignupPasswordChecks)
  }

  /** Every issue of `signinPayloadSchema.safeParse`. */
  function SigninIssues(b: SigninBody): seq<string>
  {
    StringField(b.email, EmailChecks) + StringField(b.password, SigninPasswordChecks)
  }

  predicate ValidName(n: string) { 2 <= |n| <= 50 && All(n, IsNameChar) }

  predicate ValidEmail(e: string) { IsEmail(e) && |e| <= 100 && ' ' !in e }

  predicate ValidSignupPassword(p: string) { 8 <= |p| <= 14 && StrongPassword(p) }

  predicate ValidSigninPassword(p: string) { 8 <= |p| <= 14 }

  predicate ValidSignup(b: SignupBody)
  {
    && b.name.Str? && ValidName(b.name.s)
    && b.email.Str? && ValidEmail(b.email.s)
    && b.password.Str? && ValidSignupPassword(b.password.s)
  }

  predicate ValidSignin(b: SigninBody)
  {
    b.email.Str? && ValidEmail(b.email.s) && b.password.Str? && ValidSigninPassword(b.password.s)
  }

  const SignupRequiredMessage := "Name, email and password are required"

  const SigninRequiredMessage := "Email and password are required"

  /** The signup pre-check `!name || !email || !password`. */
  predicate SignupMissingField(b: SignupBody)
  {
    !Truthy(b.name) || !Truthy(b.email) || !Truthy(b.password)
  }

  /** The signin pre-check `!email || !password`. */
  predicate SigninMissingField(b: SigninBody)
  {
    !Truthy(b.email) || !Truthy(b.password)
  }

  /** Three checks hold exactly when each of them does. */
  lemma ThreeChecks<T>(x: T, checks: seq<Check<T>>)
    requires |checks| == 3
    ensures (forall i :: 0 <= i < |checks| ==> checks[i].holds(x))
            <==> checks[0].holds(x) && checks[1].holds(x) && checks[2].holds(x)
  {
    if checks[0].holds(x) && checks[1].holds(x) && checks[2].holds(x) {
      forall i | 0 <= i < |checks| ensures checks[i].holds(x) {
        assert i == 0 || i == 1 || i == 2;
      }
    }
  }

  lemma NameIssuesEmpty(v: Value)
    ensures StringField(v, NameChecks) == [] <==> v.Str? && ValidName(v.s)
  {
    if v.Str? {
      var n := v.s;
      ThreeChecks(n, NameChecks);
      assert NameChecks[0].holds(n) == (|n| >= 2);
      assert NameChecks[1].holds(n) == (|n| <= 50);
      assert NameChecks[2].holds(n) == NameCharacters(n);
    }
  }

  lemma EmailIssuesEmpty(v: Value)
    ensures StringField(v, EmailChecks) == [] <==> v.Str? && ValidEmail(v.s)
  {
    if v.Str? {
      var e := v.s;
      ThreeChecks(e, EmailChecks);
      assert EmailChecks[0].holds(e) == IsEmail(e);
      assert EmailChecks[1].holds(e) == (|e| <= 100);
      assert EmailChecks[2].holds(e) == (' ' !in e);
    }
  }

  lemma SignupPasswordIssuesEmpty(v: Value)
    ensures StringField(v, SignupPasswordChecks) == [] <==> v.Str? && ValidSignupPassword(v.s)
  {
    if v.Str? {
      var p := v.s;
      ThreeChecks(p, SignupPasswordChecks);
      assert SignupPasswordChecks[0].holds(p) == (|p| >= 8);
      assert SignupPasswordChecks[1].holds(p) == (|p| <= 14);
      assert SignupPasswordChecks[2].holds(p) == StrongPassword(p);
    }
  }

  lemma SigninPasswordIssuesEmpty(v: Value)
    ensures StringField(v, SigninPasswordChecks) == [] <==> v.Str? && ValidSigninPassword(v.s)
  {
    if v.Str? {
      var p := v.s;
      assert SigninPasswordChecks[0].holds(p) == (|p| >= 8);
      assert SigninPasswordChecks[1].holds(p) == (|p| <= 14);
      if 8 <= |p| <= 14 {
        forall i | 0 <= i < |SigninPasswordChecks| ensures SigninPasswordChecks[i].holds(p) {
          assert i == 0 || i == 1;
        }
      }
    }
  }

  /** The signup schema reports no issue exactly for the payloads of ValidSignup. */
  lemma SignupIssuesEmptyIffValid(b: SignupBody)
    ensures SignupIssues(b) == [] <==> ValidSignup(b)
  {
    NameIssuesEmpty(b.name);
    EmailIssuesEmpty(b.email);
    SignupPasswordIssuesEmpty(b.password);
  }

  /** The signin schema reports no issue exactly for the payloads of ValidSignin. */
  lemma SigninIssuesEmptyIffValid(b: SigninBody)
    ensures SigninIssues(b) == [] <==> ValidSignin(b)
  {
    EmailIssuesEmpty(b.email);
    SigninPasswordIssuesEmpty(b.password);
  }

  /**
   * The reported message is the first issue of the first field that has one, in
   * the order name, email, password.
   */
  lemma SignupReportsFirstFieldIssue(b: SignupBody)
    requires SignupIssues(b) != []
    ensures var name, email, password :=
              StringField(b.name, NameChecks), StringField(b.email, EmailChecks),
              StringField(b.password, SignupPasswordChecks);
            SignupIssues(b)[0] ==
              if name != [] then name[0] else if email != [] then email[0] else password[0]
  {
  }

  /** The signin report follows the order email, password. */
  lemma SigninReportsFirstFieldIssue(b: SigninBody)
    requires SigninIssues(b) != []
    ensures var email, password := StringField(b.email, EmailChecks), StringField(b.password, SigninPasswordChecks);
            SigninIssues(b)[0] == if email != [] then email[0] else password[0]
  {
  }

  /** Every character of a domain is a label character or a dot. */
  lemma {:induction false} LabelsThenTopLevelChars(s: string)
    requires LabelsThenTopLevel(s)
    ensures All(s, c => IsLabelChar(c) || IsDot(c))
    decreases |s|
  {
    var j := FirstIndex(s, IsDot);
    if j < |s| {
      var rest := s[j + 1..];
      LabelsThenTopLevelChars(rest);
      forall k | 0 <= k < |s| ensures IsLabelChar(s[k]) || IsDot(s[k]) {
        if k < j {
          assert s[k] == s[..j][k];
        } else if k > j {
          assert s[k] == rest[k - j - 1];
        }
      }
    }
  }

  /**
   * A well-formed email has no space, so the "Email cannot contain spaces"
   * check never fails on an address the format check accepts.
   */
  lemma EmailHasNoSpace(s: string)
    requires IsEmail(s)
    ensures ' ' !in s
  {
    var a := FirstIndex(s, IsAt);
    var local, domain := s[..a], s[a + 1..];
    var i := FirstIndex(domain, IsDot);
    LabelsThenTopLevelChars(domain[i + 1..]);
    forall k | 0 <= k < |s| ensures s[k] != ' ' {
      if k < a {
        assert s[k] == local[k];
        if k < |local| - 1 {
          assert local[k] == local[..|local| - 1][k];
        }
      } else if k > a {
        var m := k - a - 1;
        assert s[k] == domain[m];
        if m < i {
          assert domain[m] == domain[..i][m];
        } else if m > i {
          assert domain[m] == domain[i + 1..][m - i - 1];
        }
      }
    }
  }

  /**
   * Whenever an email string has issues, the first of them is never "Email
   * cannot contain spaces": an address with a space already fails the format check.
   */
  lemma SpaceIssueNeverFirst(e: string)
    requires StringField(Str(e), EmailChecks) != []
    ensures StringField(Str(e), EmailChecks)[0] != "Email cannot contain spaces"
  {
    if IsEmail(e) {
      EmailHasNoSpace(e);
      var msgs := StringField(Str(e), EmailChecks);
      assert msgs[0] in msgs;
      var i :| 0 <= i < |EmailChecks| && !EmailChecks[i].holds(e) && EmailChecks[i].message == msgs[0];
      assert EmailChecks[2].holds(e);
    } else {
      FailingStartsWithFirstFailure(e, EmailChecks, 0);
    }
  }

  /** A password accepted at signup passes the signin rules. */
  lemma SignupPasswordPassesSignin(p: string)
    requires ValidSignupPassword(p)
    ensures ValidSigninPassword(p)
  {
  }

  /** Signin does not check complexity: eight lower-case letters pass signin but not signup. */
  lemma SigninAcceptsWeakPasswords(p: string)
    requires |p| == 8 && All(p, IsLower)
    ensures ValidSigninPassword(p) && !ValidSignupPassword(p)
  {
    assert !Any(p, IsUpper);
  }
}
