/** The sign-up page of `src/pages/Register.tsx`: the registration schema and what
    the page does with the result of `register`. */
module RegisterPage {
  import opened Common
  import opened Api
  import opened Forms
  import opened Ui
  import opened AuthContext

  const NAME_MESSAGE := "Name must be at least 2 characters"
  const EMAIL_MESSAGE := "Please enter a valid email"
  const PASSWORD_LENGTH_MESSAGE := "Password must be at least 6 characters"
  const PASSWORD_PATTERN_MESSAGE := "Password must contain uppercase, lowercase, and number"
  const PHONE_MESSAGE := "Phone must be at least 10 characters"
  const MISMATCH_MESSAGE := "Passwords do not match"

  datatype RegisterForm = RegisterForm(name: string, email: string, password: string, phone: string,
                                       confirmPassword: string)

  // ---------------------------------------------------------------------------
  // The password pattern /^(?=.*[A-Z])(?=.*[a-z])(?=.*\d)/

  /** The characters `.` does not match. */
  predicate IsLineTerminator(c: char) {
    c == '\n' || c == '\r' || c == '\U{2028}' || c == '\U{2029}'
  }

  datatype CharClass = Upper | Lower | Digit

  /** `[A-Z]`, `[a-z]` and `\d` (ASCII digits only). */
  predicate InClass(c: char, k: CharClass) {
    match k
    case Upper => 'A' <= c <= 'Z'
    case Lower => 'a' <= c <= 'z'
    case Digit => '0' <= c <= '9'
  }

  /** `(?=.*X)` at the start: the regex engine walks `.*` over the input until it
      finds a character of the class, and gives up at the end or at a line break. */
  predicate LookaheadMatches(s: string, k: CharClass)
    decreases |s|
  {
    if s == [] then false
    else if InClass(s[0], k) then true
    else if IsLineTerminator(s[0]) then false
    else LookaheadMatches(s[1..], k)
  }

  /** The reference reading of the lookahead: some character of the class occurs
      with no line break before it. */
  lemma {:induction false} LookaheadMatchesIff(s: string, k: CharClass)
    ensures LookaheadMatches(s, k) <==>
            exists i :: 0 <= i < |s| && InClass(s[i], k) && forall j :: 0 <= j < i ==> !IsLineTerminator(s[j])
    decreases |s|
  {
    if s != [] {
      LookaheadMatchesIff(s[1..], k);
      if LookaheadMatches(s, k) && !InClass(s[0], k) {
        var i :| 0 <= i < |s[1..]| && InClass(s[1..][i], k)
                 && forall j :: 0 <= j < i ==> !IsLineTerminator(s[1..][j]);
        assert InClass(s[i + 1], k);
        assert forall j :: 0 <= j < i + 1 ==> !IsLineTerminator(s[j]) by {
          forall j | 0 <= j < i + 1
            ensures !IsLineTerminator(s[j])
          {
            if j > 0 {
              assert s[j] == s[1..][j - 1];
            }
          }
        }
      }
      if !LookaheadMatches(s, k) {
        forall i | 0 <= i < |s| && InClass(s[i], k)
          ensures exists j :: 0 <= j < i && IsLineTerminator(s[j])
        {
          if i == 0 {
            assert false;
          } else if IsLineTerminator(s[0]) {
            assert IsLineTerminator(s[0]);
          } else {
            assert s[1..][i - 1] == s[i];
            var j :| 0 <= j < i - 1 && IsLineTerminator(s[1..][j]);
            assert IsLineTerminator(s[j + 1]);
          }
        }
      }
    }
  }

  /** The whole pattern: an upper-case letter, a lower-case letter and a digit,
      each somewhere before the first line break. */
  predicate PasswordPattern(pw: string) {
    LookaheadMatches(pw, Upper) && LookaheadMatches(pw, Lower) && LookaheadMatches(pw, Digit)
  }

  // ---------------------------------------------------------------------------
  // The schema

  /** `registerSchema`: every field's checks in schema order, then the refinement on
      the whole object. `emailValid` is Zod's `.email()` verdict on the address. */
  function RegisterIssues(f: RegisterForm, emailValid: bool): (issues: seq<Issue>)
    ensures issues == [] <==>
            |f.name| >= 2 && emailValid && |f.password| >= 6 && PasswordPattern(f.password)
            && |f.phone| >= 10 && f.password == f.confirmPassword
  {
    MinLength("name", f.name, 2, NAME_MESSAGE)
    + Check(emailValid, "email", EMAIL_MESSAGE)
    + MinLength("password", f.password, 6, PASSWORD_LENGTH_MESSAGE)
    + Check(PasswordPattern(f.password), "password", PASSWORD_PATTERN_MESSAGE)
    + MinLength("phone", f.phone, 10, PHONE_MESSAGE)
    + Check(f.password == f.confirmPassword, "confirmPassword", MISMATCH_MESSAGE)
  }

  /** A mismatch is reported on the confirmation field. */
  lemma MismatchShownOnConfirmation(f: RegisterForm, emailValid: bool)
    ensures FieldMessage(RegisterIssues(f, emailValid), "confirmPassword")
            == if f.password == f.confirmPassword then None else Some(MISMATCH_MESSAGE)
  {
    var front := MinLength("name", f.name, 2, NAME_MESSAGE)
      + Check(emailValid, "email", EMAIL_MESSAGE)
      + MinLength("password", f.password, 6, PASSWORD_LENGTH_MESSAGE)
      + Check(PasswordPattern(f.password), "password", PASSWORD_PATTERN_MESSAGE)
      + MinLength("phone", f.phone, 10, PHONE_MESSAGE);
    assert forall i :: 0 <= i < |front| ==> front[i].path != "confirmPassword";
    FieldMessageAppend(front, Check(f.password == f.confirmPassword, "confirmPassword", MISMATCH_MESSAGE), "confirmPassword");
  }

  /** The two password checks decide the password's message when no check before or
      after them reports under that field. */
  lemma PasswordChecksDecide(head: seq<Issue>, e: seq<Issue>, g: seq<Issue>, lengthOk: bool, patternOk: bool)
    requires FieldMessage(head, "password").None?
    requires FieldMessage(e, "password").None? && FieldMessage(g, "password").None?
    ensures FieldMessage(head + Check(lengthOk, "password", PASSWORD_LENGTH_MESSAGE)
                         + Check(patternOk, "password", PASSWORD_PATTERN_MESSAGE) + e + g, "password")
            == if !lengthOk then Some(PASSWORD_LENGTH_MESSAGE)
               else if !patternOk then Some(PASSWORD_PATTERN_MESSAGE)
               else None
  {
    var c := Check(lengthOk, "password", PASSWORD_LENGTH_MESSAGE);
    var d := Check(patternOk, "password", PASSWORD_PATTERN_MESSAGE);
    FieldMessageAppend(head, c, "password");
    FieldMessageAppend(head + c, d, "password");
    FieldMessageAppend(head + c + d, e, "password");
    FieldMessageAppend(head + c + d + e, g, "password");
  }

  /** A short password shows the length message; a long enough one without every
      character class shows the pattern message. */
  lemma PasswordMessage(f: RegisterForm, emailValid: bool)
    ensures FieldMessage(RegisterIssues(f, emailValid), "password")
            == if |f.password| < 6 then Some(PASSWORD_LENGTH_MESSAGE)
               else if !PasswordPattern(f.password) then Some(PASSWORD_PATTERN_MESSAGE)
               else None
  {
    var head := MinLength("name", f.name, 2, NAME_MESSAGE) + Check(emailValid, "email", EMAIL_MESSAGE);
    var e := MinLength("phone", f.phone, 10, PHONE_MESSAGE);
    var g := Check(f.password == f.confirmPassword, "confirmPassword", MISMATCH_MESSAGE);
    assert MinLength("password", f.password, 6, PASSWORD_LENGTH_MESSAGE)
           == Check(|f.password| >= 6, "password", PASSWORD_LENGTH_MESSAGE);
    assert FieldMessage(head, "password").None?;
    PasswordChecksDecide(head, e, g, |f.password| >= 6, PasswordPattern(f.password));
  }

  /** An illustration of `LookaheadMatchesIff`: a password with every class but
      only after a line break is refused, and one with them on its first line is
      accepted. */
  lemma PatternStopsAtLineBreak()
    ensures !PasswordPattern("x\nAb1")
    ensures PasswordPattern("Ab1x\n")
  {
    assert "x\nAb1"[1..] == "\nAb1";
    assert "x\nAb1"[0] == 'x';
    assert "Ab1x\n"[1..] == "b1x\n";
    assert "b1x\n"[1..] == "1x\n";
  }

  // ---------------------------------------------------------------------------
  // Submitting

  const WELCOME := Toast("Welcome!", "Your account has been created.", false)

  /** `onSubmit`, which the form runs only with accepted data: registers with name,
      email, password and phone (the confirmation is not passed on, and the password
      goes out as its own confirmation, which equals it). Success goes to the
      account page with a welcome toast; failure stays and shows the error. */
  method SubmitRegister(auth: AuthStore, f: RegisterForm, emailValid: bool, resp: Response<AuthBody>)
    returns (outcome: SubmitOutcome, sent: seq<Request>)
    requires RegisterIssues(f, emailValid) == []
    modifies auth, auth.store
    ensures sent == [SignupRequest(SignupData(f.name, f.email, f.password, f.confirmPassword, f.phone))]
    ensures resp.Ok? ==> outcome == NavigateTo("/account", WELCOME) && auth.user == Some(ProfileOf(resp.body.user))
    ensures resp.Err? ==>
              outcome == Stay(ErrorToast(MessageOr(resp.thrown, REGISTRATION_FAILED)))
              && auth.user == old(auth.user) && auth.store.entries == old(auth.store.entries)
  {
    var result;
    result, sent := auth.Register(f.name, f.email, f.password, f.phone, resp);
    if result.success {
      outcome := NavigateTo("/account", WELCOME);
    } else {
      outcome := Stay(ErrorToast(result.error.GetOr("")));
    }
  }
}
