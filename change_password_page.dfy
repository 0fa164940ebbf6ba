/** The password page of `src/pages/ChangePassword.tsx`: its schema, the redirect
    for a signed-out visitor, and what the page does with the result of
    `changePassword`. */
module ChangePasswordPage {
  import opened Common
  import opened Api
  import opened Forms
  import opened Ui
  import opened ProfileJson
  import opened AuthContext
  import RegisterPage

  const CURRENT_MESSAGE := "Current password is required"
  const NEW_MESSAGE := "New password must be at least 6 characters"
  const MISMATCH_MESSAGE := "Passwords do not match"

  datatype ChangePasswordForm = ChangePasswordForm(currentPassword: string, newPassword: string,
                                                   confirmPassword: string)

  /** `changePasswordSchema`: the two field checks, then the refinement. */
  function ChangePasswordIssues(f: ChangePasswordForm): (issues: seq<Issue>)
    ensures issues == [] <==> f.currentPassword != [] && |f.newPassword| >= 6 && f.newPassword == f.confirmPassword
  {
    MinLength("currentPassword", f.currentPassword, 1, CURRENT_MESSAGE)
    + MinLength("newPassword", f.newPassword, 6, NEW_MESSAGE)
    + Check(f.newPassword == f.confirmPassword, "confirmPassword", MISMATCH_MESSAGE)
  }

  /** Each field shows its own message exactly when its rule fails. */
  lemma ChangePasswordMessages(f: ChangePasswordForm)
    ensures FieldMessage(ChangePasswordIssues(f), "currentPassword")
            == if f.currentPassword == [] then Some(CURRENT_MESSAGE) else None
    ensures FieldMessage(ChangePasswordIssues(f), "newPassword")
            == if |f.newPassword| < 6 then Some(NEW_MESSAGE) else None
    ensures FieldMessage(ChangePasswordIssues(f), "confirmPassword")
            == if f.newPassword != f.confirmPassword then Some(MISMATCH_MESSAGE) else None
  {
    var a := MinLength("currentPassword", f.currentPassword, 1, CURRENT_MESSAGE);
    var b := MinLength("newPassword", f.newPassword, 6, NEW_MESSAGE);
    var c := Check(f.newPassword == f.confirmPassword, "confirmPassword", MISMATCH_MESSAGE);
    assert ChangePasswordIssues(f) == a + (b + c);
    FieldMessageAppend(a, b + c, "currentPassword");
    FieldMessageAppend(b, c, "currentPassword");
    FieldMessageAppend(a, b + c, "newPassword");
    FieldMessageAppend(b, c, "newPassword");
    FieldMessageAppend(a, b + c, "confirmPassword");
    FieldMessageAppend(b, c, "confirmPassword");
  }

  /** An illustration of `ChangePasswordIssues` beside `RegisterIssues`: unlike
      registration, a new password needs no particular characters, so six
      lower-case letters are accepted here and refused at sign-up. */
  lemma NoCharacterClassRule()
    ensures ChangePasswordIssues(ChangePasswordForm("old", "abcdef", "abcdef")) == []
    ensures !RegisterPage.PasswordPattern("abcdef")
  {
    assert "abcdef"[1..] == "bcdef";
    assert "bcdef"[1..] == "cdef";
    assert "cdef"[1..] == "def";
    assert "def"[1..] == "ef";
    assert "ef"[1..] == "f";
    assert "f"[1..] == "";
  }

  datatype ChangePasswordView = RedirectTo(path: string) | PasswordForm

  /** A visitor who is not signed in is sent to the login page and sees nothing. */
  function ChangePasswordScreen(user: Option<User>): (v: ChangePasswordView)
    ensures v == RedirectTo("/login") <==> user.None?
    ensures v == PasswordForm <==> user.Some?
  {
    if user.None? then RedirectTo("/login") else PasswordForm
  }

  const CHANGED := Toast("Success", "Your password has been changed.", false)

  /** `onSubmit`, which the form runs only with accepted data: sends the current and
      the new password (the new one as its own confirmation, which equals the
      confirmation typed). Success goes to the account page; failure stays and shows
      the error. The session is not touched. */
  method SubmitChangePassword(auth: AuthStore, f: ChangePasswordForm, resp: Response<()>)
    returns (outcome: SubmitOutcome, sent: seq<Request>)
    requires ChangePasswordIssues(f) == []
    ensures sent == [ChangePasswordRequest(ChangePasswordData(f.currentPassword, f.newPassword, f.confirmPassword))]
    ensures resp.Ok? ==> outcome == NavigateTo("/account", CHANGED)
    ensures resp.Err? ==> outcome == Stay(ErrorToast(MessageOr(resp.thrown, PASSWORD_CHANGE_FAILED)))
  {
    var result;
    result, sent := auth.ChangePassword(f.currentPassword, f.newPassword, resp);
    if result.success {
      outcome := NavigateTo("/account", CHANGED);
    } else {
      outcome := Stay(ErrorToast(result.error.GetOr("")));
    }
  }
}
