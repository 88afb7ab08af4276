/** The login page: password or code login, and the forgotten-password reset
    on the same form. Covers the guards before each request, which endpoint
    and body a submit sends, the error text shown, and the page state after a
    reset or an email change. */
module LoginPage {
  import opened Common
  import opened Validation
  import Auth
  import Timer
  import Text

  datatype Form = Form(email: string, password: string, otp: string, newPassword: string)

  datatype PageState = PageState(
    form: Form,
    error: string,
    otpSent: bool,
    resetMode: bool,
    otpTimer: nat,
    lastOtpEmail: string)

  /** What a submit sends: the endpoint is fixed by the request kind. */
  datatype SubmitRequest =
    | ResetPasswordRequest(email: string, otp: string, newPassword: string)   // POST /auth/reset-password
    | LoginWithOtp(email: string, password: string, otp: string)              // POST /auth/login
    | LoginWithPassword(email: string, password: string)                      // POST /auth/login

  /** Where "Send OTP" posts `{ email }`. */
  datatype OtpEndpoint = SendResetOtp | SendLoginOtp

  const InvalidEmailText: string := "Please enter a valid email address"
  const PasswordText: string := "Password must be at least 6 characters long"
  const OtpText: string := "Please enter the OTP"
  const NewPasswordText: string := "New password must be at least 6 characters long"
  const ResetDoneText: string := "Password reset successful! Please log in with your new password."
  const ResetFailedText: string := "Password reset failed. Please check your OTP or try again."
  const LoginFailedText: string := "Login failed. Please check your credentials or OTP."
  const SendFailedText: string := "Failed to send OTP. Please try again."

  /** The page's own minimum, for the login password and for the new password. */
  const ClientMinPassword: nat := 6

  /** The page's email check: an '@' and a '.' anywhere in the string. */
  predicate LooksLikeEmail(e: string)
  {
    '@' in e && '.' in e
  }

  /** The page's check is looser than the email pattern: every valid address
      passes it ... */
  lemma {:induction false} ValidEmailLooksLikeEmail(e: string)
    requires IsValidEmail(e)
    ensures LooksLikeEmail(e)
  {
    var i :| 0 < i < |e| && SplitsAt(e, i);
    var d := e[i + 1..];
    var j :| 0 < j < |d| - 1 && d[j] == '.';
    assert e[i] == '@';
    assert e[i + 1 + j] == '.';
  }

  /** ... but not conversely: "@." passes the page and fails the pattern. */
  lemma {:induction false} LooksLikeEmailIsLooser()
    ensures LooksLikeEmail("@.") && !IsValidEmail("@.")
  {
    var s := "@.";
    assert s[0] == '@' && s[1] == '.';
    forall i | 0 < i < |s|
      ensures !SplitsAt(s, i)
    {
      assert s[i] == '.';
    }
  }

  /** `handleSendOtp` up to the request: the email check, then the endpoint
      chosen by the mode. */
  function SendOtpTarget(s: PageState): (r: Result<OtpEndpoint, string>)
    ensures r.Err? <==> !LooksLikeEmail(s.form.email)
    ensures r.Err? ==> r.error == InvalidEmailText
    ensures r.Ok? ==> (r.value == SendResetOtp <==> s.resetMode)
  {
    if !LooksLikeEmail(s.form.email) then Err(InvalidEmailText)
    else if s.resetMode then Ok(SendResetOtp)
    else Ok(SendLoginOtp)
  }

  /** After a code has been sent: the error cleared before the request stays
      cleared, the second step is shown, the wait starts and the email the
      code went to is remembered. */
  function AfterOtpSent(s: PageState): (r: PageState)
    ensures r.form == s.form && r.resetMode == s.resetMode && r.error == ""
    ensures r.otpSent && r.otpTimer == Timer.ResendWaitSeconds && r.lastOtpEmail == s.form.email
  {
    s.(error := "", otpSent := true, otpTimer := Timer.ResendWaitSeconds, lastOtpEmail := s.form.email)
  }

  /** The message when sending a code fails: the server's, or the fallback. */
  function SendOtpFailureText(message: Option<string>): (r: string)
    ensures message.Some? && message.value != "" ==> r == message.value
    ensures message.None? || message == Some("") ==> r == SendFailedText
  {
    if message.Some? && message.value != "" then message.value else SendFailedText
  }

  /** A refusal of either code-issuing handler reaches the page as the server's
      own message; the 500 replies carry their text in `error`, so the page
      shows its fallback for them. */
  lemma {:induction false} SendOtpFailureShown(f: Auth.Failure)
    ensures Auth.Status(f) != 500 ==> SendOtpFailureText(Auth.Message(f)) == Auth.Message(f).value
    ensures Auth.Status(f) == 500 ==> SendOtpFailureText(Auth.Message(f)) == SendFailedText
  {
    match f
    case ServerConfigError =>
    case MailFailed =>
    case _ =>
      assert Auth.Message(f).Some?;
  }

  /** `handleSubmit` up to the request. The guards run in order: the email
      check; in login mode a password of at least 6 characters; once a code
      was sent, a non-empty code; in reset mode a new password of at least 6
      characters. Reset mode sends email, code and new password; login sends
      email and password, and the code as well once one was sent. */
  function Submit(s: PageState): (r: Result<SubmitRequest, string>)
    ensures r.Ok? <==>
      (&& LooksLikeEmail(s.form.email)
       && (s.resetMode || Text.Utf16Length(s.form.password) >= ClientMinPassword)
       && !(s.otpSent && s.form.otp == "")
       && (!s.resetMode || Text.Utf16Length(s.form.newPassword) >= ClientMinPassword))
    ensures !LooksLikeEmail(s.form.email) ==> r == Err(InvalidEmailText)
    ensures (LooksLikeEmail(s.form.email) && !s.resetMode && Text.Utf16Length(s.form.password) < ClientMinPassword) ==>
      r == Err(PasswordText)
    ensures (LooksLikeEmail(s.form.email) && (s.resetMode || Text.Utf16Length(s.form.password) >= ClientMinPassword)
             && s.otpSent && s.form.otp == "") ==> r == Err(OtpText)
    ensures (LooksLikeEmail(s.form.email) && s.resetMode && !(s.otpSent && s.form.otp == "")
             && Text.Utf16Length(s.form.newPassword) < ClientMinPassword) ==> r == Err(NewPasswordText)
    ensures r.Ok? ==> r.value.email == s.form.email
    ensures r.Ok? ==> (r.value.ResetPasswordRequest? <==> s.resetMode)
    ensures r.Ok? && s.resetMode ==> r.value == ResetPasswordRequest(s.form.email, s.form.otp, s.form.newPassword)
    ensures r.Ok? && !s.resetMode ==>
      r.value == if s.otpSent then LoginWithOtp(s.form.email, s.form.password, s.form.otp)
                 else LoginWithPassword(s.form.email, s.form.password)
  {
    var f := s.form;
    if !LooksLikeEmail(f.email) then Err(InvalidEmailText)
    else if !s.resetMode && Text.Utf16Length(f.password) < ClientMinPassword then Err(PasswordText)
    else if s.otpSent && f.otp == "" then Err(OtpText)
    else if s.resetMode && Text.Utf16Length(f.newPassword) < ClientMinPassword then Err(NewPasswordText)
    else if s.resetMode then Ok(ResetPasswordRequest(f.email, f.otp, f.newPassword))
    else if s.otpSent then Ok(LoginWithOtp(f.email, f.password, f.otp))
    else Ok(LoginWithPassword(f.email, f.password))
  }

  /** The page lets through a reset whose new password has 6 or 7 characters,
      which the server always refuses: its minimum is 8. */
  lemma {:induction false} ShortResetPasswordRefused(s: PageState)
    requires Submit(s).Ok? && s.resetMode && Text.Utf16Length(s.form.newPassword) < Auth.MinPasswordLength
    ensures Auth.ResetInputError(s.form.email, s.form.otp, s.form.newPassword).Some?
  {
  }

  /** Such a reset exists: a well-formed email, a code and a six-character password. */
  lemma {:induction false} ShortResetPasswordExample()
    ensures var s := PageState(Form("a@b.co", "", "123456", "secret"), "", true, true, 0, "a@b.co");
      && Submit(s).Ok?
      && Auth.ResetInputError(s.form.email, s.form.otp, s.form.newPassword) == Some(Auth.PasswordTooShort)
  {
    var e := "a@b.co";
    assert e[1] == '@' && e[3] == '.';
    assert e[2..][1] == '.';
    assert SplitsAt(e, 1);
  }

  /** The state after a successful reset: back to login mode with only the
      email kept and the success text in the message line. */
  function AfterResetSuccess(s: PageState): (r: PageState)
    ensures r.form == Form(s.form.email, "", "", "")
    ensures !r.resetMode && !r.otpSent && r.otpTimer == 0 && r.lastOtpEmail == ""
    ensures r.error == ResetDoneText
  {
    PageState(Form(s.form.email, "", "", ""), ResetDoneText, false, false, 0, "")
  }

  /** "Forgot Password?": reset mode on, only the email kept, wait and
      remembered email cleared. */
  function ForgotPassword(s: PageState): (r: PageState)
    ensures r.form == Form(s.form.email, "", "", "")
    ensures r.resetMode && !r.otpSent && r.otpTimer == 0 && r.lastOtpEmail == "" && r.error == ""
  {
    PageState(Form(s.form.email, "", "", ""), "", false, true, 0, "")
  }

  /** `handleChangeEmail`: the wait is cancelled only when the email differs
      from the one the last code went to; the code step and reset mode are left. */
  function ChangeEmail(s: PageState): (r: PageState)
    ensures !r.otpSent && !r.resetMode
    ensures r.otpTimer == if s.form.email != s.lastOtpEmail then 0 else s.otpTimer
    ensures r.form == s.form && r.error == s.error && r.lastOtpEmail == s.lastOtpEmail
  {
    s.(otpTimer := if s.form.email != s.lastOtpEmail then 0 else s.otpTimer,
       otpSent := false,
       resetMode := false)
  }

  /** A server message is truthy when present and non-empty. */
  predicate Truthy(message: Option<string>)
  {
    message.Some? && message.value != ""
  }

  /** The error text of a failed submit as the page computes it:
      `message || isResetMode ? resetText : loginText` groups as
      `(message || isResetMode) ? resetText : loginText`, so the server's
      message is never shown and any message reads as a failed reset. */
  function SubmitFailureTextAsWritten(message: Option<string>, resetMode: bool): (r: string)
    ensures r == ResetFailedText <==> Truthy(message) || resetMode
    ensures r == ResetFailedText || r == LoginFailedText
  {
    if Truthy(message) || resetMode then ResetFailedText else LoginFailedText
  }

  /** A wrong password at login is reported as a failed password reset. */
  lemma {:induction false} WrongPasswordReadsAsFailedReset()
    ensures SubmitFailureTextAsWritten(Auth.Message(Auth.InvalidPassword), false) == ResetFailedText
    ensures Auth.Message(Auth.InvalidPassword) == Some("Invalid password")
  {
  }

  /** The evidently intended text: the server's message when there is one,
      otherwise the fallback of the current mode. */
  function SubmitFailureText(message: Option<string>, resetMode: bool): (r: string)
    ensures Truthy(message) ==> r == message.value
    ensures !Truthy(message) ==> r == (if resetMode then ResetFailedText else LoginFailedText)
  {
    if Truthy(message) then message.value
    else if resetMode then ResetFailedText
    else LoginFailedText
  }

  /** With the intended reading every refusal of the server that carries a
      message is shown as sent. */
  lemma {:induction false} ServerRefusalShown(f: Auth.Failure, resetMode: bool)
    requires Auth.Status(f) != 500
    ensures SubmitFailureText(Auth.Message(f), resetMode) == Auth.Message(f).value
  {
  }
}
