/** The registration page: the guards its two submit handlers run before any
    request, the requests they send, and the page state after each step. */
module RegisterPage {
  import opened Common
  import opened Text
  import opened Validation
  import Auth
  import Timer

  datatype Form = Form(name: string, email: string, password: string, otp: string, address: string)

  datatype PageState = PageState(
    form: Form,
    error: string,
    success: string,
    otpSent: bool,
    otpTimer: nat)

  /** The body of the send-otp-register request. */
  datatype OtpRequest = OtpRequest(email: string, address: string)

  /** The body of the register request. */
  datatype RegisterRequest = RegisterRequest(name: string, email: string, password: string, otp: string, address: string)

  const InvalidEmailText: string := "Please enter a valid email address"
  const NameText: string := "Please enter your name"
  const AddressText: string := "Please enter your address"
  const PasswordText: string := "Password must be at least 8 characters"
  const OtpText: string := "Please enter the OTP"
  const OtpSentText: string := "OTP sent successfully to your email."
  const ExistsText: string := "User already exists. Please use a different email or log in."
  const SendFailedText: string := "Failed to send OTP. Please try again."
  const RegisterFailedText: string := "Registration failed. Please try again."

  const MinPasswordLength: nat := 8

  /** The guards `handleSendOtp` shares with `handleSubmit`, in order: the
      sanitised email, then the trimmed sanitised name, then the trimmed
      sanitised address. The first that fails gives the message. */
  function DetailsError(f: Form): (r: Option<string>)
    ensures r.None? <==> IsValidEmail(Sanitize(f.email)) && !IsBlank(Sanitize(f.name)) && !IsBlank(Sanitize(f.address))
    ensures !IsValidEmail(Sanitize(f.email)) ==> r == Some(InvalidEmailText)
    ensures IsValidEmail(Sanitize(f.email)) && IsBlank(Sanitize(f.name)) ==> r == Some(NameText)
    ensures IsValidEmail(Sanitize(f.email)) && !IsBlank(Sanitize(f.name)) && IsBlank(Sanitize(f.address)) ==>
      r == Some(AddressText)
  {
    if !IsValidEmail(Sanitize(f.email)) then Some(InvalidEmailText)
    else if IsBlank(Sanitize(f.name)) then Some(NameText)
    else if IsBlank(Sanitize(f.address)) then Some(AddressText)
    else None
  }

  /** `handleSendOtp` up to the request: either the message it shows (and no
      request is made) or the request carrying the sanitised email and address. */
  function SendOtpRequest(f: Form): (r: Result<OtpRequest, string>)
    ensures r.Ok? <==> DetailsError(f).None?
    ensures r.Err? ==> r.error == DetailsError(f).value
    ensures r.Ok? ==> r.value == OtpRequest(Sanitize(f.email), Sanitize(f.address))
  {
    match DetailsError(f)
    case Some(msg) => Err(msg)
    case None => Ok(OtpRequest(Sanitize(f.email), Sanitize(f.address)))
  }

  /** `handleSubmit` up to the request: the three detail guards, then the raw
      password's length, then the sanitised code. The password is sent as typed;
      every other field is sanitised. */
  function SubmitRequest(f: Form): (r: Result<RegisterRequest, string>)
    ensures r.Ok? <==> (DetailsError(f).None? && Utf16Length(f.password) >= MinPasswordLength && Sanitize(f.otp) != "")
    ensures DetailsError(f).Some? ==> r == Err(DetailsError(f).value)
    ensures DetailsError(f).None? && Utf16Length(f.password) < MinPasswordLength ==> r == Err(PasswordText)
    ensures DetailsError(f).None? && Utf16Length(f.password) >= MinPasswordLength && Sanitize(f.otp) == "" ==> r == Err(OtpText)
    ensures r.Ok? ==>
      r.value == RegisterRequest(Sanitize(f.name), Sanitize(f.email), f.password, Sanitize(f.otp), Sanitize(f.address))
  {
    if DetailsError(f).Some? then Err(DetailsError(f).value)
    else if Utf16Length(f.password) < MinPasswordLength then Err(PasswordText)
    else if Sanitize(f.otp) == "" then Err(OtpText)
    else Ok(RegisterRequest(Sanitize(f.name), Sanitize(f.email), f.password, Sanitize(f.otp), Sanitize(f.address)))
  }

  /** Every request the page lets through passes the server's own input checks
      of `registerUser`, so a refusal can only come from the code or the store. */
  lemma {:induction false} SubmitPassesServerChecks(f: Form)
    requires SubmitRequest(f).Ok?
    ensures var q := SubmitRequest(f).value;
      Auth.RegisterInputError(q.name, q.email, q.password, q.otp, q.address).None?
  {
    var q := SubmitRequest(f).value;
    assert !IsBlank(q.name);
    assert q.name != "";
  }

  /** Sending the same form twice sends the same request: the sanitised fields
      are already clean, so sanitising them again changes nothing. */
  lemma {:induction false} SendOtpRequestStable(f: Form)
    requires SendOtpRequest(f).Ok?
    ensures var q := SendOtpRequest(f).value;
      SendOtpRequest(Form(f.name, q.email, f.password, f.otp, q.address)) == SendOtpRequest(f)
  {
    SanitizeIdempotent(f.email);
    SanitizeIdempotent(f.address);
  }

  /** The message shown when a request fails: the client looks for the text
      'Email already exists', which the server never sends, and otherwise shows
      the server's message or, without one, the fallback. */
  function FailureText(message: Option<string>, fallback: string): (r: string)
    ensures message == Some("Email already exists") ==> r == ExistsText
    ensures message.Some? && message.value != "" && message.value != "Email already exists" ==> r == message.value
    ensures message.None? || message == Some("") ==> r == fallback
  {
    if message == Some("Email already exists") then ExistsText
    else if message.Some? && message.value != "" then message.value
    else fallback
  }

  /** A server refusal reaches the page as the server's own message, or as the
      fallback for the replies that carry none. */
  lemma {:induction false} ServerFailureShown(f: Auth.Failure, fallback: string)
    ensures Auth.Message(f).Some? ==> FailureText(Auth.Message(f), fallback) == Auth.Message(f).value
    ensures Auth.Message(f).None? ==> FailureText(Auth.Message(f), fallback) == fallback
  {
  }

  /** The state after the code has been sent: the error cleared before the
      request stays cleared, the form is locked behind `otpSent`, the resend
      wait starts at two minutes and the success text is shown. */
  function AfterOtpSent(s: PageState): (r: PageState)
    ensures r.form == s.form && r.error == ""
    ensures r.otpSent && r.otpTimer == Timer.ResendWaitSeconds && r.success == OtpSentText
  {
    s.(error := "", otpSent := true, otpTimer := Timer.ResendWaitSeconds, success := OtpSentText)
  }

  /** `handleChangeEmail`: back to the first step with the code field, the
      wait and both messages cleared; name, email, address and password stay. */
  function ChangeEmail(s: PageState): (r: PageState)
    ensures r.form.name == s.form.name && r.form.email == s.form.email
    ensures r.form.address == s.form.address && r.form.password == s.form.password
    ensures r.form.otp == "" && !r.otpSent && r.otpTimer == 0
    ensures r.error == "" && r.success == ""
  {
    PageState(s.form.(otp := ""), "", "", false, 0)
  }
}
