/** Client-side walks through the authentication controller that follow from
    the handlers' contracts alone: codes are single-use, expire, are shared
    between register and login, and a deleted account stays gone. */
module AuthScenarios {
  import opened Common
  import opened Validation
  import opened Otp
  import opened Auth

  /** A login code works once: the second login with the same code is refused. */
  method LoginCodeIsSingleUse(s: AuthServer, email: Email, password: string)
    returns (first: Reply<Session>, second: Reply<Session>)
    requires s.Valid() && s.secretConfigured
    requires IsValidEmail(email) && password != ""
    requires email in s.users && s.users[email].password == Some(Hash(password))
    modifies s
    ensures first.Success? && second == Fail(InvalidOrExpiredOtp)
  {
    var sent, code := s.SendLoginOtp(email, true);
    first := s.LoginUser(email, password, code);
    second := s.LoginUser(email, password, code);
  }

  /** With a code both factors are needed: a right code with a wrong password is
      refused and still consumes the code, so the right password cannot reuse it. */
  method LoginCodeBurnedByWrongPassword(s: AuthServer, email: Email, password: string, wrong: string)
    returns (first: Reply<Session>, second: Reply<Session>)
    requires s.Valid()
    requires IsValidEmail(email) && password != "" && wrong != "" && wrong != password
    requires email in s.users && s.users[email].password == Some(Hash(password))
    modifies s
    ensures first == Fail(InvalidPassword) && second == Fail(InvalidOrExpiredOtp)
  {
    var sent, code := s.SendLoginOtp(email, true);
    first := s.LoginUser(email, wrong, code);
    second := s.LoginUser(email, password, code);
  }

  /** Login accepts a code at the very instant it expires. */
  method LoginCodeAcceptedAtExpiry(s: AuthServer, email: Email, password: string)
    returns (r: Reply<Session>)
    requires s.Valid() && s.secretConfigured
    requires IsValidEmail(email) && password != ""
    requires email in s.users && s.users[email].password == Some(Hash(password))
    modifies s
    ensures r.Success?
  {
    var sent, code := s.SendLoginOtp(email, true);
    s.Advance(OtpLifetimeMs);
    r := s.LoginUser(email, password, code);
  }

  /** Reset refuses a correct code at the instant it expires. */
  method ResetCodeRefusedAtExpiry(s: AuthServer, email: Email, newPassword: string)
    returns (r: Reply<()>)
    requires s.Valid()
    requires IsValidEmail(email) && Text.Utf16Length(newPassword) >= MinPasswordLength
    requires email in s.users && s.users[email].password.Some?
    modifies s
    ensures r == Fail(InvalidOrExpiredOtp)
  {
    var sent, code := s.SendResetOtp(email, true);
    s.Advance(OtpLifetimeMs);
    r := s.ResetPassword(email, code, newPassword);
  }

  /** A registered user's valid, unexpired login code does not let anyone
      register the email again. */
  method NoRegistrationOverExistingPassword(s: AuthServer, email: Email, name: string, password: string, address: string)
    returns (r: Reply<Session>)
    requires s.Valid()
    requires IsValidEmail(email) && name != "" && Text.Utf16Length(password) >= MinPasswordLength && !Text.IsBlank(address)
    requires email in s.users && s.users[email].password.Some?
    modifies s
    ensures r == Fail(UserAlreadyExists)
  {
    var sent, code := s.SendLoginOtp(email, true);
    r := s.RegisterUser(name, email, password, code, address);
  }

  /** The full registration: a shell record, its code, then a completed
      account that the same password opens. */
  method RegisterThenLogin(s: AuthServer, email: Email, name: string, password: string, address: string)
    returns (registered: Reply<Session>, loggedIn: Reply<Session>)
    requires s.Valid() && s.secretConfigured
    requires IsValidEmail(email) && name != "" && Text.Utf16Length(password) >= MinPasswordLength && !Text.IsBlank(address)
    requires email !in s.users
    modifies s
    ensures registered.Success? && loggedIn.Success?
    ensures registered.value.token.id == loggedIn.value.token.id
  {
    var sent, code := s.SendOtpRegister(email, address, true);
    registered := s.RegisterUser(name, email, password, code, address);
    loggedIn := s.LoginUser(email, password, "");
  }

  /** After a successful deletion the id is never found again, even when the
      same email starts a new registration. */
  method DeletedAccountStaysGone(s: AuthServer, id: UserId, address: string)
    returns (deleted: Reply<()>)
    requires s.Valid() && s.FindById(id).Some? && !Text.IsBlank(address)
    modifies s
    ensures deleted == Success(())
    ensures s.FindById(id).None?
  {
    var email := s.byId[id];
    var sent, code := s.SendDeleteOtp(id, true);
    deleted := s.DeleteAccount(id, code);
    if IsValidEmail(email) {
      var again, code2 := s.SendOtpRegister(email, address, true);
    }
  }
}
