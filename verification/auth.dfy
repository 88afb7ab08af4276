/** The credential and one-time-code lifecycle of the authentication
    controller: a store of user records keyed by email, each with an optional
    password digest and three independent code slots (login, reset, delete).
    Register and login share the login slot. */
module Auth {
  import opened Common
  import opened Text
  import opened Validation
  import opened Otp
  import opened Decimal

  type Email = string

  /** The database `_id` of a user record; the access token carries it. */
  type UserId = nat

  /** `expiresIn: '1d'`, in milliseconds. */
  const TokenLifetimeMs: nat := 24 * 60 * 60 * 1000

  const MinPasswordLength: nat := 8

  /** A user document. `name` is "" and `password` is None on the shell record
      that `sendOtpRegister` creates before registration completes. */
  datatype User = User(
    id: UserId,
    email: Email,
    name: string,
    password: Option<Digest>,
    address: string,
    loginOtp: Slot,
    resetOtp: Slot,
    deleteOtp: Slot)

  /** The error replies, each with its message in the source. */
  datatype Failure =
    | AllFieldsRequired       // 400 'All fields are required'
    | EmailAndPasswordRequired // 400 'Email and password are required'
    | OtpRequired             // 400 'OTP is required'
    | InvalidEmailFormat      // 400 'Invalid email format'
    | PasswordTooShort        // 400 'Password must be at least 8 characters'
    | AddressRequired         // 400 'Address is required'
    | InvalidOrExpiredOtp     // 400 'Invalid or expired OTP'
    | UserAlreadyExists       // 400 'User already exists'
    | UserNotFound            // 404 'User not found'
    | InvalidPassword         // 401 'Invalid password'
    | ServerConfigError       // 500 'Server configuration error'
    | MailFailed              // 500 'Failed to send ... OTP'

  function Status(f: Failure): (code: nat)
    ensures 400 <= code < 600
  {
    match f
    case UserNotFound => 404
    case InvalidPassword => 401
    case ServerConfigError | MailFailed => 500
    case _ => 400
  }

  /** The `message` field of the error body. The 500 replies carry their text
      in an `error` field instead, so a client reading `message` finds none. */
  function Message(f: Failure): (m: Option<string>)
    ensures m.None? <==> Status(f) == 500
    ensures m.Some? ==> m.value != ""
  {
    match f
    case AllFieldsRequired => Some("All fields are required")
    case EmailAndPasswordRequired => Some("Email and password are required")
    case OtpRequired => Some("OTP is required")
    case InvalidEmailFormat => Some("Invalid email format")
    case PasswordTooShort => Some("Password must be at least 8 characters")
    case AddressRequired => Some("Address is required")
    case InvalidOrExpiredOtp => Some("Invalid or expired OTP")
    case UserAlreadyExists => Some("User already exists")
    case UserNotFound => Some("User not found")
    case InvalidPassword => Some("Invalid password")
    case ServerConfigError | MailFailed => None
  }

  /** The signed access token: it binds the user id and expires a day after issue. */
  datatype Token = Token(id: UserId, expires: nat)

  datatype Profile = Profile(name: string, email: Email, address: string)

  datatype Session = Session(token: Token, user: Profile)

  datatype Reply<+T> = Success(value: T) | Fail(failure: Failure)

  function ProfileOf(u: User): Profile
  {
    Profile(u.name, u.email, u.address)
  }

  /** The checks `registerUser` makes before it touches the store, in order. */
  function RegisterInputError(name: string, email: Email, password: string, otp: string, address: string): (r: Option<Failure>)
    ensures r.None? <==> (name != "" && otp != "" && IsValidEmail(email)
                          && Utf16Length(password) >= MinPasswordLength && !IsBlank(address))
    ensures r == Some(AllFieldsRequired) <==> name == "" || email == "" || password == "" || otp == "" || address == ""
  {
    if name == "" || email == "" || password == "" || otp == "" || address == "" then Some(AllFieldsRequired)
    else if !IsValidEmail(email) then Some(InvalidEmailFormat)
    else if Utf16Length(password) < MinPasswordLength then Some(PasswordTooShort)
    else if IsBlank(address) then Some(AddressRequired)
    else None
  }

  /** The checks `resetPassword` makes before it touches the store, in order. */
  function ResetInputError(email: Email, otp: string, newPassword: string): (r: Option<Failure>)
    ensures r.None? <==> otp != "" && IsValidEmail(email) && Utf16Length(newPassword) >= MinPasswordLength
  {
    if email == "" || otp == "" || newPassword == "" then Some(AllFieldsRequired)
    else if !IsValidEmail(email) then Some(InvalidEmailFormat)
    else if Utf16Length(newPassword) < MinPasswordLength then Some(PasswordTooShort)
    else None
  }

  /** The record `registerUser` saves: name, password and address set, login code consumed. */
  function Registered(u: User, name: string, password: string, address: string): (r: User)
    ensures r.id == u.id && r.email == u.email && r.resetOtp == u.resetOtp && r.deleteOtp == u.deleteOtp
    ensures r.loginOtp == NoCode && r.password == Some(Hash(password))
    ensures r.name == name && r.address == address
  {
    u.(name := name, password := Some(Hash(password)), address := address, loginOtp := NoCode)
  }

  class AuthServer {
    /** The users collection, by its unique email. */
    var users: map<Email, User>
    /** The `_id` index of the same collection. */
    var byId: map<UserId, Email>
    /** The next fresh `_id`; ids are never reused. */
    var nextId: UserId
    /** The server clock, in milliseconds. */
    var now: nat
    /** Whether `JWT_SECRET` is configured. */
    const secretConfigured: bool

    ghost predicate Valid()
      reads this
    {
      && (forall e :: e in users ==>
            users[e].email == e && users[e].id < nextId && users[e].id in byId && byId[users[e].id] == e)
      && (forall id :: id in byId ==> id < nextId && byId[id] in users && users[byId[id]].id == id)
    }

    constructor (secretConfigured: bool, now: nat)
      ensures Valid()
      ensures users == map[] && byId == map[] && this.now == now
      ensures this.secretConfigured == secretConfigured
    {
      this.users := map[];
      this.byId := map[];
      this.nextId := 0;
      this.now := now;
      this.secretConfigured := secretConfigured;
    }

    /** `User.findById`. */
    function FindById(id: UserId): Option<User>
      reads this
    {
      if id in byId && byId[id] in users then Some(users[byId[id]]) else None
    }

    /** Time passes. */
    method Advance(ms: nat)
      modifies this`now
      ensures now == old(now) + ms
    {
      now := now + ms;
    }

    /** `registerUser`: validate the input, find the record whose login code has
        not expired and matches, refuse a record that already has a password,
        then set name, password and address and consume the login code. The
        record is saved before the token secret is checked. */
    method RegisterUser(name: string, email: Email, password: string, otp: string, address: string)
      returns (r: Reply<Session>)
      requires Valid()
      modifies this`users
      ensures Valid()
      ensures RegisterInputError(name, email, password, otp, address).Some? ==>
        r == Fail(RegisterInputError(name, email, password, otp, address).value) && users == old(users)
      ensures (RegisterInputError(name, email, password, otp, address).None?
               && !(email in old(users) && AcceptsBeforeExpiry(old(users)[email].loginOtp, otp, now))) ==>
        r == Fail(InvalidOrExpiredOtp) && users == old(users)
      ensures (RegisterInputError(name, email, password, otp, address).None?
               && email in old(users) && AcceptsBeforeExpiry(old(users)[email].loginOtp, otp, now)) ==>
        if old(users)[email].password.Some? then
          r == Fail(UserAlreadyExists) && users == old(users)
        else
          && users == old(users)[email := Registered(old(users)[email], name, password, address)]
          && (if secretConfigured
              then r == Success(Session(Token(old(users)[email].id, now + TokenLifetimeMs), Profile(name, email, address)))
              else r == Fail(ServerConfigError))
    {
      var err := RegisterInputError(name, email, password, otp, address);
      if err.Some? {
        return Fail(err.value);
      }
      if !(email in users && AcceptsBeforeExpiry(users[email].loginOtp, otp, now)) {
        return Fail(InvalidOrExpiredOtp);
      }
      var user := users[email];
      if user.password.Some? {
        return Fail(UserAlreadyExists);
      }
      user := user.(name := name);
      user := user.(password := Some(Hash(password)));
      user := user.(address := address);
      user := user.(loginOtp := NoCode);
      users := users[email := user];
      if !secretConfigured {
        return Fail(ServerConfigError);
      }
      r := Success(Session(Token(user.id, now + TokenLifetimeMs), ProfileOf(user)));
    }

    /** `loginUser`: a record with a password is required; a supplied code is
        checked and consumed (and saved) before the password is compared, so a
        right code with a wrong password still burns the code. */
    method LoginUser(email: Email, password: string, otp: string) returns (r: Reply<Session>)
      requires Valid()
      modifies this`users
      ensures Valid()
      ensures email == "" || password == "" ==> r == Fail(EmailAndPasswordRequired) && users == old(users)
      ensures email != "" && password != "" && !IsValidEmail(email) ==>
        r == Fail(InvalidEmailFormat) && users == old(users)
      ensures password != "" && IsValidEmail(email) && (email !in old(users) || old(users)[email].password.None?) ==>
        r == Fail(UserNotFound) && users == old(users)
      ensures password != "" && IsValidEmail(email) && email in old(users) && old(users)[email].password.Some? ==>
        var u := old(users)[email];
        var codeOk := otp == "" || AcceptsUntilExpiry(u.loginOtp, otp, now);
        && users == (if otp != "" && codeOk then old(users)[email := u.(loginOtp := NoCode)] else old(users))
        && (!codeOk ==> r == Fail(InvalidOrExpiredOtp))
        && (codeOk && !Compare(password, u.password.value) ==> r == Fail(InvalidPassword))
        && (codeOk && Compare(password, u.password.value) ==>
              r == if secretConfigured then Success(Session(Token(u.id, now + TokenLifetimeMs), ProfileOf(u)))
                   else Fail(ServerConfigError))
    {
      if email == "" || password == "" {
        return Fail(EmailAndPasswordRequired);
      }
      if !IsValidEmail(email) {
        return Fail(InvalidEmailFormat);
      }
      if email !in users || users[email].password.None? {
        return Fail(UserNotFound);
      }
      var user := users[email];
      if otp != "" {
        if !AcceptsUntilExpiry(user.loginOtp, otp, now) {
          return Fail(InvalidOrExpiredOtp);
        }
        user := user.(loginOtp := NoCode);
        users := users[email := user];
      }
      if !Compare(password, user.password.value) {
        return Fail(InvalidPassword);
      }
      if !secretConfigured {
        return Fail(ServerConfigError);
      }
      r := Success(Session(Token(user.id, now + TokenLifetimeMs), ProfileOf(user)));
    }

    /** `sendLoginOtp`: only a record with a password gets a login code. The
        code is stored before delivery is attempted, so a failed delivery still
        leaves the new code in place. */
    method SendLoginOtp(email: Email, mailOk: bool) returns (r: Reply<()>, code: string)
      requires Valid()
      modifies this`users
      ensures Valid()
      ensures !IsValidEmail(email) ==> r == Fail(InvalidEmailFormat) && users == old(users)
      ensures IsValidEmail(email) && (email !in old(users) || old(users)[email].password.None?) ==>
        r == Fail(UserNotFound) && users == old(users)
      ensures IsValidEmail(email) && email in old(users) && old(users)[email].password.Some? ==>
        && |code| == 6 && AllDigits(code)
        && users == old(users)[email := old(users)[email].(loginOtp := Issue(code, now))]
        && r == (if mailOk then Success(()) else Fail(MailFailed))
    {
      code := "";
      if email == "" || !IsValidEmail(email) {
        return Fail(InvalidEmailFormat), code;
      }
      if email !in users || users[email].password.None? {
        return Fail(UserNotFound), code;
      }
      var n :| LowestCode <= n <= HighestCode;
      code := CodeText(n);
      var user := users[email];
      user := user.(loginOtp := Issue(code, now));
      users := users[email := user];
      r := if mailOk then Success(()) else Fail(MailFailed);
    }

    /** `sendOtpRegister`: refuses an email whose record already has a password;
        otherwise upserts a password-less record with the email, the address
        and a fresh login code, leaving any other field of an existing shell. */
    method SendOtpRegister(email: Email, address: string, mailOk: bool) returns (r: Reply<()>, code: string)
      requires Valid()
      modifies this`users, this`byId, this`nextId
      ensures Valid()
      ensures !IsValidEmail(email) ==> r == Fail(InvalidEmailFormat) && unchanged(this)
      ensures IsValidEmail(email) && IsBlank(address) ==> r == Fail(AddressRequired) && unchanged(this)
      ensures IsValidEmail(email) && !IsBlank(address) && email in old(users) && old(users)[email].password.Some? ==>
        r == Fail(UserAlreadyExists) && unchanged(this)
      ensures IsValidEmail(email) && !IsBlank(address) && email in old(users) && old(users)[email].password.None? ==>
        && |code| == 6 && AllDigits(code)
        && users == old(users)[email := old(users)[email].(address := address, loginOtp := Issue(code, now))]
        && byId == old(byId) && nextId == old(nextId)
        && r == (if mailOk then Success(()) else Fail(MailFailed))
      ensures IsValidEmail(email) && !IsBlank(address) && email !in old(users) ==>
        && |code| == 6 && AllDigits(code)
        && users == old(users)[email := User(old(nextId), email, "", None, address, Issue(code, now), NoCode, NoCode)]
        && byId == old(byId)[old(nextId) := email] && nextId == old(nextId) + 1
        && r == (if mailOk then Success(()) else Fail(MailFailed))
    {
      code := "";
      if email == "" || !IsValidEmail(email) {
        return Fail(InvalidEmailFormat), code;
      }
      if address == "" || IsBlank(address) {
        return Fail(AddressRequired), code;
      }
      if email in users && users[email].password.Some? {
        return Fail(UserAlreadyExists), code;
      }
      var n :| LowestCode <= n <= HighestCode;
      code := CodeText(n);
      if email in users {
        var user := users[email];
        user := user.(address := address, loginOtp := Issue(code, now));
        users := users[email := user];
      } else {
        users := users[email := User(nextId, email, "", None, address, Issue(code, now), NoCode, NoCode)];
        byId := byId[nextId := email];
        nextId := nextId + 1;
      }
      r := if mailOk then Success(()) else Fail(MailFailed);
    }

    /** `sendResetOtp`: only a record with a password gets a reset code. */
    method SendResetOtp(email: Email, mailOk: bool) returns (r: Reply<()>, code: string)
      requires Valid()
      modifies this`users
      ensures Valid()
      ensures !IsValidEmail(email) ==> r == Fail(InvalidEmailFormat) && users == old(users)
      ensures IsValidEmail(email) && (email !in old(users) || old(users)[email].password.None?) ==>
        r == Fail(UserNotFound) && users == old(users)
      ensures IsValidEmail(email) && email in old(users) && old(users)[email].password.Some? ==>
        && |code| == 6 && AllDigits(code)
        && users == old(users)[email := old(users)[email].(resetOtp := Issue(code, now))]
        && r == (if mailOk then Success(()) else Fail(MailFailed))
    {
      code := "";
      if email == "" || !IsValidEmail(email) {
        return Fail(InvalidEmailFormat), code;
      }
      if email !in users || users[email].password.None? {
        return Fail(UserNotFound), code;
      }
      var n :| LowestCode <= n <= HighestCode;
      code := CodeText(n);
      var user := users[email];
      user := user.(resetOtp := Issue(code, now));
      users := users[email := user];
      r := if mailOk then Success(()) else Fail(MailFailed);
    }

    /** `resetPassword`: the reset code must be unexpired (strictly) and match;
        the new password must have at least 8 characters. Only the password and
        the reset slot change. */
    method ResetPassword(email: Email, otp: string, newPassword: string) returns (r: Reply<()>)
      requires Valid()
      modifies this`users
      ensures Valid()
      ensures ResetInputError(email, otp, newPassword).Some? ==>
        r == Fail(ResetInputError(email, otp, newPassword).value) && users == old(users)
      ensures (ResetInputError(email, otp, newPassword).None?
               && !(email in old(users) && AcceptsBeforeExpiry(old(users)[email].resetOtp, otp, now))) ==>
        r == Fail(InvalidOrExpiredOtp) && users == old(users)
      ensures (ResetInputError(email, otp, newPassword).None?
               && email in old(users) && AcceptsBeforeExpiry(old(users)[email].resetOtp, otp, now)) ==>
        && r == Success(())
        && users == old(users)[email := old(users)[email].(password := Some(Hash(newPassword)), resetOtp := NoCode)]
    {
      var err := ResetInputError(email, otp, newPassword);
      if err.Some? {
        return Fail(err.value);
      }
      if !(email in users && AcceptsBeforeExpiry(users[email].resetOtp, otp, now)) {
        return Fail(InvalidOrExpiredOtp);
      }
      var user := users[email];
      user := user.(password := Some(Hash(newPassword)));
      user := user.(resetOtp := NoCode);
      users := users[email := user];
      r := Success(());
    }

    /** `updateAddress` for the authenticated user `id`. */
    method UpdateAddress(id: UserId, address: string) returns (r: Reply<Profile>)
      requires Valid()
      modifies this`users
      ensures Valid()
      ensures IsBlank(address) ==> r == Fail(AddressRequired) && users == old(users)
      ensures !IsBlank(address) && old(FindById(id)).None? ==> r == Fail(UserNotFound) && users == old(users)
      ensures !IsBlank(address) && old(FindById(id)).Some? ==>
        var u := old(FindById(id)).value;
        && users == old(users)[u.email := u.(address := address)]
        && r == Success(Profile(u.name, u.email, address))
    {
      if address == "" || IsBlank(address) {
        return Fail(AddressRequired);
      }
      if id !in byId || byId[id] !in users {
        return Fail(UserNotFound);
      }
      var user := users[byId[id]];
      user := user.(address := address);
      users := users[user.email := user];
      r := Success(ProfileOf(user));
    }

    /** `sendDeleteOtp` for the authenticated user `id`. */
    method SendDeleteOtp(id: UserId, mailOk: bool) returns (r: Reply<()>, code: string)
      requires Valid()
      modifies this`users
      ensures Valid()
      ensures old(FindById(id)).None? ==> r == Fail(UserNotFound) && users == old(users)
      ensures old(FindById(id)).Some? ==>
        var u := old(FindById(id)).value;
        && |code| == 6 && AllDigits(code)
        && users == old(users)[u.email := u.(deleteOtp := Issue(code, now))]
        && r == (if mailOk then Success(()) else Fail(MailFailed))
    {
      code := "";
      if id !in byId || byId[id] !in users {
        return Fail(UserNotFound), code;
      }
      var n :| LowestCode <= n <= HighestCode;
      code := CodeText(n);
      var user := users[byId[id]];
      user := user.(deleteOtp := Issue(code, now));
      users := users[user.email := user];
      r := if mailOk then Success(()) else Fail(MailFailed);
    }

    /** `deleteAccount` for the authenticated user `id`: a missing, wrong or
        expired delete code leaves the record alone; a good one removes it. */
    method DeleteAccount(id: UserId, otp: string) returns (r: Reply<()>)
      requires Valid()
      modifies this`users, this`byId
      ensures Valid()
      ensures otp == "" ==> r == Fail(OtpRequired) && unchanged(this)
      ensures otp != "" && old(FindById(id)).None? ==> r == Fail(UserNotFound) && unchanged(this)
      ensures otp != "" && old(FindById(id)).Some? ==>
        var u := old(FindById(id)).value;
        if AcceptsUntilExpiry(u.deleteOtp, otp, now) then
          r == Success(()) && users == old(users) - {u.email} && byId == old(byId) - {id} && FindById(id).None?
        else
          r == Fail(InvalidOrExpiredOtp) && unchanged(this)
    {
      if otp == "" {
        return Fail(OtpRequired);
      }
      if id !in byId || byId[id] !in users {
        return Fail(UserNotFound);
      }
      var user := users[byId[id]];
      if !AcceptsUntilExpiry(user.deleteOtp, otp, now) {
        return Fail(InvalidOrExpiredOtp);
      }
      users := users - {user.email};
      byId := byId - {id};
      r := Success(());
    }
  }
}
