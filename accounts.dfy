/**
  The account routes of the Flask site (apps.py:255-716) as transitions of
  one state: the users table, the two in-memory maps of pending codes
  (`email_verification_codes`, keyed by e-mail, and `password_reset_tokens`,
  keyed by username), and the browser session. Each route's POST handling
  is a function from the state before to the state after and the outcome
  the route reports (its flash message or JSON answer).

  The clock (`datetime.now()`, in seconds), the random draw behind each code
  and whether the mail server accepted a message are parameters.
 */
module Accounts {
  import opened Wrappers
  import opened Text
  import opened Codes

  /** `timedelta(minutes=10)`, in seconds: how long a mailed code is valid. */
  const CodeLifetime: int := 600

  /** The value `generate_password_hash` stores. Hashing is modelled as an
      injective function, so `check_password_hash(h, p)` holds exactly when
      `h` was made from `p`. */
  datatype PasswordHash = Hashed(secret: string)

  /** `check_password_hash(h, password)`. */
  predicate CheckPassword(h: PasswordHash, password: string)
  {
    h == Hashed(password)
  }

  /** A row of the `users` table, keyed by username. */
  datatype User = User(name: string, phone: string, email: string, password: PasswordHash, emailVerified: bool)

  /** An entry of `email_verification_codes`. */
  datatype CodeEntry = CodeEntry(code: string, expiry: int)

  /** An entry of `password_reset_tokens`. */
  datatype ResetToken = ResetToken(otp: string, expiry: int, email: string)

  /** The `pending_*` session keys, which signup sets together and a
      successful verification removes together. */
  datatype Pending = Pending(email: string, username: string, name: string, phone: string, password: PasswordHash)

  /** The session keys the routes use. A missing `otp_verified` key reads as false. */
  datatype Session = Session(pending: Option<Pending>, username: Option<string>,
                             resetUsername: Option<string>, otpVerified: bool)

  /** Everything the routes read and write. `verifiedFor` is not kept by the
      application: the model records in it the user whose reset code
      `verify_otp` last accepted, so that what a password reset is meant to
      require can be stated. */
  datatype State = State(users: map<string, User>, emailCodes: map<string, CodeEntry>,
                         resetTokens: map<string, ResetToken>, session: Session,
                         verifiedFor: Option<string>)

  /** A fresh start: the given users, no codes, an empty session. */
  function Init(users: map<string, User>): State
  {
    State(users, map[], map[], Session(None, None, None, false), None)
  }

  /** `SELECT email FROM users WHERE email = ?` finds a row. */
  predicate EmailRegistered(users: map<string, User>, email: string)
  {
    exists u :: u in users && users[u].email == email
  }

  // ---------------------------------------------------------------------
  // check_email (apps.py:255-268)
  // ---------------------------------------------------------------------

  /** `check_email`: whether the stripped address is registered; an empty
      address is reported as not registered. */
  function CheckEmail(st: State, email: string): (taken: bool)
    ensures taken <==> Strip(email) != [] && EmailRegistered(st.users, Strip(email))
  {
    var e := Strip(email);
    if e == [] then false else EmailRegistered(st.users, e)
  }

  // ---------------------------------------------------------------------
  // signup (apps.py:398-457)
  // ---------------------------------------------------------------------

  datatype SignupOutcome =
    | FieldsMissing          // "All fields are required."
    | PasswordMismatch       // "Passwords do not match."
    | TermsNotAccepted       // "You must agree to the Terms & Conditions."
    | EmailTaken             // "Email already registered. ..."
    | UsernameTaken          // "Username already exists. ..."
    | VerificationSent       // "Verification code sent to your email. ..."
    | VerificationSendFailed // "Failed to send verification email. ..."

  /** Every signup field is non-empty (name, phone, e-mail and username
      after stripping; the passwords as typed). */
  predicate SignupFieldsPresent(name: string, phone: string, email: string, username: string,
                                password: string, confirm: string)
  {
    Strip(name) != [] && Strip(phone) != [] && Strip(email) != [] && Strip(username) != []
    && password != [] && confirm != []
  }

  /** All five signup checks pass. */
  predicate SignupAccepted(st: State, name: string, phone: string, email: string, username: string,
                           password: string, confirm: string, terms: bool)
  {
    SignupFieldsPresent(name, phone, email, username, password, confirm)
    && password == confirm && terms
    && !EmailRegistered(st.users, Strip(email)) && Strip(username) !in st.users
  }

  /** `signup`: the five checks in order; only when all pass is a code
      stored for the e-mail, replacing any earlier one and valid for ten
      minutes, and the registration parked in the session. Both happen
      before the mail is sent, so they stay when sending fails. */
  function Signup(st: State, name: string, phone: string, email: string, username: string,
                  password: string, confirm: string, terms: bool,
                  draw: int, now: int, sendOk: bool): (r: (State, SignupOutcome))
    requires 1000 <= draw <= 9999
    ensures r.1 == FieldsMissing <==> !SignupFieldsPresent(name, phone, email, username, password, confirm)
    ensures r.1 == PasswordMismatch <==>
      SignupFieldsPresent(name, phone, email, username, password, confirm) && password != confirm
    ensures r.1 == TermsNotAccepted <==>
      SignupFieldsPresent(name, phone, email, username, password, confirm) && password == confirm && !terms
    ensures r.1 == EmailTaken <==>
      SignupFieldsPresent(name, phone, email, username, password, confirm) && password == confirm && terms
      && EmailRegistered(st.users, Strip(email))
    ensures r.1 == UsernameTaken <==>
      SignupFieldsPresent(name, phone, email, username, password, confirm) && password == confirm && terms
      && !EmailRegistered(st.users, Strip(email)) && Strip(username) in st.users
    ensures r.1 == VerificationSent <==>
      SignupAccepted(st, name, phone, email, username, password, confirm, terms) && sendOk
    ensures !SignupAccepted(st, name, phone, email, username, password, confirm, terms) ==> r.0 == st
    ensures SignupAccepted(st, name, phone, email, username, password, confirm, terms) ==>
      r.0 == st.(emailCodes := st.emailCodes[Strip(email) := CodeEntry(GenerateCode(draw), now + CodeLifetime)],
                 session := st.session.(pending := Some(Pending(Strip(email), Strip(username), Strip(name),
                                                                Strip(phone), Hashed(password)))))
  {
    var n := Strip(name);
    var m := Strip(phone);
    var e := Strip(email);
    var u := Strip(username);
    if n == [] || m == [] || e == [] || u == [] || password == [] || confirm == [] then (st, FieldsMissing)
    else if password != confirm then (st, PasswordMismatch)
    else if !terms then (st, TermsNotAccepted)
    else if EmailRegistered(st.users, e) then (st, EmailTaken)
    else if u in st.users then (st, UsernameTaken)
    else
      var codes := st.emailCodes[e := CodeEntry(GenerateCode(draw), now + CodeLifetime)];
      var pending := Pending(e, u, n, m, Hashed(password));
      (st.(emailCodes := codes, session := st.session.(pending := Some(pending))),
       if sendOk then VerificationSent else VerificationSendFailed)
  }

  // ---------------------------------------------------------------------
  // verify_email (apps.py:270-336)
  // ---------------------------------------------------------------------

  datatype VerifyEmailOutcome =
    | NoPendingRegistration  // "No email to verify. Please register again."
    | CodeMissing            // "Please enter the verification code."
    | NoCodeStored           // "Verification code expired. Please request a new one."
    | CodeExpired            // "Verification code has expired. Please request a new one."
    | Registered             // "Email verified successfully! Registration complete. ..."
    | RegistrationFailed     // "Registration failed. The username or email may already be taken. ..."
    | WrongCode              // "Invalid verification code. Please try again."

  /** The insert of the pending registration breaks a UNIQUE constraint. */
  predicate InsertConflicts(users: map<string, User>, p: Pending)
  {
    p.username in users || EmailRegistered(users, p.email)
  }

  /** `verify_email` (POST): with a registration pending, the stripped code
      is checked against the stored one. A missing entry is rejected; a code
      past its expiry (strictly later clock) is deleted and rejected; a
      matching code inserts the user as verified and removes the pending
      registration and the code, unless the insert fails, which keeps both;
      a wrong code changes nothing. */
  function VerifyEmail(st: State, entered: string, now: int): (r: (State, VerifyEmailOutcome))
    ensures r.1 == NoPendingRegistration <==> st.session.pending.None?
    ensures r.1 == CodeMissing <==> st.session.pending.Some? && Strip(entered) == []
    ensures r.1 == NoCodeStored <==>
      st.session.pending.Some? && Strip(entered) != [] && st.session.pending.value.email !in st.emailCodes
    ensures r.1 == CodeExpired <==>
      st.session.pending.Some? && Strip(entered) != [] && st.session.pending.value.email in st.emailCodes
      && now > st.emailCodes[st.session.pending.value.email].expiry
    ensures r.1 == CodeExpired ==>
      r.0 == st.(emailCodes := st.emailCodes - {st.session.pending.value.email})
    ensures r.1 == Registered <==>
      st.session.pending.Some? && st.session.pending.value.email in st.emailCodes
      && now <= st.emailCodes[st.session.pending.value.email].expiry
      && Strip(entered) == st.emailCodes[st.session.pending.value.email].code && Strip(entered) != []
      && !InsertConflicts(st.users, st.session.pending.value)
    ensures r.1 == Registered ==>
      var p := st.session.pending.value;
      r.0 == st.(users := st.users[p.username := User(p.name, p.phone, p.email, p.password, true)],
                 emailCodes := st.emailCodes - {p.email},
                 session := st.session.(pending := None))
    ensures r.1 == RegistrationFailed <==>
      st.session.pending.Some? && st.session.pending.value.email in st.emailCodes
      && now <= st.emailCodes[st.session.pending.value.email].expiry
      && Strip(entered) == st.emailCodes[st.session.pending.value.email].code && Strip(entered) != []
      && InsertConflicts(st.users, st.session.pending.value)
    ensures r.1 == WrongCode <==>
      st.session.pending.Some? && Strip(entered) != [] && st.session.pending.value.email in st.emailCodes
      && now <= st.emailCodes[st.session.pending.value.email].expiry
      && Strip(entered) != st.emailCodes[st.session.pending.value.email].code
    ensures r.1 !in {CodeExpired, Registered} ==> r.0 == st
  {
    match st.session.pending
    case None => (st, NoPendingRegistration)
    case Some(p) =>
      var code := Strip(entered);
      if code == [] then (st, CodeMissing)
      else if p.email !in st.emailCodes then (st, NoCodeStored)
      else if now > st.emailCodes[p.email].expiry then
        (st.(emailCodes := st.emailCodes - {p.email}), CodeExpired)
      else if code == st.emailCodes[p.email].code then
        if InsertConflicts(st.users, p) then (st, RegistrationFailed)
        else
          (st.(users := st.users[p.username := User(p.name, p.phone, p.email, p.password, true)],
               emailCodes := st.emailCodes - {p.email},
               session := st.session.(pending := None)),
           Registered)
      else (st, WrongCode)
  }

  // ---------------------------------------------------------------------
  // resend_verification (apps.py:338-355)
  // ---------------------------------------------------------------------

  datatype ResendOutcome =
    | ResendSessionExpired   // "Session expired"
    | Resent                 // "Verification code sent!"
    | ResendFailed           // "Failed to send verification code"

  /** `resend_verification`: with a registration pending, a new code replaces
      the stored one for its e-mail, before the mail is sent. */
  function ResendVerification(st: State, draw: int, now: int, sendOk: bool): (r: (State, ResendOutcome))
    requires 1000 <= draw <= 9999
    ensures r.1 == ResendSessionExpired <==> st.session.pending.None?
    ensures r.1 == ResendSessionExpired ==> r.0 == st
    ensures r.1 == Resent <==> st.session.pending.Some? && sendOk
    ensures st.session.pending.Some? ==>
      r.0 == st.(emailCodes := st.emailCodes[st.session.pending.value.email :=
                                             CodeEntry(GenerateCode(draw), now + CodeLifetime)])
  {
    match st.session.pending
    case None => (st, ResendSessionExpired)
    case Some(p) =>
      (st.(emailCodes := st.emailCodes[p.email := CodeEntry(GenerateCode(draw), now + CodeLifetime)]),
       if sendOk then Resent else ResendFailed)
  }

  // ---------------------------------------------------------------------
  // logindetails and logout (apps.py:463-487)
  // ---------------------------------------------------------------------

  datatype LoginOutcome =
    | LoggedIn            // "Login successful!"
    | InvalidCredentials  // "Invalid username or password."

  /** `logindetails`: the stripped username must exist and the password, as
      typed, must match its hash; then the session records the user. */
  function LoginDetails(st: State, username: string, password: string): (r: (State, LoginOutcome))
    ensures r.1 == LoggedIn <==>
      Strip(username) in st.users && CheckPassword(st.users[Strip(username)].password, password)
    ensures r.1 == LoggedIn ==> r.0 == st.(session := st.session.(username := Some(Strip(username))))
    ensures r.1 == InvalidCredentials ==> r.0 == st
  {
    var u := Strip(username);
    if u in st.users && CheckPassword(st.users[u].password, password) then
      (st.(session := st.session.(username := Some(u))), LoggedIn)
    else (st, InvalidCredentials)
  }

  /** `logout`: only the session's username goes. */
  function Logout(st: State): (r: State)
    ensures r.session.username.None?
    ensures r.(session := r.session.(username := st.session.username)) == st
  {
    st.(session := st.session.(username := None))
  }

  // ---------------------------------------------------------------------
  // forgot_password (apps.py:602-640)
  // ---------------------------------------------------------------------

  datatype ForgotOutcome =
    | ResetUsernameMissing  // "Please enter your username."
    | UserNotFound          // "Username not found."
    | OtpSent               // "OTP has been sent to your registered email address."
    | OtpSendFailed         // "Failed to send OTP. Please try again later."

  /** The reset token `forgot_password` stores for a known user. */
  function NewToken(st: State, u: string, draw: int, now: int): ResetToken
    requires u in st.users && 1000 <= draw <= 9999
  {
    ResetToken(GenerateCode(draw), now + CodeLifetime, st.users[u].email)
  }

  /** `forgot_password`, as written: for a known stripped username a token
      is stored (replacing any earlier one) before the mail is sent; only a
      successful send points the session's `reset_username` at the user.
      The session's `otp_verified` flag is left as it was. */
  function ForgotPassword(st: State, username: string, draw: int, now: int, sendOk: bool): (r: (State, ForgotOutcome))
    requires 1000 <= draw <= 9999
    ensures r.1 == ResetUsernameMissing <==> Strip(username) == []
    ensures r.1 == UserNotFound <==> Strip(username) != [] && Strip(username) !in st.users
    ensures r.1 == OtpSent <==> Strip(username) != [] && Strip(username) in st.users && sendOk
    ensures r.1 in {ResetUsernameMissing, UserNotFound} ==> r.0 == st
    ensures r.1 == OtpSent ==>
      r.0 == st.(resetTokens := st.resetTokens[Strip(username) := NewToken(st, Strip(username), draw, now)],
                 session := st.session.(resetUsername := Some(Strip(username))))
    ensures r.1 == OtpSendFailed ==>
      r.0 == st.(resetTokens := st.resetTokens[Strip(username) := NewToken(st, Strip(username), draw, now)])
  {
    var u := Strip(username);
    if u == [] then (st, ResetUsernameMissing)
    else if u !in st.users then (st, UserNotFound)
    else
      var tokens := st.resetTokens[u := NewToken(st, u, draw, now)];
      if sendOk then (st.(resetTokens := tokens, session := st.session.(resetUsername := Some(u))), OtpSent)
      else (st.(resetTokens := tokens), OtpSendFailed)
  }

  /** `forgot_password` as it is evidently meant to work: issuing a new reset
      code also withdraws any earlier code acceptance in the session. */
  function ForgotPasswordFixed(st: State, username: string, draw: int, now: int, sendOk: bool): (r: (State, ForgotOutcome))
    requires 1000 <= draw <= 9999
    ensures r.1 == ForgotPassword(st, username, draw, now, sendOk).1
    ensures r.1 in {ResetUsernameMissing, UserNotFound} ==> r.0 == st
    ensures r.1 in {OtpSent, OtpSendFailed} ==>
      !r.0.session.otpVerified
      && r.0 == ForgotPassword(st, username, draw, now, sendOk).0.(session :=
           ForgotPassword(st, username, draw, now, sendOk).0.session.(otpVerified := false))
  {
    var (st', outcome) := ForgotPassword(st, username, draw, now, sendOk);
    if outcome in {OtpSent, OtpSendFailed} then (st'.(session := st'.session.(otpVerified := false)), outcome)
    else (st', outcome)
  }

  // ---------------------------------------------------------------------
  // verify_otp (apps.py:642-674)
  // ---------------------------------------------------------------------

  datatype OtpOutcome =
    | NoResetSession     // redirect to forgot_password
    | OtpMissing         // "Please enter the OTP."
    | NoResetToken       // "OTP session expired. Please request a new OTP."
    | OtpExpired         // "OTP has expired. Please request a new OTP."
    | OtpAccepted        // "OTP verified successfully. ..."
    | WrongOtp           // "Invalid OTP. Please try again."

  /** `verify_otp` (POST): for the session's `reset_username`, the stripped
      code is checked against the stored token. A missing token is
      rejected; an expired one is deleted; a matching code sets
      `otp_verified` and keeps the token; a wrong code changes nothing. */
  function VerifyOtp(st: State, entered: string, now: int): (r: (State, OtpOutcome))
    ensures r.1 == NoResetSession <==> st.session.resetUsername.None?
    ensures r.1 == OtpMissing <==> st.session.resetUsername.Some? && Strip(entered) == []
    ensures r.1 == NoResetToken <==>
      st.session.resetUsername.Some? && Strip(entered) != [] && st.session.resetUsername.value !in st.resetTokens
    ensures r.1 == OtpExpired <==>
      st.session.resetUsername.Some? && Strip(entered) != [] && st.session.resetUsername.value in st.resetTokens
      && now > st.resetTokens[st.session.resetUsername.value].expiry
    ensures r.1 == OtpExpired ==>
      r.0 == st.(resetTokens := st.resetTokens - {st.session.resetUsername.value})
    ensures r.1 == OtpAccepted <==>
      st.session.resetUsername.Some? && st.session.resetUsername.value in st.resetTokens
      && now <= st.resetTokens[st.session.resetUsername.value].expiry
      && Strip(entered) != [] && Strip(entered) == st.resetTokens[st.session.resetUsername.value].otp
    ensures r.1 == OtpAccepted ==>
      r.0 == st.(session := st.session.(otpVerified := true), verifiedFor := st.session.resetUsername)
    ensures r.1 !in {OtpExpired, OtpAccepted} ==> r.0 == st
  {
    match st.session.resetUsername
    case None => (st, NoResetSession)
    case Some(u) =>
      var otp := Strip(entered);
      if otp == [] then (st, OtpMissing)
      else if u !in st.resetTokens then (st, NoResetToken)
      else if now > st.resetTokens[u].expiry then (st.(resetTokens := st.resetTokens - {u}), OtpExpired)
      else if otp == st.resetTokens[u].otp then
        (st.(session := st.session.(otpVerified := true), verifiedFor := Some(u)), OtpAccepted)
      else (st, WrongOtp)
  }

  // ---------------------------------------------------------------------
  // reset_password (apps.py:676-716)
  // ---------------------------------------------------------------------

  datatype ResetOutcome =
    | NotAuthorized       // redirect to forgot_password
    | ResetFieldsMissing  // "Please fill in all fields."
    | ResetMismatch       // "Passwords do not match."
    | ResetTooShort       // "Password must be at least 6 characters long."
    | PasswordReset       // "Password reset successfully. ..."

  /** The shortest password `reset_password` accepts. */
  const MinPasswordLength: nat := 6

  /** The session may reset a password: it names a user and a code was accepted. */
  predicate ResetAllowed(s: Session)
  {
    s.resetUsername.Some? && s.otpVerified
  }

  /** `reset_password` (POST): refused unless the session names a user and
      holds an accepted code; then the checks run in order (both fields
      present, equal, at least six characters). On success only that user's
      password changes (the `UPDATE` touches no row for an unknown user), and
      `reset_username`, `otp_verified` and the user's token are removed. */
  function ResetPassword(st: State, newPassword: string, confirm: string): (r: (State, ResetOutcome))
    ensures r.1 == NotAuthorized <==> !ResetAllowed(st.session)
    ensures r.1 == ResetFieldsMissing <==> ResetAllowed(st.session) && (newPassword == [] || confirm == [])
    ensures r.1 == ResetMismatch <==>
      ResetAllowed(st.session) && newPassword != [] && confirm != [] && newPassword != confirm
    ensures r.1 == ResetTooShort <==>
      ResetAllowed(st.session) && newPassword != [] && newPassword == confirm && |newPassword| < MinPasswordLength
    ensures r.1 != PasswordReset ==> r.0 == st
    ensures r.1 == PasswordReset ==>
      var u := st.session.resetUsername.value;
      r.0.users.Keys == st.users.Keys
      && (forall v :: v in st.users && v != u ==> r.0.users[v] == st.users[v])
      && (u in st.users ==> r.0.users[u] == st.users[u].(password := Hashed(newPassword)))
      && r.0.resetTokens == st.resetTokens - {u}
      && r.0.emailCodes == st.emailCodes
      && r.0.session == st.session.(resetUsername := None, otpVerified := false)
      && r.0.verifiedFor == None
  {
    if !ResetAllowed(st.session) then (st, NotAuthorized)
    else
      var u := st.session.resetUsername.value;
      if newPassword == [] || confirm == [] then (st, ResetFieldsMissing)
      else if newPassword != confirm then (st, ResetMismatch)
      else if |newPassword| < MinPasswordLength then (st, ResetTooShort)
      else
        var users := if u in st.users then st.users[u := st.users[u].(password := Hashed(newPassword))] else st.users;
        (st.(users := users, resetTokens := st.resetTokens - {u},
             session := st.session.(resetUsername := None, otpVerified := false),
             verifiedFor := None),
         PasswordReset)
  }
}
