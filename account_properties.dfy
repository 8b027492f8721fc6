/**
  What the account routes guarantee together: the invariant every route
  keeps, the registration and password-reset flows from start to end, and
  what a password reset is meant to require of the session, which
  `forgot_password` as written (apps.py:602-640) does not keep.
 */
module AccountProperties {
  import opened Wrappers
  import opened Text
  import opened Codes
  import opened Accounts

  /** One POST to an account route, with the clock reading, the random draw
      and the mail server's answer it meets. */
  datatype Request =
    | SignupReq(name: string, phone: string, email: string, username: string,
                password: string, confirm: string, terms: bool, draw: int, now: int, sendOk: bool)
    | VerifyEmailReq(code: string, now: int)
    | ResendReq(draw: int, now: int, sendOk: bool)
    | LoginReq(username: string, password: string)
    | LogoutReq
    | ForgotReq(username: string, draw: int, now: int, sendOk: bool)
    | VerifyOtpReq(otp: string, now: int)
    | ResetReq(newPassword: string, confirm: string)

  /** Every random draw is one `randint(1000, 9999)` can produce. */
  predicate WellFormed(req: Request)
  {
    (req.SignupReq? || req.ResendReq? || req.ForgotReq?) ==> 1000 <= req.draw <= 9999
  }

  predicate AllWellFormed(reqs: seq<Request>)
  {
    forall k :: 0 <= k < |reqs| ==> WellFormed(reqs[k])
  }

  /** The application as written handling one request. */
  function Step(st: State, req: Request): State
    requires WellFormed(req)
  {
    match req
    case SignupReq(name, phone, email, username, password, confirm, terms, draw, now, sendOk) =>
      Signup(st, name, phone, email, username, password, confirm, terms, draw, now, sendOk).0
    case VerifyEmailReq(code, now) => VerifyEmail(st, code, now).0
    case ResendReq(draw, now, sendOk) => ResendVerification(st, draw, now, sendOk).0
    case LoginReq(username, password) => LoginDetails(st, username, password).0
    case LogoutReq => Logout(st)
    case ForgotReq(username, draw, now, sendOk) => ForgotPassword(st, username, draw, now, sendOk).0
    case VerifyOtpReq(otp, now) => VerifyOtp(st, otp, now).0
    case ResetReq(newPassword, confirm) => ResetPassword(st, newPassword, confirm).0
  }

  /** The application with `forgot_password` corrected. */
  function StepFixed(st: State, req: Request): State
    requires WellFormed(req)
  {
    match req
    case ForgotReq(username, draw, now, sendOk) => ForgotPasswordFixed(st, username, draw, now, sendOk).0
    case _ => Step(st, req)
  }

  /** The corrected application handling requests in order. */
  function RunFixed(st: State, reqs: seq<Request>): State
    requires AllWellFormed(reqs)
    decreases |reqs|
  {
    if reqs == [] then st else RunFixed(StepFixed(st, reqs[0]), reqs[1..])
  }

  // ---------------------------------------------------------------------
  // The state invariant
  // ---------------------------------------------------------------------

  /** The UNIQUE constraint on the `email` column. */
  predicate UniqueEmails(users: map<string, User>)
  {
    forall u, v :: u in users && v in users && u != v ==> users[u].email != users[v].email
  }

  /** What holds of every state the routes reach: e-mails are unique, every
      stored code is a four-digit code, every reset token belongs to an
      existing user and carries that user's e-mail, and the session's
      `reset_username` names an existing user. */
  predicate Valid(st: State)
  {
    UniqueEmails(st.users)
    && (forall e :: e in st.emailCodes ==> IsCode(st.emailCodes[e].code))
    && (forall u :: u in st.resetTokens ==>
          u in st.users && IsCode(st.resetTokens[u].otp) && st.resetTokens[u].email == st.users[u].email)
    && (st.session.resetUsername.Some? ==> st.session.resetUsername.value in st.users)
  }

  /** Registering a verified user keeps the e-mails unique. */
  lemma VerifyEmailKeepsValid(st: State, code: string, now: int)
    requires Valid(st)
    ensures Valid(VerifyEmail(st, code, now).0)
  {
    var r := VerifyEmail(st, code, now);
    if r.1 == Registered {
      var p := st.session.pending.value;
      var users := r.0.users;
      forall u, v | u in users && v in users && u != v
        ensures users[u].email != users[v].email
      {
        if u == p.username {
          assert users[v] == st.users[v];
        } else if v == p.username {
          assert users[u] == st.users[u];
        }
      }
    }
  }

  /** A password reset keeps every e-mail where it was. */
  lemma ResetPasswordKeepsValid(st: State, newPassword: string, confirm: string)
    requires Valid(st)
    ensures Valid(ResetPassword(st, newPassword, confirm).0)
  {
    var r := ResetPassword(st, newPassword, confirm);
    if r.1 == PasswordReset {
      var u := st.session.resetUsername.value;
      forall v | v in r.0.users ensures r.0.users[v].email == st.users[v].email {
        if v == u {
          assert r.0.users[u] == st.users[u].(password := Hashed(newPassword));
        }
      }
    }
  }

  lemma SignupKeepsValid(st: State, name: string, phone: string, email: string, username: string,
                         password: string, confirm: string, terms: bool, draw: int, now: int, sendOk: bool)
    requires Valid(st) && 1000 <= draw <= 9999
    ensures Valid(Signup(st, name, phone, email, username, password, confirm, terms, draw, now, sendOk).0)
  {
  }

  lemma ResendKeepsValid(st: State, draw: int, now: int, sendOk: bool)
    requires Valid(st) && 1000 <= draw <= 9999
    ensures Valid(ResendVerification(st, draw, now, sendOk).0)
  {
  }

  lemma ForgotPasswordKeepsValid(st: State, username: string, draw: int, now: int, sendOk: bool)
    requires Valid(st) && 1000 <= draw <= 9999
    ensures Valid(ForgotPassword(st, username, draw, now, sendOk).0)
  {
  }

  lemma VerifyOtpKeepsValid(st: State, otp: string, now: int)
    requires Valid(st)
    ensures Valid(VerifyOtp(st, otp, now).0)
  {
  }

  /** Every route of the application as written keeps the invariant. */
  lemma StepKeepsValid(st: State, req: Request)
    requires Valid(st) && WellFormed(req)
    ensures Valid(Step(st, req))
  {
    match req
    case SignupReq(name, phone, email, username, password, confirm, terms, draw, now, sendOk) =>
      SignupKeepsValid(st, name, phone, email, username, password, confirm, terms, draw, now, sendOk);
    case VerifyEmailReq(code, now) => VerifyEmailKeepsValid(st, code, now);
    case ResendReq(draw, now, sendOk) => ResendKeepsValid(st, draw, now, sendOk);
    case LoginReq(username, password) =>
    case LogoutReq =>
    case ForgotReq(username, draw, now, sendOk) => ForgotPasswordKeepsValid(st, username, draw, now, sendOk);
    case VerifyOtpReq(otp, now) => VerifyOtpKeepsValid(st, otp, now);
    case ResetReq(newPassword, confirm) => ResetPasswordKeepsValid(st, newPassword, confirm);
  }

  /** The corrected `forgot_password` keeps the invariant too. */
  lemma StepFixedKeepsValid(st: State, req: Request)
    requires Valid(st) && WellFormed(req)
    ensures Valid(StepFixed(st, req))
  {
    StepKeepsValid(st, req);
  }

  // ---------------------------------------------------------------------
  // Flows from start to end
  // ---------------------------------------------------------------------

  /** A non-empty string with no whitespace in it. */
  predicate Unspaced(s: string)
  {
    s != [] && forall k :: 0 <= k < |s| ==> !IsSpace(s[k])
  }

  /** Every code is such a string. */
  lemma CodeUnspaced(code: string)
    requires IsCode(code)
    ensures Unspaced(code)
  {
  }

  /** Such a string survives the `strip` applied to what the user types. */
  lemma StripUnspaced(s: string)
    requires Unspaced(s)
    ensures Strip(s) == s
  {
    TrimLeftNoop(s);
    TrimRightNoop(s);
  }

  /** Typing the mailed verification code before it expires registers the
      pending user, unless the insert conflicts. */
  lemma MailedCodeRegisters(st: State, now: int)
    requires st.session.pending.Some? && st.session.pending.value.email in st.emailCodes
    requires Unspaced(st.emailCodes[st.session.pending.value.email].code)
    requires now <= st.emailCodes[st.session.pending.value.email].expiry
    requires !InsertConflicts(st.users, st.session.pending.value)
    ensures VerifyEmail(st, st.emailCodes[st.session.pending.value.email].code, now).1 == Registered
  {
    StripUnspaced(st.emailCodes[st.session.pending.value.email].code);
  }

  /** Typing the mailed reset code before it expires is accepted. */
  lemma MailedOtpAccepted(st: State, now: int)
    requires st.session.resetUsername.Some? && st.session.resetUsername.value in st.resetTokens
    requires Unspaced(st.resetTokens[st.session.resetUsername.value].otp)
    requires now <= st.resetTokens[st.session.resetUsername.value].expiry
    ensures VerifyOtp(st, st.resetTokens[st.session.resetUsername.value].otp, now).1 == OtpAccepted
  {
    StripUnspaced(st.resetTokens[st.session.resetUsername.value].otp);
  }

  /** Signing up, typing the mailed code within ten minutes and logging in
      with the same username and password succeeds at every step, and the
      new account is marked verified. */
  lemma RegistrationFlow(st: State, name: string, phone: string, email: string, username: string,
                         password: string, draw: int, now: int, later: int)
    requires 1000 <= draw <= 9999
    requires SignupAccepted(st, name, phone, email, username, password, password, true)
    requires now <= later <= now + CodeLifetime
    ensures
      var r1 := Signup(st, name, phone, email, username, password, password, true, draw, now, true);
      var r2 := VerifyEmail(r1.0, GenerateCode(draw), later);
      var r3 := LoginDetails(r2.0, username, password);
      r1.1 == VerificationSent && r2.1 == Registered && r3.1 == LoggedIn
      && r2.0.users[Strip(username)] == User(Strip(name), Strip(phone), Strip(email), Hashed(password), true)
      && r2.0.session.pending.None? && Strip(email) !in r2.0.emailCodes
      && r3.0.session.username == Some(Strip(username))
  {
    var code := GenerateCode(draw);
    var p := Pending(Strip(email), Strip(username), Strip(name), Strip(phone), Hashed(password));
    var st1 := st.(emailCodes := st.emailCodes[p.email := CodeEntry(code, now + CodeLifetime)],
                   session := st.session.(pending := Some(p)));
    SignupParks(st, name, phone, email, username, password, draw, now);
    CodeUnspaced(code);
    MailedCodeRegisters(st1, later);
    var r2 := VerifyEmail(st1, code, later);
    assert r2.0.users[p.username] == User(p.name, p.phone, p.email, p.password, true);
  }

  /** An accepted signup parks the registration and stores the code. */
  lemma SignupParks(st: State, name: string, phone: string, email: string, username: string,
                    password: string, draw: int, now: int)
    requires 1000 <= draw <= 9999
    requires SignupAccepted(st, name, phone, email, username, password, password, true)
    ensures
      var p := Pending(Strip(email), Strip(username), Strip(name), Strip(phone), Hashed(password));
      Signup(st, name, phone, email, username, password, password, true, draw, now, true)
      == (st.(emailCodes := st.emailCodes[p.email := CodeEntry(GenerateCode(draw), now + CodeLifetime)],
              session := st.session.(pending := Some(p))),
          VerificationSent)
      && !InsertConflicts(st.users, p)
  {
  }

  /** Asking for a reset, typing the mailed code within ten minutes and
      choosing a password of six characters or more succeeds at every step;
      afterwards the new password logs in and no other password does. */
  lemma PasswordResetFlow(st: State, username: string, draw: int, now: int, later: int, newPassword: string)
    requires 1000 <= draw <= 9999
    requires Strip(username) != [] && Strip(username) in st.users
    requires now <= later <= now + CodeLifetime
    requires |newPassword| >= MinPasswordLength
    ensures
      var r1 := ForgotPassword(st, username, draw, now, true);
      var r2 := VerifyOtp(r1.0, GenerateCode(draw), later);
      var r3 := ResetPassword(r2.0, newPassword, newPassword);
      r1.1 == OtpSent && r2.1 == OtpAccepted && r3.1 == PasswordReset
      && LoginDetails(r3.0, username, newPassword).1 == LoggedIn
      && (forall p :: p != newPassword ==> LoginDetails(r3.0, username, p).1 == InvalidCredentials)
      && Strip(username) !in r3.0.resetTokens && !ResetAllowed(r3.0.session)
  {
    var u := Strip(username);
    var r1 := ForgotPassword(st, username, draw, now, true);
    assert r1.0.session.resetUsername == Some(u);
    assert r1.0.resetTokens[u] == NewToken(st, u, draw, now);
    CodeUnspaced(GenerateCode(draw));
    MailedOtpAccepted(r1.0, later);
    var r2 := VerifyOtp(r1.0, GenerateCode(draw), later);
    assert ResetAllowed(r2.0.session) && r2.0.session.resetUsername == Some(u);
    assert u in r2.0.users;
    var r3 := ResetPassword(r2.0, newPassword, newPassword);
    assert r3.0.users[u].password == Hashed(newPassword);
  }

  /** Once a verification code has been found expired it is gone: any later
      attempt is told to ask for a new one until a code is sent again. */
  lemma ExpiredCodeIsGone(st: State, code: string, now: int, retry: string, later: int)
    requires VerifyEmail(st, code, now).1 == CodeExpired
    ensures VerifyEmail(VerifyEmail(st, code, now).0, retry, later).1 in {CodeMissing, NoCodeStored}
  {
  }

  /** Once a reset code has been found expired it is gone too. */
  lemma ExpiredOtpIsGone(st: State, otp: string, now: int, retry: string, later: int)
    requires VerifyOtp(st, otp, now).1 == OtpExpired
    ensures VerifyOtp(VerifyOtp(st, otp, now).0, retry, later).1 in {OtpMissing, NoResetToken}
  {
  }

  /** `check_email` answers in advance whether signup would stop at the
      e-mail check. */
  lemma CheckEmailPredictsSignup(st: State, name: string, phone: string, email: string, username: string,
                                 password: string, draw: int, now: int, sendOk: bool)
    requires 1000 <= draw <= 9999
    requires SignupFieldsPresent(name, phone, email, username, password, password)
    ensures CheckEmail(st, email) <==>
      Signup(st, name, phone, email, username, password, password, true, draw, now, sendOk).1 == EmailTaken
  {
  }

  // ---------------------------------------------------------------------
  // What a password reset is meant to require
  // ---------------------------------------------------------------------

  /** The session holds an accepted reset code only for the user whose code
      it was. */
  predicate Authorized(st: State)
  {
    st.session.otpVerified ==> st.session.resetUsername.Some? && st.verifiedFor == st.session.resetUsername
  }

  lemma InitAuthorized(users: map<string, User>)
    ensures Authorized(Init(users)) && !ResetAllowed(Init(users).session)
  {
  }

  /** In an authorized session a successful reset changes the password of
      the user whose mailed code was accepted, and of no one else. */
  lemma ResetOnlyForVerifiedUser(st: State, newPassword: string, confirm: string)
    requires Authorized(st)
    requires ResetPassword(st, newPassword, confirm).1 == PasswordReset
    ensures st.verifiedFor.Some? && st.session.resetUsername == st.verifiedFor
    ensures forall v :: v in st.users && Some(v) != st.verifiedFor ==>
      ResetPassword(st, newPassword, confirm).0.users[v] == st.users[v]
  {
  }

  /** Every route of the corrected application keeps the session authorized. */
  lemma StepFixedKeepsAuthorized(st: State, req: Request)
    requires Authorized(st) && WellFormed(req)
    ensures Authorized(StepFixed(st, req))
  {
  }

  /** However the corrected application is driven from a fresh start, the
      session stays authorized, so a reset can only ever change the
      password of the user whose code was accepted. */
  lemma {:induction false} RunFixedKeepsAuthorized(st: State, reqs: seq<Request>)
    requires Authorized(st) && AllWellFormed(reqs)
    ensures Authorized(RunFixed(st, reqs))
    decreases |reqs|
  {
    if reqs != [] {
      StepFixedKeepsAuthorized(st, reqs[0]);
      RunFixedKeepsAuthorized(StepFixed(st, reqs[0]), reqs[1..]);
    }
  }

  /** Two registered users for the example below. */
  const Alice := User("Alice", "9000000001", "alice@example.com", Hashed("alice-secret"), true)
  const Bob := User("Bob", "9000000002", "bob@example.com", Hashed("bob-secret"), true)

  /** The example's starting state is one the invariant admits. */
  lemma ExampleStartValid()
    ensures Valid(Init(map["alice" := Alice, "bob" := Bob]))
  {
    var users := map["alice" := Alice, "bob" := Bob];
    forall u, v | u in users && v in users && u != v
      ensures users[u].email != users[v].email
    {
      assert u == "alice" || u == "bob";
      assert Alice.email != Bob.email by {
        assert Alice.email[0] == 'a' && Bob.email[0] == 'b';
      }
    }
  }

  /** A reset code mailed for a known user: the session now names that
      user, the token holds the code for ten minutes, and nothing else about
      the users, the accepted code or its owner changes. */
  lemma OtpIssued(st: State, u: string, draw: int, now: int)
    requires 1000 <= draw <= 9999
    requires Unspaced(u) && u in st.users
    ensures var r := ForgotPassword(st, u, draw, now, true);
      r.1 == OtpSent && r.0.session.resetUsername == Some(u)
      && u in r.0.resetTokens && r.0.resetTokens[u].otp == GenerateCode(draw)
      && r.0.resetTokens[u].expiry == now + CodeLifetime
      && r.0.users == st.users && r.0.verifiedFor == st.verifiedFor
      && r.0.session.otpVerified == st.session.otpVerified
  {
    StripUnspaced(u);
  }

  /** Typing the mailed reset code in time marks it accepted for the user
      the session names. */
  lemma OtpTyped(st: State, draw: int, now: int)
    requires 1000 <= draw <= 9999
    requires st.session.resetUsername.Some? && st.session.resetUsername.value in st.resetTokens
    requires st.resetTokens[st.session.resetUsername.value].otp == GenerateCode(draw)
    requires now <= st.resetTokens[st.session.resetUsername.value].expiry
    ensures var r := VerifyOtp(st, GenerateCode(draw), now);
      r.1 == OtpAccepted
      && r.0 == st.(session := st.session.(otpVerified := true), verifiedFor := st.session.resetUsername)
  {
    CodeUnspaced(GenerateCode(draw));
    MailedOtpAccepted(st, now);
  }

  /** With an accepted code for a known user, a long enough password typed
      twice becomes that user's password. */
  lemma ResetTakesEffect(st: State, newPassword: string)
    requires ResetAllowed(st.session) && st.session.resetUsername.value in st.users
    requires |newPassword| >= MinPasswordLength
    ensures var r := ResetPassword(st, newPassword, newPassword);
      r.1 == PasswordReset
      && r.0.users == st.users[st.session.resetUsername.value :=
                               st.users[st.session.resetUsername.value].(password := Hashed(newPassword))]
  {
  }

  /** A session holding an accepted code that asks for a reset of a second
      account keeps the acceptance, and its password form then resets the
      second account. */
  lemma SwitchThenReset(st: State, b: string, draw: int, now: int, newPassword: string)
    requires 1000 <= draw <= 9999
    requires Unspaced(b) && b in st.users && st.session.otpVerified
    requires |newPassword| >= MinPasswordLength
    ensures
      var r3 := ForgotPassword(st, b, draw, now, true);
      var r4 := ResetPassword(r3.0, newPassword, newPassword);
      r3.1 == OtpSent && r3.0.verifiedFor == st.verifiedFor && r3.0.session.resetUsername == Some(b)
      && r3.0.session.otpVerified
      && r4.1 == PasswordReset && r4.0.users[b].password == Hashed(newPassword)
  {
    var r3 := ForgotPassword(st, b, draw, now, true);
    OtpIssued(st, b, draw, now);
    ResetTakesEffect(r3.0, newPassword);
  }

  /** The application as written lets one session reset another user's
      password: a user asks for a reset of their own account `a` and types
      the mailed code, then asks for a reset of account `b` (the code goes
      to `b`'s owner) and submits a new password, which becomes `b`'s. The
      session is unauthorized from the second request on. */
  lemma {:induction false} CrossAccountResetAsWritten(st: State, a: string, b: string, draw1: int, draw2: int,
                                                       t0: int, t1: int, t2: int, newPassword: string)
    requires 1000 <= draw1 <= 9999 && 1000 <= draw2 <= 9999
    requires Unspaced(a) && Unspaced(b) && a != b && a in st.users && b in st.users
    requires t0 <= t1 <= t0 + CodeLifetime
    requires |newPassword| >= MinPasswordLength
    ensures
      var r1 := ForgotPassword(st, a, draw1, t0, true);
      var r2 := VerifyOtp(r1.0, GenerateCode(draw1), t1);
      var r3 := ForgotPassword(r2.0, b, draw2, t2, true);
      var r4 := ResetPassword(r3.0, newPassword, newPassword);
      r1.1 == OtpSent && r2.1 == OtpAccepted && r3.1 == OtpSent && r4.1 == PasswordReset
      && r3.0.verifiedFor == Some(a) && !Authorized(r3.0)
      && r4.0.users[b].password == Hashed(newPassword)
  {
    var r1 := ForgotPassword(st, a, draw1, t0, true);
    OtpIssued(st, a, draw1, t0);
    var r2 := VerifyOtp(r1.0, GenerateCode(draw1), t1);
    OtpTyped(r1.0, draw1, t1);
    SwitchThenReset(r2.0, b, draw2, t2, newPassword);
  }

  /** With `forgot_password` corrected, the same requests leave every
      password alone: the reset is refused. */
  lemma {:induction false} CrossAccountResetFixed(st: State, a: string, b: string, draw1: int, draw2: int,
                                                  t0: int, t1: int, t2: int, newPassword: string)
    requires 1000 <= draw1 <= 9999 && 1000 <= draw2 <= 9999
    requires Unspaced(a) && Unspaced(b) && a in st.users && b in st.users
    requires t0 <= t1 <= t0 + CodeLifetime
    ensures
      var r1 := ForgotPasswordFixed(st, a, draw1, t0, true);
      var r2 := VerifyOtp(r1.0, GenerateCode(draw1), t1);
      var r3 := ForgotPasswordFixed(r2.0, b, draw2, t2, true);
      var r4 := ResetPassword(r3.0, newPassword, newPassword);
      r1.1 == OtpSent && r2.1 == OtpAccepted && r3.1 == OtpSent && r4.1 == NotAuthorized
      && r4.0.users == st.users
  {
    var r1 := ForgotPasswordFixed(st, a, draw1, t0, true);
    OtpIssued(st, a, draw1, t0);
    var r2 := VerifyOtp(r1.0, GenerateCode(draw1), t1);
    OtpTyped(r1.0, draw1, t1);
    assert r2.0.users == st.users;
    var r3 := ForgotPasswordFixed(r2.0, b, draw2, t2, true);
    OtpIssued(r2.0, b, draw2, t2);
    assert !r3.0.session.otpVerified && r3.0.users == st.users;
  }

  /** The example: Alice asks for a reset and types her own mailed code,
      then asks for a reset of Bob's account and sets a password that
      becomes Bob's. */
  lemma CrossAccountReset()
    ensures
      var st0 := Init(map["alice" := Alice, "bob" := Bob]);
      var r1 := ForgotPassword(st0, "alice", 1234, 0, true);
      var r2 := VerifyOtp(r1.0, GenerateCode(1234), 60);
      var r3 := ForgotPassword(r2.0, "bob", 5678, 120, true);
      var r4 := ResetPassword(r3.0, "taken!", "taken!");
      Authorized(st0)
      && r1.1 == OtpSent && r2.1 == OtpAccepted && r3.1 == OtpSent && r4.1 == PasswordReset
      && r3.0.verifiedFor == Some("alice") && !Authorized(r3.0)
      && r4.0.users["bob"].password == Hashed("taken!")
  {
    assert Unspaced("alice") && Unspaced("bob");
    InitAuthorized(map["alice" := Alice, "bob" := Bob]);
    CrossAccountResetAsWritten(Init(map["alice" := Alice, "bob" := Bob]), "alice", "bob",
                               1234, 5678, 0, 60, 120, "taken!");
  }

  /** The same example against the corrected `forgot_password`: the reset
      is refused and Bob keeps his account as it was. */
  lemma CrossAccountResetRefused()
    ensures
      var st0 := Init(map["alice" := Alice, "bob" := Bob]);
      var r1 := ForgotPasswordFixed(st0, "alice", 1234, 0, true);
      var r2 := VerifyOtp(r1.0, GenerateCode(1234), 60);
      var r3 := ForgotPasswordFixed(r2.0, "bob", 5678, 120, true);
      var r4 := ResetPassword(r3.0, "taken!", "taken!");
      r1.1 == OtpSent && r2.1 == OtpAccepted && r3.1 == OtpSent && r4.1 == NotAuthorized
      && r4.0.users["bob"] == Bob
  {
    assert Unspaced("alice") && Unspaced("bob");
    CrossAccountResetFixed(Init(map["alice" := Alice, "bob" := Bob]), "alice", "bob",
                           1234, 5678, 0, 60, 120, "taken!");
  }
}
