/**
  The account routes as the application runs them: the users table, the
  module-level dictionaries `email_verification_codes` and
  `password_reset_tokens`, and one browser session are fields that each
  route updates in place. Every method is proved to leave exactly the state,
  and report exactly the outcome, of the matching transition in `Accounts`,
  whose properties are proved there and in `AccountProperties`.
 */
module AccountService {
  import opened Wrappers
  import opened Text
  import opened Codes
  import opened Accounts

  class AccountService {
    var users: map<string, User>
    var emailCodes: map<string, CodeEntry>
    var resetTokens: map<string, ResetToken>
    var session: Session
    /** Bookkeeping of the model only: whose reset code was last accepted. */
    var verifiedFor: Option<string>

    /** The fields as one value. */
    function Snapshot(): State
      reads this
    {
      State(users, emailCodes, resetTokens, session, verifiedFor)
    }

    /** The application starting with the given users and nothing pending. */
    constructor(registered: map<string, User>)
      ensures Snapshot() == Init(registered)
    {
      users := registered;
      emailCodes := map[];
      resetTokens := map[];
      session := Session(None, None, None, false);
      verifiedFor := None;
    }

    /** `check_email` (apps.py:255-268). */
    method CheckEmail(email: string) returns (taken: bool)
      ensures taken == Accounts.CheckEmail(Snapshot(), email)
    {
      var e := Strip(email);
      if e == [] {
        return false;
      }
      taken := EmailRegistered(users, e);
    }

    /** `signup` (apps.py:398-457). */
    method Signup(name: string, phone: string, email: string, username: string,
                  password: string, confirm: string, terms: bool,
                  draw: int, now: int, sendOk: bool) returns (outcome: SignupOutcome)
      requires 1000 <= draw <= 9999
      modifies this
      ensures (Snapshot(), outcome)
           == Accounts.Signup(old(Snapshot()), name, phone, email, username, password, confirm, terms,
                              draw, now, sendOk)
    {
      var n := Strip(name);
      var m := Strip(phone);
      var e := Strip(email);
      var u := Strip(username);
      if n == [] || m == [] || e == [] || u == [] || password == [] || confirm == [] {
        return FieldsMissing;
      }
      if password != confirm {
        return PasswordMismatch;
      }
      if !terms {
        return TermsNotAccepted;
      }
      if EmailRegistered(users, e) {
        return EmailTaken;
      }
      if u in users {
        return UsernameTaken;
      }
      var code := GenerateCode(draw);
      emailCodes := emailCodes[e := CodeEntry(code, now + CodeLifetime)];
      session := session.(pending := Some(Pending(e, u, n, m, Hashed(password))));
      if sendOk {
        outcome := VerificationSent;
      } else {
        outcome := VerificationSendFailed;
      }
    }

    /** `verify_email`, POST (apps.py:270-336). */
    method VerifyEmail(entered: string, now: int) returns (outcome: VerifyEmailOutcome)
      modifies this
      ensures (Snapshot(), outcome) == Accounts.VerifyEmail(old(Snapshot()), entered, now)
    {
      if session.pending.None? {
        return NoPendingRegistration;
      }
      var p := session.pending.value;
      var code := Strip(entered);
      if code == [] {
        return CodeMissing;
      }
      if p.email !in emailCodes {
        return NoCodeStored;
      }
      var stored := emailCodes[p.email];
      if now > stored.expiry {
        emailCodes := emailCodes - {p.email};
        return CodeExpired;
      }
      if code != stored.code {
        return WrongCode;
      }
      if InsertConflicts(users, p) {
        return RegistrationFailed;
      }
      users := users[p.username := User(p.name, p.phone, p.email, p.password, true)];
      session := session.(pending := None);
      emailCodes := emailCodes - {p.email};
      outcome := Registered;
    }

    /** `resend_verification` (apps.py:338-355). */
    method ResendVerification(draw: int, now: int, sendOk: bool) returns (outcome: ResendOutcome)
      requires 1000 <= draw <= 9999
      modifies this
      ensures (Snapshot(), outcome) == Accounts.ResendVerification(old(Snapshot()), draw, now, sendOk)
    {
      if session.pending.None? {
        return ResendSessionExpired;
      }
      var e := session.pending.value.email;
      var code := GenerateCode(draw);
      emailCodes := emailCodes[e := CodeEntry(code, now + CodeLifetime)];
      if sendOk {
        outcome := Resent;
      } else {
        outcome := ResendFailed;
      }
    }

    /** `logindetails`, POST (apps.py:463-481). */
    method LoginDetails(username: string, password: string) returns (outcome: LoginOutcome)
      modifies this
      ensures (Snapshot(), outcome) == Accounts.LoginDetails(old(Snapshot()), username, password)
    {
      var u := Strip(username);
      var known := u in users && CheckPassword(users[u].password, password);
      if known {
        session := session.(username := Some(u));
        outcome := LoggedIn;
      } else {
        outcome := InvalidCredentials;
      }
    }

    /** `logout` (apps.py:483-487). */
    method Logout()
      modifies this
      ensures Snapshot() == Accounts.Logout(old(Snapshot()))
    {
      session := session.(username := None);
    }

    /** `forgot_password`, POST, as written (apps.py:602-640). */
    method ForgotPassword(username: string, draw: int, now: int, sendOk: bool) returns (outcome: ForgotOutcome)
      requires 1000 <= draw <= 9999
      modifies this
      ensures (Snapshot(), outcome) == Accounts.ForgotPassword(old(Snapshot()), username, draw, now, sendOk)
    {
      var u := Strip(username);
      if u == [] {
        return ResetUsernameMissing;
      }
      if u !in users {
        return UserNotFound;
      }
      var otp := GenerateCode(draw);
      resetTokens := resetTokens[u := ResetToken(otp, now + CodeLifetime, users[u].email)];
      if sendOk {
        session := session.(resetUsername := Some(u));
        outcome := OtpSent;
      } else {
        outcome := OtpSendFailed;
      }
    }

    /** `verify_otp`, POST (apps.py:642-674). */
    method VerifyOtp(entered: string, now: int) returns (outcome: OtpOutcome)
      modifies this
      ensures (Snapshot(), outcome) == Accounts.VerifyOtp(old(Snapshot()), entered, now)
    {
      if session.resetUsername.None? {
        return NoResetSession;
      }
      var u := session.resetUsername.value;
      var otp := Strip(entered);
      if otp == [] {
        return OtpMissing;
      }
      if u !in resetTokens {
        return NoResetToken;
      }
      var token := resetTokens[u];
      if now > token.expiry {
        resetTokens := resetTokens - {u};
        return OtpExpired;
      }
      if otp == token.otp {
        session := session.(otpVerified := true);
        verifiedFor := Some(u);
        outcome := OtpAccepted;
      } else {
        outcome := WrongOtp;
      }
    }

    /** `reset_password`, POST (apps.py:676-716). */
    method ResetPassword(newPassword: string, confirm: string) returns (outcome: ResetOutcome)
      modifies this
      ensures (Snapshot(), outcome) == Accounts.ResetPassword(old(Snapshot()), newPassword, confirm)
    {
      if session.resetUsername.None? || !session.otpVerified {
        return NotAuthorized;
      }
      var u := session.resetUsername.value;
      if newPassword == [] || confirm == [] {
        return ResetFieldsMissing;
      }
      if newPassword != confirm {
        return ResetMismatch;
      }
      if |newPassword| < MinPasswordLength {
        return ResetTooShort;
      }
      if u in users {
        users := users[u := users[u].(password := Hashed(newPassword))];
      }
      session := session.(resetUsername := None, otpVerified := false);
      verifiedFor := None;
      resetTokens := resetTokens - {u};
      outcome := PasswordReset;
    }
  }
}
