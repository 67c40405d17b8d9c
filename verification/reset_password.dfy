/** The password reset of src/app/api/auth/reset-password/route.ts: the
    inputs are checked (a password of at least six characters), then the
    reset token stored for the address must match and be unexpired; the new
    password's bcrypt digest is written to every account with the address
    and the token is consumed. bcrypt is the parameter `bcrypt`; whether the
    datastore update fails is the parameter `updateFails`. */
module ResetPassword {
  import opened Common
  import opened JsText
  import opened OtpCodes
  import VerifyOtp

  /** The answer and the two tables after the call. */
  datatype ResetResult = ResetResult(outcome: Outcome<()>, codes: map<string, OtpRow>, users: seq<Account>)

  /** The password digest and `updated_at` written to every account with
      the address. */
  function SetPassword(users: seq<Account>, email: string, digest: string, now: int): (r: seq<Account>)
    ensures |r| == |users|
    ensures forall i :: 0 <= i < |users| ==>
              r[i] == if users[i].email == Some(email)
                      then users[i].(passwordHash := Some(digest), updatedAt := Some(now))
                      else users[i]
  {
    if users == [] then []
    else [if users[0].email == Some(email) then users[0].(passwordHash := Some(digest), updatedAt := Some(now)) else users[0]]
         + SetPassword(users[1..], email, digest, now)
  }

  /** The POST handler. `newPassword` is the body's password when it is a
      string. */
  function Reset(codes: map<string, OtpRow>, users: seq<Account>, email: JsValue, token: JsValue,
                 newPassword: Option<string>, now: int, bcrypt: string -> string, updateFails: bool): (r: ResetResult)
    ensures var e := NormalEmail(email);
            && (e == "" || !JsTruthy(token) || !Truthy(newPassword) ==>
                  r == ResetResult(Err(400, "Email, token, and new password are required"), codes, users))
            && (e != "" && JsTruthy(token) && Truthy(newPassword) && |newPassword.value| < 6 ==>
                  r == ResetResult(Err(400, "Password must be at least 6 characters"), codes, users))
            && (e != "" && JsTruthy(token) && Truthy(newPassword) && |newPassword.value| >= 6
                && (e !in codes || codes[e].otp != token) ==>
                  r == ResetResult(Err(400, "Invalid or expired reset link"), codes, users))
            && (e != "" && JsTruthy(token) && Truthy(newPassword) && |newPassword.value| >= 6
                && e in codes && codes[e].otp == token && Expired(codes[e], now) ==>
                  r == ResetResult(Err(400, "Reset link has expired. Please request a new one."), codes - {e}, users))
            && (e != "" && JsTruthy(token) && Truthy(newPassword) && |newPassword.value| >= 6
                && e in codes && codes[e].otp == token && !Expired(codes[e], now) && updateFails ==>
                  r == ResetResult(Err(500, "Failed to update password"), codes, users))
    ensures r.outcome.Ok? <==>
              var e := NormalEmail(email);
              && e != "" && JsTruthy(token) && Truthy(newPassword) && |newPassword.value| >= 6
              && e in codes && codes[e].otp == token && !Expired(codes[e], now) && !updateFails
    ensures r.outcome.Ok? ==>
              var e := NormalEmail(email);
              && r.codes == codes - {e}
              && r.users == SetPassword(users, e, bcrypt(newPassword.value), now)
  {
    var e := NormalEmail(email);
    if e == "" || !JsTruthy(token) || !Truthy(newPassword) then
      ResetResult(Err(400, "Email, token, and new password are required"), codes, users)
    else if |newPassword.value| < 6 then
      ResetResult(Err(400, "Password must be at least 6 characters"), codes, users)
    else if e !in codes || codes[e].otp != token then
      ResetResult(Err(400, "Invalid or expired reset link"), codes, users)
    else if Expired(codes[e], now) then
      ResetResult(Err(400, "Reset link has expired. Please request a new one."), codes - {e}, users)
    else if updateFails then
      ResetResult(Err(500, "Failed to update password"), codes, users)
    else
      ResetResult(Ok(()), codes - {e}, SetPassword(users, e, bcrypt(newPassword.value), now))
  }

  // ---------------------------------------------------------------------------
  // Properties

  /** A short password is refused before the token is looked at: the answer
      is the same whatever is stored. */
  lemma ShortPasswordBeforeLookup(codes: map<string, OtpRow>, codes2: map<string, OtpRow>, users: seq<Account>,
                                  email: JsValue, token: JsValue, pw: string, now: int, bcrypt: string -> string, fails: bool)
    requires NormalEmail(email) != "" && JsTruthy(token) && pw != "" && |pw| < 6
    ensures Reset(codes, users, email, token, Some(pw), now, bcrypt, fails).outcome
            == Reset(codes2, users, email, token, Some(pw), now, bcrypt, fails).outcome
            == Err(400, "Password must be at least 6 characters")
  {
  }

  /** The token is compared before its expiry: a wrong token on an expired
      record is answered as invalid and the record stays. */
  lemma TokenCheckedBeforeExpiry(codes: map<string, OtpRow>, users: seq<Account>, email: JsValue, token: JsValue,
                                 pw: string, now: int, bcrypt: string -> string, fails: bool)
    requires NormalEmail(email) != "" && JsTruthy(token) && |pw| >= 6
    requires NormalEmail(email) in codes && Expired(codes[NormalEmail(email)], now) && codes[NormalEmail(email)].otp != token
    ensures Reset(codes, users, email, token, Some(pw), now, bcrypt, fails) ==
              ResetResult(Err(400, "Invalid or expired reset link"), codes, users)
  {
  }

  /** A reset link works once: after a successful reset the same request is
      refused as an invalid link. */
  lemma TokenIsConsumed(codes: map<string, OtpRow>, users: seq<Account>, email: JsValue, token: JsValue,
                        pw: Option<string>, now: int, later: int, bcrypt: string -> string)
    requires Reset(codes, users, email, token, pw, now, bcrypt, false).outcome.Ok?
    ensures var r := Reset(codes, users, email, token, pw, now, bcrypt, false);
            Reset(r.codes, r.users, email, token, pw, later, bcrypt, false).outcome == Err(400, "Invalid or expired reset link")
  {
  }

  /** A failed update keeps the token, so the same link can be retried. */
  lemma FailedUpdateKeepsToken(codes: map<string, OtpRow>, users: seq<Account>, email: JsValue, token: JsValue,
                               pw: Option<string>, now: int, bcrypt: string -> string)
    requires Reset(codes, users, email, token, pw, now, bcrypt, false).outcome.Ok?
    ensures var r := Reset(codes, users, email, token, pw, now, bcrypt, true);
            && r == ResetResult(Err(500, "Failed to update password"), codes, users)
            && Reset(r.codes, r.users, email, token, pw, now, bcrypt, false).outcome.Ok?
  {
  }

  /** A reset succeeds even when no account has the address: it then changes
      no password but still consumes the token. */
  lemma ResetWithoutAccount(codes: map<string, OtpRow>, users: seq<Account>, email: JsValue, token: JsValue,
                            pw: Option<string>, now: int, bcrypt: string -> string)
    requires Reset(codes, users, email, token, pw, now, bcrypt, false).outcome.Ok?
    requires forall i :: 0 <= i < |users| ==> users[i].email != Some(NormalEmail(email))
    ensures Reset(codes, users, email, token, pw, now, bcrypt, false).users == users
  {
  }

  /** Login codes and reset tokens share one record per address: logging in
      with a code consumes it, so a reset with that code afterwards is
      refused. */
  lemma LoginConsumesResetToken(codes: map<string, OtpRow>, users: seq<Account>, email: JsValue, code: string,
                                pw: Option<string>, now: int, bcrypt: string -> string)
    requires VerifyOtp.Verify(codes, users, email, Str(code), now).outcome.Ok?
    ensures var v := VerifyOtp.Verify(codes, users, email, Str(code), now);
            Reset(v.codes, v.users, email, Str(code), pw, now, bcrypt, false).outcome.Err?
  {
  }
}
