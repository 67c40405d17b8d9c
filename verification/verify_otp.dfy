/** The login-code check of src/app/api/auth/verify-otp/route.ts: the
    address and the code are normalised, then the stored code must exist,
    be unexpired and match; a matching code logs the account in and is
    consumed. An expired code is deleted; any other failure keeps it. */
module VerifyOtp {
  import opened Common
  import opened JsText
  import opened OtpCodes

  /** The `user` of a successful answer. */
  datatype Login = Login(id: string, email: string, name: Option<string>)

  /** The answer and the two tables after the call. */
  datatype OtpResult = OtpResult(outcome: Outcome<Login>, codes: map<string, OtpRow>, users: seq<Account>)

  /** `typeof otp === "string" ? otp.trim() : String(otp ?? "").trim()`. */
  function NormalCode(otp: JsValue): string {
    if otp.Str? then Trim(otp.s)
    else if otp.Undefined? || otp.Null? then Trim("")
    else Trim(StringOf(otp))
  }

  /** `updated_at` set on the rows of the logged-in account. */
  function Touch(users: seq<Account>, id: string, now: int): (r: seq<Account>)
    ensures |r| == |users|
    ensures forall i :: 0 <= i < |users| ==>
              r[i] == if users[i].id == id then users[i].(updatedAt := Some(now)) else users[i]
  {
    if users == [] then []
    else [if users[0].id == id then users[0].(updatedAt := Some(now)) else users[0]] + Touch(users[1..], id, now)
  }

  /** The POST handler. */
  function Verify(codes: map<string, OtpRow>, users: seq<Account>, email: JsValue, otp: JsValue, now: int): (r: OtpResult)
    ensures var e := NormalEmail(email); var c := NormalCode(otp);
            && (e == "" || c == "" ==> r == OtpResult(Err(400, "Email and OTP are required"), codes, users))
            && (e != "" && c != "" && e !in codes ==>
                  r == OtpResult(Err(404, "No OTP found. Please request a new code."), codes, users))
            && (e != "" && c != "" && e in codes && Expired(codes[e], now) ==>
                  r == OtpResult(Err(400, "OTP has expired. Please request a new code."), codes - {e}, users))
            && (e != "" && c != "" && e in codes && !Expired(codes[e], now) && StringOf(codes[e].otp) != c ==>
                  r == OtpResult(Err(400, "Invalid OTP. Please try again."), codes, users))
            && (e != "" && c != "" && e in codes && !Expired(codes[e], now) && StringOf(codes[e].otp) == c
                && FirstWithEmail(users, e) == |users| ==>
                  r == OtpResult(Err(404, "User not found"), codes, users))
    ensures r.outcome.Ok? <==>
              var e := NormalEmail(email);
              && e != "" && NormalCode(otp) != "" && e in codes && !Expired(codes[e], now)
              && StringOf(codes[e].otp) == NormalCode(otp) && FirstWithEmail(users, e) < |users|
    ensures r.outcome.Ok? ==>
              var e := NormalEmail(email);
              var u := users[FirstWithEmail(users, e)];
              && r.outcome.body == Login(u.id, e, u.name)
              && r.codes == codes - {e}
              && r.users == Touch(users, u.id, now)
  {
    var e := NormalEmail(email);
    var c := NormalCode(otp);
    if e == "" || c == "" then OtpResult(Err(400, "Email and OTP are required"), codes, users)
    else if e !in codes then OtpResult(Err(404, "No OTP found. Please request a new code."), codes, users)
    else if Expired(codes[e], now) then OtpResult(Err(400, "OTP has expired. Please request a new code."), codes - {e}, users)
    else if StringOf(codes[e].otp) != c then OtpResult(Err(400, "Invalid OTP. Please try again."), codes, users)
    else
      var i := FirstWithEmail(users, e);
      if i == |users| then OtpResult(Err(404, "User not found"), codes, users)
      else OtpResult(Ok(Login(users[i].id, e, users[i].name)), codes - {e}, Touch(users, users[i].id, now))
  }

  // ---------------------------------------------------------------------------
  // Properties

  /** Only an expired code or a success removes the stored record: every
      other answer leaves both tables as they were. */
  lemma FailuresKeepTheRecord(codes: map<string, OtpRow>, users: seq<Account>, email: JsValue, otp: JsValue, now: int)
    ensures var r := Verify(codes, users, email, otp, now);
            r.outcome.Err? && r.outcome.message != "OTP has expired. Please request a new code." ==>
              r.codes == codes && r.users == users
  {
  }

  /** A code verifies at most once: repeating a successful request finds no
      code. */
  lemma CodeIsConsumed(codes: map<string, OtpRow>, users: seq<Account>, email: JsValue, otp: JsValue, now: int, later: int)
    requires Verify(codes, users, email, otp, now).outcome.Ok?
    ensures var r := Verify(codes, users, email, otp, now);
            Verify(r.codes, r.users, email, otp, later).outcome == Err(404, "No OTP found. Please request a new code.")
  {
  }

  /** An expired code is gone: the next attempt, even with the right code,
      finds nothing. */
  lemma ExpiredCodeIsGone(codes: map<string, OtpRow>, users: seq<Account>, email: JsValue, otp: JsValue, otp2: JsValue,
                          now: int, later: int)
    requires NormalEmail(email) != "" && NormalCode(otp) != "" && NormalCode(otp2) != ""
    requires NormalEmail(email) in codes && Expired(codes[NormalEmail(email)], now)
    ensures var r := Verify(codes, users, email, otp, now);
            && r.outcome == Err(400, "OTP has expired. Please request a new code.")
            && Verify(r.codes, r.users, email, otp2, later).outcome == Err(404, "No OTP found. Please request a new code.")
  {
  }

  /** A wrong guess does not burn the code: the right code still logs in
      afterwards while it is unexpired. */
  lemma WrongGuessKeepsCode(codes: map<string, OtpRow>, users: seq<Account>, email: JsValue, guess: JsValue, otp: JsValue,
                            now: int, later: int)
    requires NormalEmail(email) != "" && NormalCode(guess) != ""
    requires var e := NormalEmail(email);
             && e in codes && !Expired(codes[e], later) && !Expired(codes[e], now)
             && StringOf(codes[e].otp) != NormalCode(guess)
    requires Verify(codes, users, email, otp, later).outcome.Ok?
    ensures var r := Verify(codes, users, email, guess, now);
            && r.outcome == Err(400, "Invalid OTP. Please try again.")
            && Verify(r.codes, r.users, email, otp, later) == Verify(codes, users, email, otp, later)
  {
  }

  /** The address is matched in normal form: sending it in any spacing or
      letter case is the same as sending it normalised. */
  lemma AddressInNormalForm(codes: map<string, OtpRow>, users: seq<Account>, email: string, otp: JsValue, now: int)
    ensures Verify(codes, users, Str(email), otp, now) == Verify(codes, users, Str(NormalEmail(Str(email))), otp, now)
  {
    NormalEmailIdempotent(email);
  }

  /** Decimal text carries no surrounding whitespace. */
  lemma DecimalIsTrimmed(n: int)
    ensures Trim(IntToDecimal(n)) == IntToDecimal(n)
  {
    var d := IntToDecimal(n);
    var m := if n >= 0 then n else -n;
    var digits := NatToDecimal(m);
    assert IsDigit(digits[|digits| - 1]);
    assert d[|d| - 1] == digits[|digits| - 1];
    TrimmedIsFixed(d);
  }

  /** A numeric code in the body is compared through its decimal text, so it
      matches a stored code of the same digits. */
  lemma NumericCodeIsItsDigits(codes: map<string, OtpRow>, users: seq<Account>, email: JsValue, n: int, now: int)
    ensures Verify(codes, users, email, Num(n), now) == Verify(codes, users, email, Str(IntToDecimal(n)), now)
  {
    DecimalIsTrimmed(n);
    assert NormalCode(Num(n)) == NormalCode(Str(IntToDecimal(n)));
  }
}
