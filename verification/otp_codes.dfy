/** What the two one-time-code routes share: the `otp_codes` table (one row
    per e-mail address, holding a login code or a password-reset token),
    the `users` columns they touch, the JSON values a request body may hold,
    and the normalisation of the e-mail address. */
module OtpCodes {
  import opened Common
  import opened JsText

  /** A JSON value as the handlers meet it (only integer numbers). */
  datatype JsValue = Undefined | Null | Str(s: string) | Num(n: int) | Bool(b: bool)

  /** JavaScript truthiness. */
  predicate JsTruthy(v: JsValue) {
    match v
    case Undefined => false
    case Null => false
    case Str(s) => s != ""
    case Num(n) => n != 0
    case Bool(b) => b
  }

  /** `String(v)`. */
  function StringOf(v: JsValue): string {
    match v
    case Undefined => "undefined"
    case Null => "null"
    case Str(s) => s
    case Num(n) => IntToDecimal(n)
    case Bool(b) => if b then "true" else "false"
  }

  /** An `otp_codes` row: the code (text or number) and its expiry. */
  datatype OtpRow = OtpRow(otp: JsValue, expiresAt: Option<int>)

  /** The `users` columns the routes read and write. */
  datatype Account = Account(id: string, email: Option<string>, name: Option<string>,
                             passwordHash: Option<string>, updatedAt: Option<int>)

  /** `new Date(expires_at) < new Date()`; a null expiry is the epoch. */
  predicate Expired(row: OtpRow, now: int) {
    NumOrZero(row.expiresAt) < now
  }

  /** `typeof email === "string" ? email.trim().toLowerCase() : ""`. */
  function NormalEmail(email: JsValue): string {
    if email.Str? then Lower(Trim(email.s)) else ""
  }

  /** A string that neither starts nor ends with whitespace is its own trim. */
  lemma TrimmedIsFixed(s: string)
    requires s == [] || (!IsSpace(s[0]) && !IsSpace(s[|s| - 1]))
    ensures Trim(s) == s
  {
  }

  /** A normalised address normalises to itself, so the routes treat an
      address and its normal form alike. */
  lemma NormalEmailIdempotent(email: string)
    ensures NormalEmail(Str(NormalEmail(Str(email)))) == NormalEmail(Str(email))
  {
    var t := Trim(email);
    var l := Lower(t);
    if l != [] {
      LowerAt(t, 0);
      LowerAt(t, |t| - 1);
      assert !IsSpace(l[0]) && !IsSpace(l[|l| - 1]);
    }
    TrimmedIsFixed(l);
    LowerIdempotent(t);
    calc {
      NormalEmail(Str(l));
      Lower(Trim(l));
      Lower(l);
      l;
    }
  }

  /** The first account registered under an address (`.limit(1)`), by
      position. */
  function FirstWithEmail(users: seq<Account>, email: string): (i: nat)
    ensures i <= |users|
    ensures i < |users| ==> users[i].email == Some(email)
    ensures forall j :: 0 <= j < i ==> users[j].email != Some(email)
  {
    if users == [] then 0
    else if users[0].email == Some(email) then 0
    else 1 + FirstWithEmail(users[1..], email)
  }
}
