/** The PayU callback of src/app/api/payu/verify-payment/route.ts: the
    response hash is computed over the reversed field sequence (and only
    logged), a non-"success" status is refused, the payment row is marked
    paid and the fulfilment merge is applied to the user. */
module PayuVerify {
  import opened Common
  import opened JsText
  import opened Store
  import opened Fulfilment
  import PayuInitiate
  import Pricing

  /** The callback body; every field may be missing. */
  datatype Callback = Callback(
    txnid: Option<string>, mihpayid: Option<string>, status: Option<string>, hash: Option<string>,
    amount: Option<string>, productinfo: Option<string>, firstname: Option<string>, email: Option<string>,
    udf1: Option<string>, udf2: Option<string>, udf3: Option<string>, udf4: Option<string>, udf5: Option<string>,
    key: Option<string>)

  /** The fields of `verifyHash`'s pre-image, in order: salt, status, five
      empty fields, udf5..udf1 (each "" when falsy), email, firstname,
      productinfo, amount, txnid, key (a missing one printed as
      "undefined"). */
  function ResponseHashFields(c: Callback, salt: string): (f: seq<string>)
    ensures |f| == 18 && f[0] == salt && f[1] == Interp(c.status)
    ensures f[2..7] == ["", "", "", "", ""]
    ensures f[7..12] == [Udf(c.udf5), Udf(c.udf4), Udf(c.udf3), Udf(c.udf2), Udf(c.udf1)]
    ensures f[12..] == [Interp(c.email), Interp(c.firstname), Interp(c.productinfo),
                        Interp(c.amount), Interp(c.txnid), Interp(c.key)]
  {
    [salt, Interp(c.status)]
    + ["", "", "", "", "",
       Udf(c.udf5), Udf(c.udf4), Udf(c.udf3), Udf(c.udf2), Udf(c.udf1),
       Interp(c.email), Interp(c.firstname), Interp(c.productinfo), Interp(c.amount),
       Interp(c.txnid), Interp(c.key)]
  }

  /** `params.udfN || ""`. */
  function Udf(v: Option<string>): (r: string)
    ensures v.Some? ==> r == v.value
    ensures v.None? ==> r == ""
  {
    OrEmpty(Or(v, Some("")))
  }

  function Reverse<T>(s: seq<T>): (r: seq<T>)
    ensures |r| == |s|
    ensures forall i :: 0 <= i < |s| ==> r[i] == s[|s| - 1 - i]
  {
    if s == [] then [] else Reverse(s[1..]) + [s[0]]
  }

  /** `verifyHash(...)`: the digest of the response pre-image against the
      received hash. */
  function HashMatches(c: Callback, salt: string, sha512: string -> string): bool {
    c.hash == Some(sha512(Join(ResponseHashFields(c, salt), '|')))
  }

  /** The callback PayU sends back for a checkout started with `p`. */
  function Echo(p: PayuInitiate.PayuParams, status: string, mihpayid: Option<string>, hash: Option<string>): Callback {
    Callback(Some(p.txnid), mihpayid, Some(status), hash, Some(p.amount), Some(p.productinfo),
             Some(p.firstname), Some(p.email),
             Some(p.udf1), Some(p.udf2), Some(p.udf3), Some(p.udf4), Some(p.udf5), Some(p.key))
  }

  /** The response pre-image is the salt and the status followed by the
      request pre-image, without its salt, read backwards. */
  lemma ResponseIsReversedRequest(p: PayuInitiate.PayuParams, salt: string, status: string, mihpayid: Option<string>, hash: Option<string>)
    ensures ResponseHashFields(Echo(p, status, mihpayid, hash), salt)
            == [salt, status] + Reverse(PayuInitiate.RequestHashFields(p, salt)[..16])
  {
    RequestReversed(p, salt);
    EchoedResponse(p, salt, status, mihpayid, hash);
  }

  /** The request pre-image without its salt, read backwards. */
  lemma RequestReversed(p: PayuInitiate.PayuParams, salt: string)
    ensures Reverse(PayuInitiate.RequestHashFields(p, salt)[..16])
            == ["", "", "", "", "", p.udf5, p.udf4, p.udf3, p.udf2, p.udf1,
                p.email, p.firstname, p.productinfo, p.amount, p.txnid, p.key]
  {
    var pre := [p.key, p.txnid, p.amount, p.productinfo, p.firstname, p.email,
                p.udf1, p.udf2, p.udf3, p.udf4, p.udf5, "", "", "", "", ""];
    assert PayuInitiate.RequestHashFields(p, salt)[..16] == pre;
    var rev := Reverse(pre);
    var tail := ["", "", "", "", "", p.udf5, p.udf4, p.udf3, p.udf2, p.udf1,
                 p.email, p.firstname, p.productinfo, p.amount, p.txnid, p.key];
    assert rev[0] == tail[0] && rev[1] == tail[1] && rev[2] == tail[2] && rev[3] == tail[3];
    assert rev[4] == tail[4] && rev[5] == tail[5] && rev[6] == tail[6] && rev[7] == tail[7];
    assert rev[8] == tail[8] && rev[9] == tail[9] && rev[10] == tail[10] && rev[11] == tail[11];
    assert rev[12] == tail[12] && rev[13] == tail[13] && rev[14] == tail[14] && rev[15] == tail[15];
    assert rev == tail;
  }

  /** The response pre-image of a callback echoing the request parameters. */
  lemma EchoedResponse(p: PayuInitiate.PayuParams, salt: string, status: string, mihpayid: Option<string>, hash: Option<string>)
    ensures ResponseHashFields(Echo(p, status, mihpayid, hash), salt)
            == [salt, status]
               + ["", "", "", "", "", p.udf5, p.udf4, p.udf3, p.udf2, p.udf1,
                  p.email, p.firstname, p.productinfo, p.amount, p.txnid, p.key]
  {
    var c := Echo(p, status, mihpayid, hash);
    assert Udf(c.udf5) == p.udf5 && Udf(c.udf4) == p.udf4 && Udf(c.udf3) == p.udf3;
    assert Udf(c.udf2) == p.udf2 && Udf(c.udf1) == p.udf1;
    assert Interp(c.status) == status && Interp(c.email) == p.email && Interp(c.firstname) == p.firstname;
    assert Interp(c.productinfo) == p.productinfo && Interp(c.amount) == p.amount;
    assert Interp(c.txnid) == p.txnid && Interp(c.key) == p.key;
  }

  /** The handler's effect: its answer, the store after it, and whether the
      hash matched (which is only logged). */
  datatype VerifyResult = VerifyResult(outcome: Outcome<()>, db: Db, hashValid: bool)

  /** What the handler answers and leaves in the store. */
  datatype Effect = Effect(outcome: Outcome<()>, db: Db)

  /** The payment row update: `payu_payment_id`, status "paid" and the
      fulfilment time, on the rows whose `payu_txn_id` equals the callback's
      txnid (the filter value is sent as text). */
  function MarkPaid(rows: seq<PaymentRow>, c: Callback, now: int): (r: seq<PaymentRow>)
    ensures |r| == |rows|
    ensures forall i :: 0 <= i < |rows| ==>
              r[i] == if rows[i].payuTxnId == Some(Interp(c.txnid)) then PaidRow(rows[i], c, now) else rows[i]
  {
    if rows == [] then []
    else [if rows[0].payuTxnId == Some(Interp(c.txnid)) then PaidRow(rows[0], c, now) else rows[0]]
         + MarkPaid(rows[1..], c, now)
  }

  /** One matched payment row after the update. */
  function PaidRow(row: PaymentRow, c: Callback, now: int): PaymentRow {
    row.(payuPaymentId := Written(row.payuPaymentId, c.mihpayid), paymentStatus := Some("paid"), fulfilledAt := Some(now))
  }

  /** What the udfs say was bought. */
  function PurchaseOf(c: Callback): Purchase {
    Purchase(c.udf2, c.udf3, c.udf4, c.udf5)
  }

  /** The handler's answer and writes, which read neither the received hash
      nor the digest. `salt` is `PAYU_MERCHANT_SALT`; `now` the time. */
  function Settle(salt: Option<string>, c: Callback, db: Db, now: int): (e: Effect)
    ensures !Truthy(salt) ==> e.outcome == Err(500, "PayU not configured") && e.db == db
    ensures Truthy(salt) && c.status != Some("success") ==>
              e.outcome == Err(400, "Payment was not successful") && e.db == db
    ensures e.outcome.Ok? <==> Truthy(salt) && c.status == Some("success")
    ensures e.outcome.Ok? ==> e.db.users == Fulfil(db.users, c.udf1, PurchaseOf(c), PayuRefs(c.mihpayid, c.txnid), now)
  {
    if !Truthy(salt) then Effect(Err(500, "PayU not configured"), db)
    else if c.status != Some("success") then Effect(Err(400, "Payment was not successful"), db)
    else
      Effect(Ok(()),
        Db(Fulfil(db.users, c.udf1, PurchaseOf(c), PayuRefs(c.mihpayid, c.txnid), now),
           MarkPaid(db.payments, c, now)))
  }

  /** The POST handler: the hash is checked once the salt is configured, and
      the outcome of the check is only reported alongside. */
  function Verify(salt: Option<string>, c: Callback, db: Db, now: int, sha512: string -> string): (r: VerifyResult)
    ensures r.outcome == Settle(salt, c, db, now).outcome && r.db == Settle(salt, c, db, now).db
    ensures r.hashValid ==> Truthy(salt) && c.hash.Some?
  {
    var e := Settle(salt, c, db, now);
    VerifyResult(e.outcome, e.db, Truthy(salt) && HashMatches(c, salt.value, sha512))
  }

  /** A hash mismatch changes nothing: the answer and the store are the same
      whatever hash arrives and whatever the digest computes. */
  lemma HashIsIgnored(salt: Option<string>, c: Callback, db: Db, now: int, sha1: string -> string, sha2: string -> string, h: Option<string>)
    ensures Verify(salt, c, db, now, sha1).outcome == Verify(salt, c.(hash := h), db, now, sha2).outcome
    ensures Verify(salt, c, db, now, sha1).db == Verify(salt, c.(hash := h), db, now, sha2).db
  {
  }

  /** On success exactly the rows with the callback's transaction id are
      marked paid; every other row is untouched. */
  lemma OnlyMatchingPaymentsMarked(salt: Option<string>, c: Callback, db: Db, now: int)
    requires Settle(salt, c, db, now).outcome.Ok?
    ensures var rows := Settle(salt, c, db, now).db.payments;
            && |rows| == |db.payments|
            && forall i :: 0 <= i < |rows| ==>
                 if db.payments[i].payuTxnId == Some(Interp(c.txnid))
                 then rows[i].paymentStatus == Some("paid") && rows[i].fulfilledAt == Some(now)
                 else rows[i] == db.payments[i]
  {
  }

  /** A successful callback for a user whose purchase credits `n` coins
      (a coin pack whose count parses as `n`, or a bundle's 15) adds exactly
      that many to the user's stored balance. */
  lemma CallbackCredits(salt: Option<string>, c: Callback, db: Db, now: int, uid: string, n: int)
    requires Truthy(salt) && c.status == Some("success") && uid != "" && c.udf1 == Some(uid)
    requires CoinCredit(PurchaseOf(c)) == Some(n)
    ensures var e := Settle(salt, c, db, now);
            && e.outcome.Ok?
            && uid in e.db.users
            && e.db.users[uid].coins == Some(BaseCoins(Lookup(db.users, uid)) + n)
  {
    CreditLands(db.users, uid, PurchaseOf(c), PayuRefs(c.mihpayid, c.txnid), now, n);
  }

  /** The successful callback of a coin checkout credits the paying user
      with exactly the package's coins, on top of the stored balance (the
      initiate handler produces such parameters:
      `PayuInitiate.CoinCheckoutParams`). */
  lemma CoinCheckoutCredited(salt: Option<string>, p: PayuInitiate.PayuParams, userId: string, coins: int,
                             db: Db, now: int, mihpayid: Option<string>, hash: Option<string>)
    requires Truthy(salt) && userId != "" && PayuInitiate.CoinCheckoutFor(p, userId, coins)
    ensures var e := Settle(salt, Echo(p, "success", mihpayid, hash), db, now);
            && e.outcome.Ok?
            && userId in e.db.users
            && e.db.users[userId].coins == Some(BaseCoins(Lookup(db.users, userId)) + coins)
  {
    var c := Echo(p, "success", mihpayid, hash);
    var q := PurchaseOf(c);
    assert q == Purchase(Some("coins"), Some(p.udf3), Some(p.udf4), Some(IntToDecimal(coins)));
    DecimalCountCredits(q, coins);
    CallbackCredits(salt, c, db, now, userId, coins);
  }
}
