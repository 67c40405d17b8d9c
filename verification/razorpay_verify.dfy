/** The Razorpay confirmation of src/app/api/razorpay/verify-payment/route.ts:
    the three gateway fields must be present, the HMAC-SHA256 of
    `order_id|payment_id` under the key secret must equal the signature,
    and only then is the payment row marked paid and the fulfilment merge
    applied to the user. HMAC-SHA256 (hex) is a function parameter taking the
    key and the message. */
module RazorpayVerify {
  import opened Common
  import opened JsText
  import opened Store
  import opened Fulfilment
  import PayuVerify

  /** The JSON body. */
  datatype Confirmation = Confirmation(
    paymentId: Option<string>, orderId: Option<string>, signature: Option<string>,
    userId: Option<string>, bundleId: Option<string>, kind: Option<string>,
    feature: Option<string>, coins: Option<string>)

  /** `razorpay_order_id + "|" + razorpay_payment_id`. */
  function SignedMessage(orderId: string, paymentId: string): (m: string)
    ensures |m| == |orderId| + 1 + |paymentId|
    ensures m[..|orderId|] == orderId && m[|orderId|] == '|' && m[|orderId| + 1..] == paymentId
  {
    var m := orderId + "|" + paymentId;
    assert m[..|orderId|] == orderId;
    assert m[|orderId| + 1..] == paymentId;
    m
  }

  /** An order id never contains a bar, so the message is split back at its
      first bar into the order id and the payment id. */
  lemma MessageSplits(orderId: string, paymentId: string)
    requires '|' !in orderId
    ensures BeforeFirst(SignedMessage(orderId, paymentId), '|') == orderId
  {
    var m := SignedMessage(orderId, paymentId);
    var b := BeforeFirst(m, '|');
    if |b| < |orderId| {
      assert false;
    } else if |b| > |orderId| {
      assert false;
    }
  }

  /** Hence two signed pairs of bar-free order ids share a message only when
      they are the same pair: the signature binds both ids. */
  lemma MessageDeterminesPair(o1: string, p1: string, o2: string, p2: string)
    requires '|' !in o1 && '|' !in o2
    requires SignedMessage(o1, p1) == SignedMessage(o2, p2)
    ensures o1 == o2 && p1 == p2
  {
    MessageSplits(o1, p1);
    MessageSplits(o2, p2);
    assert SignedMessage(o1, p1)[|o1| + 1..] == p1;
  }

  /** The payment row update: gateway payment id and signature, status
      "paid" and the fulfilment time, on the rows of this order. */
  function MarkOrderPaid(rows: seq<PaymentRow>, c: Confirmation, now: int): (r: seq<PaymentRow>)
    requires c.paymentId.Some? && c.orderId.Some? && c.signature.Some?
    ensures |r| == |rows|
    ensures forall i :: 0 <= i < |rows| ==>
              r[i] == if rows[i].razorpayOrderId == c.orderId then PaidRow(rows[i], c, now) else rows[i]
  {
    if rows == [] then []
    else [if rows[0].razorpayOrderId == c.orderId then PaidRow(rows[0], c, now) else rows[0]]
         + MarkOrderPaid(rows[1..], c, now)
  }

  /** One matched payment row after the update. */
  function PaidRow(row: PaymentRow, c: Confirmation, now: int): PaymentRow
    requires c.paymentId.Some? && c.signature.Some?
  {
    row.(razorpayPaymentId := c.paymentId, razorpaySignature := c.signature,
         paymentStatus := Some("paid"), fulfilledAt := Some(now))
  }

  function PurchaseOf(c: Confirmation): Purchase {
    Purchase(c.kind, c.bundleId, c.feature, c.coins)
  }

  /** Whether the signature is the digest of the message under `secret`. */
  predicate SignatureValid(c: Confirmation, secret: string, hmac: (string, string) -> string)
    requires c.paymentId.Some? && c.orderId.Some? && c.signature.Some?
  {
    hmac(secret, SignedMessage(c.orderId.value, c.paymentId.value)) == c.signature.value
  }

  /** The POST handler. `secret` is `RAZORPAY_KEY_SECRET`; `now` the time. */
  function Verify(secret: Option<string>, c: Confirmation, db: Db, now: int, hmac: (string, string) -> string): (r: PayuVerify.Effect)
    ensures !Truthy(c.paymentId) || !Truthy(c.orderId) || !Truthy(c.signature) ==>
              r == PayuVerify.Effect(Err(400, "Missing payment details"), db)
    ensures r.outcome.Ok? <==>
              Truthy(c.paymentId) && Truthy(c.orderId) && Truthy(c.signature) && secret.Some?
              && SignatureValid(c, secret.value, hmac)
    ensures r.outcome.Err? ==> r.db == db
    ensures r.outcome.Ok? ==>
              r.db == Db(Fulfil(db.users, c.userId, PurchaseOf(c), RazorpayRefs(c.paymentId, c.orderId), now),
                         MarkOrderPaid(db.payments, c, now))
  {
    if !Truthy(c.paymentId) || !Truthy(c.orderId) || !Truthy(c.signature) then
      PayuVerify.Effect(Err(400, "Missing payment details"), db)
    else if secret.None? then
      PayuVerify.Effect(Err(500, "Verification failed"), db)
    else if !SignatureValid(c, secret.value, hmac) then
      PayuVerify.Effect(Err(400, "Invalid payment signature"), db)
    else
      PayuVerify.Effect(Ok(()),
        Db(Fulfil(db.users, c.userId, PurchaseOf(c), RazorpayRefs(c.paymentId, c.orderId), now),
           MarkOrderPaid(db.payments, c, now)))
  }

  // ---------------------------------------------------------------------------
  // Properties

  /** A forged signature is refused with 400 and writes nothing. */
  lemma ForgeryChangesNothing(secret: string, c: Confirmation, db: Db, now: int, hmac: (string, string) -> string)
    requires Truthy(c.paymentId) && Truthy(c.orderId) && Truthy(c.signature)
    requires hmac(secret, c.orderId.value + "|" + c.paymentId.value) != c.signature.value
    ensures Verify(Some(secret), c, db, now, hmac) == PayuVerify.Effect(Err(400, "Invalid payment signature"), db)
  {
  }

  /** On success exactly the rows of the confirmed order are marked paid. */
  lemma OnlyTheOrderIsMarked(secret: Option<string>, c: Confirmation, db: Db, now: int, hmac: (string, string) -> string)
    requires Verify(secret, c, db, now, hmac).outcome.Ok?
    ensures var rows := Verify(secret, c, db, now, hmac).db.payments;
            && |rows| == |db.payments|
            && forall i :: 0 <= i < |rows| ==>
                 if db.payments[i].razorpayOrderId == c.orderId
                 then rows[i].paymentStatus == Some("paid") && rows[i].razorpaySignature == c.signature
                      && rows[i].fulfilledAt == Some(now)
                 else rows[i] == db.payments[i]
  {
  }

  /** Without a user id the confirmation marks the payment paid but leaves
      every user row as it was. */
  lemma NoUserNoUnlock(secret: Option<string>, c: Confirmation, db: Db, now: int, hmac: (string, string) -> string)
    requires !Truthy(c.userId)
    ensures Verify(secret, c, db, now, hmac).db.users == db.users
  {
  }

  /** The two gateways fulfil alike: for the same purchase and user, the
      confirmed Razorpay payment and the successful PayU callback leave the
      user with the same features, coins, purchase type and bundle; only the
      gateway references differ. */
  lemma GatewaysAgree(secret: string, c: Confirmation, salt: string, cb: PayuVerify.Callback, db: Db, now: int,
                      hmac: (string, string) -> string)
    requires Verify(Some(secret), c, db, now, hmac).outcome.Ok?
    requires PayuVerify.Settle(Some(salt), cb, db, now).outcome.Ok?
    requires Truthy(c.userId) && cb.udf1 == c.userId
    requires PayuVerify.PurchaseOf(cb) == PurchaseOf(c)
    ensures var u := Verify(Some(secret), c, db, now, hmac).db.users[c.userId.value];
            var v := PayuVerify.Settle(Some(salt), cb, db, now).db.users[c.userId.value];
            && u.unlockedFeatures == v.unlockedFeatures && u.coins == v.coins
            && u.purchaseType == v.purchaseType && u.bundlePurchased == v.bundlePurchased
            && u.paymentStatus == v.paymentStatus == Some("paid")
  {
  }

  /** A confirmed purchase that credits `n` coins (a coin pack whose count
      parses as `n`, or a bundle's 15) adds exactly that many to the user's
      stored balance; `DecimalCountCredits` gives `n` for a count written in
      decimal. */
  lemma ConfirmationCredits(secret: Option<string>, c: Confirmation, db: Db, now: int,
                            hmac: (string, string) -> string, uid: string, n: int)
    requires Verify(secret, c, db, now, hmac).outcome.Ok?
    requires uid != "" && c.userId == Some(uid) && CoinCredit(PurchaseOf(c)) == Some(n)
    ensures var users := Verify(secret, c, db, now, hmac).db.users;
            uid in users && users[uid].coins == Some(BaseCoins(Lookup(db.users, uid)) + n)
  {
    CreditLands(db.users, uid, PurchaseOf(c), RazorpayRefs(c.paymentId, c.orderId), now, n);
  }
}
