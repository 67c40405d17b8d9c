/** The PayU checkout start of src/app/api/payu/initiate-payment/route.ts:
    the item is resolved from the pricing configuration by purchase type, the
    gateway parameters and their SHA-512 request hash are produced, and a
    "created" payment row is recorded with the amount in paise. The pricing
    configuration (read from the settings table, or the defaults) is an
    input; SHA-512 is a function parameter over the pre-image text. */
module PayuInitiate {
  import opened Common
  import opened JsText
  import opened Store
  import opened Pricing

  /** The JSON body: `type`, `bundleId`, `packageId`, `userId`, `email`,
      `firstName`. */
  datatype InitiateRequest = InitiateRequest(
    kind: Option<string>, bundleId: Option<string>, packageId: Option<string>,
    userId: Option<string>, email: Option<string>, firstName: Option<string>)

  /** `PAYU_MERCHANT_KEY` and `PAYU_MERCHANT_SALT`. */
  datatype PayuEnv = PayuEnv(merchantKey: Option<string>, merchantSalt: Option<string>)

  /** What the dispatch settles: the price in rupees, the product text, and
      the `feature` / `coins` metadata (absent when the branch sets none). */
  datatype Item = Item(price: int, productInfo: string, feature: Option<string>, coins: Option<string>)

  /** `xs.find(x => x.id === id)` for an id that may be undefined: an absent
      id equals no configured id. */
  function BundleFor(p: PricingConfig, id: Option<string>): Option<BundlePlan> {
    if id.Some? then GetBundleById(p, id.value) else None
  }
  function UpsellFor(p: PricingConfig, id: Option<string>): Option<UpsellPlan> {
    if id.Some? then GetUpsellById(p, id.value) else None
  }
  function CoinPackageFor(p: PricingConfig, id: Option<string>): Option<CoinPackage> {
    if id.Some? then GetCoinPackageById(p, id.value) else None
  }
  function ReportFor(p: PricingConfig, id: Option<string>): Option<ReportPlan> {
    if id.Some? then GetReportById(p, id.value) else None
  }

  /** The if/else-if chain over `type`. */
  function Dispatch(p: PricingConfig, req: InitiateRequest): (r: Outcome<Item>)
    ensures req.kind !in {Some("bundle"), Some("upsell"), Some("coins"), Some("report")} ==>
              r == Err(400, "Invalid purchase type")
    ensures r.Err? ==> r.status == 400
    ensures req.kind == Some("bundle") ==>
              (r.Ok? <==> BundleFor(p, req.bundleId).Some?)
              && (r.Ok? ==> r.body.price == BundleFor(p, req.bundleId).value.price)
    ensures req.kind == Some("upsell") ==>
              (r.Ok? <==> UpsellFor(p, Or(req.bundleId, req.packageId)).Some?)
              && (r.Ok? ==> r.body.price == UpsellFor(p, Or(req.bundleId, req.packageId)).value.price)
    ensures req.kind == Some("coins") ==>
              (r.Ok? <==> CoinPackageFor(p, req.packageId).Some?)
              && (r.Ok? ==> r.body.price == CoinPackageFor(p, req.packageId).value.price)
    ensures req.kind == Some("report") ==>
              (r.Ok? <==> ReportFor(p, req.packageId).Some?)
              && (r.Ok? ==> r.body.price == ReportFor(p, req.packageId).value.price)
  {
    if req.kind == Some("bundle") then
      match BundleFor(p, req.bundleId)
      case None => Err(400, "Invalid bundle: " + Interp(req.bundleId))
      case Some(b) => Ok(Item(b.price, b.name, None, None))
    else if req.kind == Some("upsell") then
      match UpsellFor(p, Or(req.bundleId, req.packageId))
      case None => Err(400, "Invalid upsell")
      case Some(u) => Ok(Item(u.price, u.name, Some(u.feature), None))
    else if req.kind == Some("coins") then
      match CoinPackageFor(p, req.packageId)
      case None => Err(400, "Invalid coin package")
      case Some(c) => Ok(Item(c.price, IntToDecimal(c.coins) + " Coins", None, Some(IntToDecimal(c.coins))))
    else if req.kind == Some("report") then
      match ReportFor(p, req.packageId)
      case None => Err(400, "Invalid report")
      case Some(x) => Ok(Item(x.price, x.name, Some(x.feature), None))
    else
      Err(400, "Invalid purchase type")
  }

  /** The parameters sent to PayU (the empty `phone` is not hashed and not
      kept). */
  datatype PayuParams = PayuParams(
    key: string, txnid: string, amount: string, productinfo: string,
    firstname: string, email: string,
    udf1: string, udf2: string, udf3: string, udf4: string, udf5: string)

  /** The fields of `generateHash`'s pre-image, in order: key, txnid, amount,
      productinfo, firstname, email, udf1..udf5, five empty fields, salt. */
  function RequestHashFields(p: PayuParams, salt: string): (f: seq<string>)
    ensures |f| == 17 && f[16] == salt
    ensures f[..6] == [p.key, p.txnid, p.amount, p.productinfo, p.firstname, p.email]
    ensures f[6..11] == [p.udf1, p.udf2, p.udf3, p.udf4, p.udf5]
    ensures forall i :: 11 <= i < 16 ==> f[i] == ""
  {
    [p.key, p.txnid, p.amount, p.productinfo, p.firstname, p.email,
     p.udf1, p.udf2, p.udf3, p.udf4, p.udf5, "", "", "", "", "", salt]
  }

  /** `generateHash(params, salt)`. */
  function GenerateHash(p: PayuParams, salt: string, sha512: string -> string): string {
    sha512(Join(RequestHashFields(p, salt), '|'))
  }

  /** `TXN_${Date.now()}_${(userId || "anon").slice(-6)}`. */
  function TxnId(now: int, userId: Option<string>): (t: string)
    ensures StartsWith(t, "TXN_")
    ensures var tail := LastN(if Truthy(userId) then userId.value else "anon", 6);
            |tail| <= 6 && |tail| < |t| && t[|t| - |tail|..] == tail
    ensures var tail := LastN(if Truthy(userId) then userId.value else "anon", 6);
            |t| == 5 + |IntToDecimal(now)| + |tail|
            && t[4..|t| - |tail| - 1] == IntToDecimal(now) && t[|t| - |tail| - 1] == '_'
  {
    var tail := LastN(if Truthy(userId) then userId.value else "anon", 6);
    var d := IntToDecimal(now);
    var t := "TXN_" + d + "_" + tail;
    assert t[..4] == "TXN_";
    assert t[4..4 + |d|] == d && t[4 + |d|] == '_';
    assert t[|t| - |tail|..] == tail;
    t
  }

  /** The transaction id records its time: the same user at two different
      milliseconds gets two different ids. */
  lemma TxnIdRecordsTime(n1: int, n2: int, userId: Option<string>)
    requires TxnId(n1, userId) == TxnId(n2, userId)
    ensures n1 == n2
  {
    var t := TxnId(n1, userId);
    var tail := LastN(if Truthy(userId) then userId.value else "anon", 6);
    assert IntToDecimal(n1) == t[4..|t| - |tail| - 1] == IntToDecimal(n2);
    ParseIntOfDecimal(n1);
    ParseIntOfDecimal(n2);
  }

  /** `amount.toFixed(2)` for a whole-rupee amount. */
  function AmountText(price: int): string {
    IntToDecimal(price) + ".00"
  }

  /** The JSON the handler answers with. */
  datatype InitiateResponse = InitiateResponse(params: PayuParams, hash: string)

  /** The handler's answer and the payment row it inserts (none on error). */
  datatype InitiateResult = InitiateResult(outcome: Outcome<InitiateResponse>, inserted: Option<PaymentRow>)

  /** The gateway parameters for a resolved item. */
  function ParamsFor(key: string, req: InitiateRequest, item: Item, now: int): (p: PayuParams)
    ensures p.key == key && p.amount == AmountText(item.price) && p.productinfo == item.productInfo
    ensures p.udf1 == (if Truthy(req.userId) then req.userId.value else "")
    ensures p.udf2 == (if Truthy(req.kind) then req.kind.value else "")
    ensures p.udf4 == (if Truthy(item.feature) then item.feature.value else "")
    ensures p.udf5 == (if Truthy(item.coins) then item.coins.value else "")
  {
    PayuParams(
      key, TxnId(now, req.userId), AmountText(item.price), item.productInfo,
      if Truthy(req.firstName) then req.firstName.value else "Customer",
      if Truthy(req.email) then req.email.value else "customer@astrorekha.com",
      OrEmpty(TruthyOrNone(req.userId)), OrEmpty(TruthyOrNone(req.kind)),
      OrEmpty(Or(Or(req.bundleId, req.packageId), Some(""))),
      OrEmpty(TruthyOrNone(item.feature)), OrEmpty(TruthyOrNone(item.coins)))
  }

  /** The "created" row saved for the checkout. */
  function PaymentRecord(req: InitiateRequest, item: Item, txnId: string, now: int): PaymentRow {
    PaymentRow(
      "pay_" + txnId, Some(txnId), None,
      TruthyOrNone(req.userId), req.kind, TruthyOrNone(Or(req.bundleId, req.packageId)),
      TruthyOrNone(item.feature),
      if Truthy(item.coins) then ParseInt(item.coins.value) else None,
      TruthyOrNone(req.email), Some(item.price * 100), "INR", Some("created"), Some(now),
      None, None, None, None)
  }

  /** The POST handler. */
  function Initiate(env: PayuEnv, pricing: PricingConfig, req: InitiateRequest, now: int, sha512: string -> string): (r: InitiateResult)
    ensures !Truthy(env.merchantKey) || !Truthy(env.merchantSalt) ==>
              r == InitiateResult(Err(500, "PayU not configured"), None)
    ensures r.outcome.Ok? <==> r.inserted.Some?
    ensures r.outcome.Err? ==> r.outcome.status in {400, 500}
  {
    if !Truthy(env.merchantKey) || !Truthy(env.merchantSalt) then
      InitiateResult(Err(500, "PayU not configured"), None)
    else
      match Dispatch(pricing, req)
      case Err(s, m) => InitiateResult(Err(s, m), None)
      case Ok(item) =>
        var params := ParamsFor(env.merchantKey.value, req, item, now);
        InitiateResult(
          Ok(InitiateResponse(params, GenerateHash(params, env.merchantSalt.value, sha512))),
          Some(PaymentRecord(req, item, params.txnid, now)))
  }

  // ---------------------------------------------------------------------------
  // Properties

  /** A successful answer is built from the dispatched item. */
  lemma InitiateOk(env: PayuEnv, pricing: PricingConfig, req: InitiateRequest, now: int, sha512: string -> string)
    requires Initiate(env, pricing, req, now, sha512).outcome.Ok?
    ensures Truthy(env.merchantKey) && Truthy(env.merchantSalt) && Dispatch(pricing, req).Ok?
    ensures var r := Initiate(env, pricing, req, now, sha512);
            var item := Dispatch(pricing, req).body;
            var params := ParamsFor(env.merchantKey.value, req, item, now);
            && r.outcome.body == InitiateResponse(params, GenerateHash(params, env.merchantSalt.value, sha512))
            && r.inserted == Some(PaymentRecord(req, item, params.txnid, now))
  {
  }

  /** The charged amount is the configured price of the item the dispatch
      found (see `Dispatch` for which lookup each type uses): the stored row
      carries it in paise and the gateway amount is the same number of
      rupees. */
  lemma ChargedAmountIsConfigured(env: PayuEnv, pricing: PricingConfig, req: InitiateRequest, now: int, sha512: string -> string)
    requires Initiate(env, pricing, req, now, sha512).outcome.Ok?
    ensures Dispatch(pricing, req).Ok?
    ensures var r := Initiate(env, pricing, req, now, sha512);
            var price := Dispatch(pricing, req).body.price;
            r.inserted.value.amount == Some(price * 100) && r.outcome.body.params.amount == AmountText(price)
  {
    InitiateOk(env, pricing, req, now, sha512);
    var item := Dispatch(pricing, req).body;
    var params := ParamsFor(env.merchantKey.value, req, item, now);
    assert PaymentRecord(req, item, params.txnid, now).amount == Some(item.price * 100);
    assert params.amount == AmountText(item.price);
  }

  /** A type outside the four is refused before anything is priced. */
  lemma UnknownTypeRejected(env: PayuEnv, pricing: PricingConfig, req: InitiateRequest, now: int, sha512: string -> string)
    requires Truthy(env.merchantKey) && Truthy(env.merchantSalt)
    requires req.kind !in {Some("bundle"), Some("upsell"), Some("coins"), Some("report")}
    ensures Initiate(env, pricing, req, now, sha512) == InitiateResult(Err(400, "Invalid purchase type"), None)
  {
  }

  /** The returned hash is SHA-512 of the 17 request fields built from the
      returned parameters and the salt. */
  lemma HashCoversReturnedParams(env: PayuEnv, pricing: PricingConfig, req: InitiateRequest, now: int, sha512: string -> string)
    requires Initiate(env, pricing, req, now, sha512).outcome.Ok?
    ensures var body := Initiate(env, pricing, req, now, sha512).outcome.body;
            body.hash == sha512(Join(RequestHashFields(body.params, env.merchantSalt.value), '|'))
  {
    InitiateOk(env, pricing, req, now, sha512);
  }

  /** The udfs of a coin checkout: the user in udf1, the type in udf2 and
      the package's coin count, in decimal, in udf5. */
  predicate CoinCheckoutFor(p: PayuParams, userId: string, coins: int) {
    p.udf1 == userId && p.udf2 == "coins" && p.udf5 == IntToDecimal(coins)
  }

  /** A started coin checkout for a known package carries the paying user and
      that package's coin count. */
  lemma CoinCheckoutParams(env: PayuEnv, pricing: PricingConfig, req: InitiateRequest, pack: CoinPackage, now: int, sha512: string -> string)
    requires req.kind == Some("coins") && Truthy(req.userId)
    requires CoinPackageFor(pricing, req.packageId) == Some(pack)
    requires Initiate(env, pricing, req, now, sha512).outcome.Ok?
    ensures CoinCheckoutFor(Initiate(env, pricing, req, now, sha512).outcome.body.params, req.userId.value, pack.coins)
  {
    UdfMapping(env, pricing, req, now, sha512);
  }

  /** The user-defined fields: udf1 the user id, udf2 the type, udf3 the
      bundle or package id, udf4 the feature of an upsell or report, udf5 the
      coin count of a coin pack; each "" when absent. */
  lemma UdfMapping(env: PayuEnv, pricing: PricingConfig, req: InitiateRequest, now: int, sha512: string -> string)
    requires Initiate(env, pricing, req, now, sha512).outcome.Ok?
    ensures var p := Initiate(env, pricing, req, now, sha512).outcome.body.params;
            && p.udf1 == OrEmpty(req.userId)
            && p.udf2 == req.kind.value
            && p.udf3 == (if Truthy(req.bundleId) then req.bundleId.value else OrEmpty(req.packageId))
            && (req.kind == Some("upsell") ==> p.udf4 == UpsellFor(pricing, Or(req.bundleId, req.packageId)).value.feature)
            && (req.kind == Some("report") ==> p.udf4 == ReportFor(pricing, req.packageId).value.feature)
            && (req.kind in {Some("bundle"), Some("coins")} ==> p.udf4 == "")
            && (req.kind == Some("coins") ==> p.udf5 == IntToDecimal(CoinPackageFor(pricing, req.packageId).value.coins))
            && (req.kind != Some("coins") ==> p.udf5 == "")
  {
    InitiateOk(env, pricing, req, now, sha512);
    ParamsUdfs(pricing, req, env.merchantKey.value, now);
  }

  /** The user-defined fields of the parameters built from a dispatched
      item. */
  lemma ParamsUdfs(pricing: PricingConfig, req: InitiateRequest, key: string, now: int)
    requires Dispatch(pricing, req).Ok?
    ensures var p := ParamsFor(key, req, Dispatch(pricing, req).body, now);
            && p.udf1 == OrEmpty(req.userId)
            && p.udf2 == req.kind.value
            && p.udf3 == (if Truthy(req.bundleId) then req.bundleId.value else OrEmpty(req.packageId))
            && (req.kind == Some("upsell") ==> p.udf4 == UpsellFor(pricing, Or(req.bundleId, req.packageId)).value.feature)
            && (req.kind == Some("report") ==> p.udf4 == ReportFor(pricing, req.packageId).value.feature)
            && (req.kind in {Some("bundle"), Some("coins")} ==> p.udf4 == "")
            && (req.kind == Some("coins") ==> p.udf5 == IntToDecimal(CoinPackageFor(pricing, req.packageId).value.coins))
            && (req.kind != Some("coins") ==> p.udf5 == "")
  {
    DispatchFields(pricing, req);
    var p := ParamsFor(key, req, Dispatch(pricing, req).body, now);
    assert p.udf3 == (if Truthy(req.bundleId) then req.bundleId.value else OrEmpty(req.packageId));
  }

  /** What the dispatched item carries besides its price: the feature of an
      upsell or report and the coin count of a coin pack. */
  lemma DispatchFields(pricing: PricingConfig, req: InitiateRequest)
    requires Dispatch(pricing, req).Ok?
    ensures req.kind in {Some("bundle"), Some("upsell"), Some("coins"), Some("report")}
    ensures var item := Dispatch(pricing, req).body;
            && (req.kind == Some("bundle") ==> item.feature.None? && item.coins.None?)
            && (req.kind == Some("upsell") ==>
                  item.feature == Some(UpsellFor(pricing, Or(req.bundleId, req.packageId)).value.feature) && item.coins.None?)
            && (req.kind == Some("report") ==>
                  item.feature == Some(ReportFor(pricing, req.packageId).value.feature) && item.coins.None?)
            && (req.kind == Some("coins") ==>
                  item.feature.None? && item.coins == Some(IntToDecimal(CoinPackageFor(pricing, req.packageId).value.coins)))
  {
  }

  /** Missing customer details fall back to fixed values. */
  lemma CustomerDefaults(env: PayuEnv, pricing: PricingConfig, req: InitiateRequest, now: int, sha512: string -> string)
    requires Initiate(env, pricing, req, now, sha512).outcome.Ok?
    ensures var p := Initiate(env, pricing, req, now, sha512).outcome.body.params;
            && (!Truthy(req.firstName) ==> p.firstname == "Customer")
            && (!Truthy(req.email) ==> p.email == "customer@astrorekha.com")
            && (Truthy(req.firstName) ==> p.firstname == req.firstName.value)
            && (Truthy(req.email) ==> p.email == req.email.value)
  {
    InitiateOk(env, pricing, req, now, sha512);
  }

  /** The saved row is a "created" payment in paise under the transaction id,
      and its coin count reads back as the package's coins. */
  lemma RecordedPayment(env: PayuEnv, pricing: PricingConfig, req: InitiateRequest, now: int, sha512: string -> string)
    requires Initiate(env, pricing, req, now, sha512).outcome.Ok?
    ensures var r := Initiate(env, pricing, req, now, sha512);
            && r.inserted.value.paymentStatus == Some("created")
            && r.inserted.value.payuTxnId == Some(r.outcome.body.params.txnid)
            && r.inserted.value.id == "pay_" + r.outcome.body.params.txnid
            && r.inserted.value.currency == "INR"
            && (req.kind == Some("coins") ==> r.inserted.value.coins == Some(CoinPackageFor(pricing, req.packageId).value.coins))
  {
    InitiateOk(env, pricing, req, now, sha512);
    if req.kind == Some("coins") {
      ParseIntOfDecimal(CoinPackageFor(pricing, req.packageId).value.coins);
    }
  }
}
