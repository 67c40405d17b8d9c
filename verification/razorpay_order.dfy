/** The Razorpay checkout start of src/app/api/razorpay/create-order/route.ts:
    the amount comes from four static tables keyed by id (amounts in paise,
    independent of the pricing configuration), the order is created with the
    purchase recorded in its notes, and a "created" payment row is saved.
    The gateway's order id is an input (the SDK call is not modelled). */
module RazorpayOrder {
  import opened Common
  import opened JsText
  import opened Store
  import Fulfilment
  import Pricing

  datatype BundleEntry = BundleEntry(name: string, amount: int, features: seq<string>)
  datatype UpsellEntry = UpsellEntry(name: string, amount: int, feature: string)
  datatype CoinEntry = CoinEntry(coins: int, amount: int, name: string)
  datatype ReportEntry = ReportEntry(amount: int, name: string, feature: string)

  /** `BUNDLE_CONFIG[key]`. */
  function BundleConfig(key: string): Option<BundleEntry> {
    if key == "palm-reading" then Some(BundleEntry("Palm Reading Report", 116300, ["palmReading"]))
    else if key == "palm-birth" then Some(BundleEntry("Palm + Birth Chart Report", 157800, ["palmReading", "birthChart"]))
    else if key == "palm-birth-compat" then
      Some(BundleEntry("Palm + Birth Chart + Compatibility Report", 315800, ["palmReading", "birthChart", "compatibilityTest"]))
    else None
  }

  /** `UPSELL_CONFIG[key]`. */
  function UpsellConfig(key: string): Option<UpsellEntry> {
    if key == "2026-predictions" then Some(UpsellEntry("2026 Future Predictions", 58200, "prediction2026"))
    else None
  }

  /** `COIN_PACKAGES[key]`. */
  function CoinConfig(key: string): Option<CoinEntry> {
    if key == "coins-50" then Some(CoinEntry(50, 41600, "50 Coins"))
    else if key == "coins-150" then Some(CoinEntry(150, 108200, "150 Coins"))
    else if key == "coins-300" then Some(CoinEntry(300, 166600, "300 Coins"))
    else if key == "coins-500" then Some(CoinEntry(500, 249900, "500 Coins"))
    else None
  }

  /** `REPORTS[key]`. */
  function ReportConfig(key: string): Option<ReportEntry> {
    if key == "report-2026" then Some(ReportEntry(58200, "2026 Future Predictions", "prediction2026"))
    else if key == "report-birth-chart" then Some(ReportEntry(58200, "Birth Chart Report", "birthChart"))
    else if key == "report-compatibility" then Some(ReportEntry(58200, "Compatibility Report", "compatibilityTest"))
    else None
  }

  /** `JSON.stringify` of a list of plain identifiers (no character needs
      escaping in the table's feature keys). */
  function JsonStringList(xs: seq<string>): string {
    "[" + Join(Quoted(xs), ',') + "]"
  }

  function Quoted(xs: seq<string>): (r: seq<string>)
    ensures |r| == |xs|
    ensures forall i :: 0 <= i < |xs| ==> r[i] == "\"" + xs[i] + "\""
  {
    if xs == [] then [] else ["\"" + xs[0] + "\""] + Quoted(xs[1..])
  }

  /** The JSON body: `type`, `bundleId`, `packageId`, `userId`, `email`. */
  datatype OrderRequest = OrderRequest(
    kind: Option<string>, bundleId: Option<string>, packageId: Option<string>,
    userId: Option<string>, email: Option<string>)

  /** `RAZORPAY_KEY_ID` and `RAZORPAY_KEY_SECRET`. */
  datatype RazorpayEnv = RazorpayEnv(keyId: Option<string>, keySecret: Option<string>)

  /** What the dispatch settles: the paise amount, the description and the
      order notes. */
  datatype Charge = Charge(amount: int, description: string, notes: map<string, string>)

  /** The notes every order starts with: `userId || ""` and `type || ""`. */
  function BaseNotes(req: OrderRequest): map<string, string> {
    map["userId" := OrEmpty(req.userId), "type" := OrEmpty(req.kind)]
  }

  /** The if/else-if chain over `type`; each table is indexed with the
      request's id as JavaScript would (an undefined id is the key
      "undefined", which no table has). */
  function Dispatch(req: OrderRequest): (r: Outcome<Charge>)
    ensures req.kind !in {Some("bundle"), Some("upsell"), Some("coins"), Some("report")} ==>
              r == Err(400, "Invalid purchase type")
    ensures r.Err? ==> r.status == 400
    ensures req.kind == Some("bundle") ==>
              (r.Ok? <==> BundleConfig(Interp(req.bundleId)).Some?)
              && (r.Ok? ==> r.body.amount == BundleConfig(Interp(req.bundleId)).value.amount)
    ensures req.kind == Some("upsell") ==>
              (r.Ok? <==> UpsellConfig(Interp(Or(req.bundleId, req.packageId))).Some?)
              && (r.Ok? ==> r.body.amount == UpsellConfig(Interp(Or(req.bundleId, req.packageId))).value.amount)
    ensures req.kind == Some("coins") ==>
              (r.Ok? <==> CoinConfig(Interp(req.packageId)).Some?)
              && (r.Ok? ==> r.body.amount == CoinConfig(Interp(req.packageId)).value.amount)
    ensures req.kind == Some("report") ==>
              (r.Ok? <==> ReportConfig(Interp(req.packageId)).Some?)
              && (r.Ok? ==> r.body.amount == ReportConfig(Interp(req.packageId)).value.amount)
    ensures r.Ok? ==> "userId" in r.body.notes && r.body.notes["userId"] == OrEmpty(req.userId)
    ensures r.Ok? ==> "type" in r.body.notes && r.body.notes["type"] == OrEmpty(req.kind)
  {
    var notes := BaseNotes(req);
    if req.kind == Some("bundle") then
      match BundleConfig(Interp(req.bundleId))
      case None => Err(400, "Invalid bundle: " + Interp(req.bundleId))
      case Some(b) =>
        Ok(Charge(b.amount, b.name, notes["bundleId" := Interp(req.bundleId)]["features" := JsonStringList(b.features)]))
    else if req.kind == Some("upsell") then
      match UpsellConfig(Interp(Or(req.bundleId, req.packageId)))
      case None => Err(400, "Invalid upsell")
      case Some(u) => Ok(Charge(u.amount, u.name, notes["feature" := u.feature]))
    else if req.kind == Some("coins") then
      match CoinConfig(Interp(req.packageId))
      case None => Err(400, "Invalid coin package")
      case Some(c) => Ok(Charge(c.amount, c.name, notes["coins" := IntToDecimal(c.coins)]))
    else if req.kind == Some("report") then
      match ReportConfig(Interp(req.packageId))
      case None => Err(400, "Invalid report")
      case Some(x) => Ok(Charge(x.amount, x.name, notes["feature" := x.feature]["reportId" := Interp(req.packageId)]))
    else
      Err(400, "Invalid purchase type")
  }

  /** `rcpt_${Date.now()}_${(userId || "anon").slice(-6)}`. */
  function Receipt(now: int, userId: Option<string>): (t: string)
    ensures StartsWith(t, "rcpt_")
    ensures var tail := LastN(if Truthy(userId) then userId.value else "anon", 6);
            |tail| < |t| && t[|t| - |tail|..] == tail
    ensures var tail := LastN(if Truthy(userId) then userId.value else "anon", 6);
            |t| == 6 + |IntToDecimal(now)| + |tail|
            && t[5..|t| - |tail| - 1] == IntToDecimal(now) && t[|t| - |tail| - 1] == '_'
  {
    var tail := LastN(if Truthy(userId) then userId.value else "anon", 6);
    var d := IntToDecimal(now);
    var t := "rcpt_" + d + "_" + tail;
    assert t[..5] == "rcpt_";
    assert t[5..5 + |d|] == d && t[5 + |d|] == '_';
    assert t[|t| - |tail|..] == tail;
    t
  }

  /** The order the SDK is asked to create. */
  datatype OrderSpec = OrderSpec(amount: int, currency: string, receipt: string, notes: map<string, string>)

  /** The JSON the handler answers with. */
  datatype OrderResponse = OrderResponse(orderId: string, amount: int, currency: string, keyId: string, description: string)

  /** The handler's answer, the order it asks for and the row it inserts. */
  datatype OrderResult = OrderResult(outcome: Outcome<OrderResponse>, order: Option<OrderSpec>, inserted: Option<PaymentRow>)

  /** `metadata.x || null` for an optional note. */
  function Note(notes: map<string, string>, key: string): Option<string> {
    if key in notes && notes[key] != "" then Some(notes[key]) else None
  }

  /** The "created" row saved for the order. */
  function OrderRecord(req: OrderRequest, charge: Charge, orderId: string, now: int): PaymentRow {
    var coinsNote := Note(charge.notes, "coins");
    PaymentRow(
      "pay_" + orderId, None, Some(orderId),
      TruthyOrNone(req.userId), req.kind, TruthyOrNone(Or(req.bundleId, req.packageId)),
      Note(charge.notes, "feature"),
      if coinsNote.Some? then ParseInt(coinsNote.value) else None,
      TruthyOrNone(req.email), Some(charge.amount), "INR", Some("created"), Some(now),
      None, None, None, None)
  }

  /** The POST handler; `orderId` is the id the gateway gives the order. */
  function CreateOrder(env: RazorpayEnv, req: OrderRequest, orderId: string, now: int): (r: OrderResult)
    ensures !Truthy(env.keyId) || !Truthy(env.keySecret) ==>
              r == OrderResult(Err(500, "Razorpay not configured"), None, None)
    ensures Truthy(env.keyId) && Truthy(env.keySecret) ==> r.outcome.Ok? == Dispatch(req).Ok?
    ensures r.outcome.Ok? <==> r.inserted.Some?
    ensures r.outcome.Ok? <==> r.order.Some?
    ensures r.outcome.Err? ==> r.outcome.status in {400, 500}
  {
    if !Truthy(env.keyId) || !Truthy(env.keySecret) then
      OrderResult(Err(500, "Razorpay not configured"), None, None)
    else
      match Dispatch(req)
      case Err(s, m) => OrderResult(Err(s, m), None, None)
      case Ok(charge) =>
        OrderResult(
          Ok(OrderResponse(orderId, charge.amount, "INR", env.keyId.value, charge.description)),
          Some(OrderSpec(charge.amount, "INR", Receipt(now, req.userId), charge.notes)),
          Some(OrderRecord(req, charge, orderId, now)))
  }

  // ---------------------------------------------------------------------------
  // Properties

  /** Unfolds a successful answer. */
  lemma CreateOrderOk(env: RazorpayEnv, req: OrderRequest, orderId: string, now: int)
    requires CreateOrder(env, req, orderId, now).outcome.Ok?
    ensures Truthy(env.keyId) && Truthy(env.keySecret) && Dispatch(req).Ok?
    ensures var r := CreateOrder(env, req, orderId, now);
            var charge := Dispatch(req).body;
            && r.outcome.body == OrderResponse(orderId, charge.amount, "INR", env.keyId.value, charge.description)
            && r.order == Some(OrderSpec(charge.amount, "INR", Receipt(now, req.userId), charge.notes))
            && r.inserted == Some(OrderRecord(req, charge, orderId, now))
  {
  }

  /** Every table amount is a positive whole number of rupees. */
  lemma AmountsAreWholeRupees(req: OrderRequest)
    requires Dispatch(req).Ok?
    ensures Dispatch(req).body.amount > 0 && Dispatch(req).body.amount % 100 == 0
  {
    if req.kind == Some("bundle") {
      BundleAmountsWhole(Interp(req.bundleId));
    } else if req.kind == Some("upsell") {
      UpsellAmountsWhole(Interp(Or(req.bundleId, req.packageId)));
    } else if req.kind == Some("coins") {
      CoinAmountsWhole(Interp(req.packageId));
    } else {
      ReportAmountsWhole(Interp(req.packageId));
    }
  }

  lemma BundleAmountsWhole(k: string)
    ensures BundleConfig(k).Some? ==> BundleConfig(k).value.amount > 0 && BundleConfig(k).value.amount % 100 == 0
  {
  }

  lemma UpsellAmountsWhole(k: string)
    ensures UpsellConfig(k).Some? ==> UpsellConfig(k).value.amount > 0 && UpsellConfig(k).value.amount % 100 == 0
  {
  }

  lemma CoinAmountsWhole(k: string)
    ensures CoinConfig(k).Some? ==> CoinConfig(k).value.amount > 0 && CoinConfig(k).value.amount % 100 == 0
  {
  }

  lemma ReportAmountsWhole(k: string)
    ensures ReportConfig(k).Some? ==> ReportConfig(k).value.amount > 0 && ReportConfig(k).value.amount % 100 == 0
  {
  }

  /** The order, the answer and the saved row all carry the table's paise
      amount unchanged. */
  lemma AmountIsCarriedUnchanged(env: RazorpayEnv, req: OrderRequest, orderId: string, now: int)
    requires CreateOrder(env, req, orderId, now).outcome.Ok?
    ensures var r := CreateOrder(env, req, orderId, now);
            var amount := Dispatch(req).body.amount;
            && r.outcome.body.amount == amount
            && r.order.value.amount == amount
            && r.inserted.value.amount == Some(amount)
            && r.inserted.value.paymentStatus == Some("created")
            && r.inserted.value.razorpayOrderId == Some(orderId)
            && r.inserted.value.bundleId == TruthyOrNone(Or(req.bundleId, req.packageId))
  {
    CreateOrderOk(env, req, orderId, now);
  }

  /** A bundle order's notes list exactly the features the fulfilment map
      unlocks for that bundle. */
  lemma BundleNotesListFeatures(req: OrderRequest)
    requires req.kind == Some("bundle") && Dispatch(req).Ok?
    ensures "features" in Dispatch(req).body.notes
    ensures Dispatch(req).body.notes["features"] == JsonStringList(Fulfilment.BundleFeatures(Interp(req.bundleId)))
    ensures Dispatch(req).body.notes["bundleId"] == Interp(req.bundleId)
  {
  }

  /** A coin order's notes carry the package's coin count, and the saved
      row reads it back as that number. */
  lemma CoinNotesCarryCount(env: RazorpayEnv, req: OrderRequest, orderId: string, now: int)
    requires req.kind == Some("coins") && CreateOrder(env, req, orderId, now).outcome.Ok?
    ensures CoinConfig(Interp(req.packageId)).Some?
    ensures var coins := CoinConfig(Interp(req.packageId)).value.coins;
            && Dispatch(req).body.notes["coins"] == IntToDecimal(coins)
            && CreateOrder(env, req, orderId, now).inserted.value.coins == Some(coins)
  {
    CreateOrderOk(env, req, orderId, now);
    var coins := CoinConfig(Interp(req.packageId)).value.coins;
    ParseIntOfDecimal(coins);
  }

  /** The coin and report tables charge the default configuration's price in
      paise; the bundle and upsell tables do not. */
  lemma TablesAgainstDefaultPricing()
    ensures forall k :: CoinConfig(k).Some? ==>
              Pricing.GetCoinPackageById(Pricing.DefaultPricing, k).Some?
              && CoinConfig(k).value.amount == Pricing.GetCoinPackageById(Pricing.DefaultPricing, k).value.price * 100
              && CoinConfig(k).value.coins == Pricing.GetCoinPackageById(Pricing.DefaultPricing, k).value.coins
    ensures forall k :: ReportConfig(k).Some? ==>
              Pricing.GetReportById(Pricing.DefaultPricing, k).Some?
              && ReportConfig(k).value.amount == Pricing.GetReportById(Pricing.DefaultPricing, k).value.price * 100
    ensures forall k :: BundleConfig(k).Some? ==>
              Pricing.GetBundleById(Pricing.DefaultPricing, k).Some?
              && BundleConfig(k).value.amount != Pricing.GetBundleById(Pricing.DefaultPricing, k).value.price * 100
    ensures forall k :: UpsellConfig(k).Some? ==>
              Pricing.GetUpsellById(Pricing.DefaultPricing, k).Some?
              && UpsellConfig(k).value.amount != Pricing.GetUpsellById(Pricing.DefaultPricing, k).value.price * 100
  {
    forall k | CoinConfig(k).Some?
      ensures Pricing.GetCoinPackageById(Pricing.DefaultPricing, k).Some?
              && CoinConfig(k).value.amount == Pricing.GetCoinPackageById(Pricing.DefaultPricing, k).value.price * 100
              && CoinConfig(k).value.coins == Pricing.GetCoinPackageById(Pricing.DefaultPricing, k).value.coins
    {
      CoinAgrees(k);
    }
    forall k | ReportConfig(k).Some?
      ensures Pricing.GetReportById(Pricing.DefaultPricing, k).Some?
              && ReportConfig(k).value.amount == Pricing.GetReportById(Pricing.DefaultPricing, k).value.price * 100
    {
      ReportAgrees(k);
    }
    forall k | BundleConfig(k).Some?
      ensures Pricing.GetBundleById(Pricing.DefaultPricing, k).Some?
              && BundleConfig(k).value.amount != Pricing.GetBundleById(Pricing.DefaultPricing, k).value.price * 100
    {
      BundleDiffers(k);
    }
    forall k | UpsellConfig(k).Some?
      ensures Pricing.GetUpsellById(Pricing.DefaultPricing, k).Some?
              && UpsellConfig(k).value.amount != Pricing.GetUpsellById(Pricing.DefaultPricing, k).value.price * 100
    {
      UpsellDiffers(k);
    }
  }

  lemma CoinAgrees(k: string)
    requires CoinConfig(k).Some?
    ensures Pricing.GetCoinPackageById(Pricing.DefaultPricing, k).Some?
            && CoinConfig(k).value.amount == Pricing.GetCoinPackageById(Pricing.DefaultPricing, k).value.price * 100
            && CoinConfig(k).value.coins == Pricing.GetCoinPackageById(Pricing.DefaultPricing, k).value.coins
  {
    Pricing.DefaultIdsUnique();
    var c := Pricing.DefaultPricing.coinPackages;
    var i := if k == "coins-50" then 0 else if k == "coins-150" then 1 else if k == "coins-300" then 2 else 3;
    assert c[i].id == k;
    Pricing.FindUnique(c, Pricing.CoinPackageId, i);
  }

  lemma ReportAgrees(k: string)
    requires ReportConfig(k).Some?
    ensures Pricing.GetReportById(Pricing.DefaultPricing, k).Some?
            && ReportConfig(k).value.amount == Pricing.GetReportById(Pricing.DefaultPricing, k).value.price * 100
  {
  }

  lemma BundleDiffers(k: string)
    requires BundleConfig(k).Some?
    ensures Pricing.GetBundleById(Pricing.DefaultPricing, k).Some?
            && BundleConfig(k).value.amount != Pricing.GetBundleById(Pricing.DefaultPricing, k).value.price * 100
  {
  }

  lemma UpsellDiffers(k: string)
    requires UpsellConfig(k).Some?
    ensures Pricing.GetUpsellById(Pricing.DefaultPricing, k).Some?
            && UpsellConfig(k).value.amount != Pricing.GetUpsellById(Pricing.DefaultPricing, k).value.price * 100
  {
  }
}
