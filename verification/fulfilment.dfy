/** The fulfilment merge that both payment-verify handlers carry word for word
    (src/app/api/payu/verify-payment/route.ts and
    src/app/api/razorpay/verify-payment/route.ts): the stored feature map and
    coin balance of the paying user, updated by what was bought, then
    upserted. Defined once here and used by both handlers. */
module Fulfilment {
  import opened Common
  import opened JsText
  import opened Store

  /** `BUNDLE_FEATURES[bundleId] || []`. */
  function BundleFeatures(bundleId: string): seq<string> {
    if bundleId == "palm-reading" then ["palmReading"]
    else if bundleId == "palm-birth" then ["palmReading", "birthChart"]
    else if bundleId == "palm-birth-compat" then ["palmReading", "birthChart", "compatibilityTest"]
    else []
  }

  /** The map used when the user has no stored `unlocked_features`. */
  const DefaultFeatures: map<string, bool> :=
    map["palmReading" := false, "prediction2026" := false, "birthChart" := false, "compatibilityTest" := false]

  /** What the callback says was bought: `type`, `bundleId`, `feature` and
      `coins` (the coin count as text, as it arrives in the request). */
  datatype Purchase = Purchase(kind: Option<string>, bundleId: Option<string>, feature: Option<string>, coins: Option<string>)

  /** The branches of the merge's if/else-if chain. */
  datatype Branch = BundleBranch | UpsellBranch | ReportBranch | CoinsBranch | NoBranch

  function BranchOf(p: Purchase): Branch {
    if p.kind == Some("bundle") && Truthy(p.bundleId) then BundleBranch
    else if p.kind == Some("upsell") && Truthy(p.feature) then UpsellBranch
    else if p.kind == Some("report") && Truthy(p.feature) then ReportBranch
    else if p.kind == Some("coins") && Truthy(p.coins) then CoinsBranch
    else NoBranch
  }

  /** Exactly one branch applies: each branch is taken precisely when its own
      guard holds, because the four guards test four different types. */
  lemma ExactlyOneBranch(p: Purchase)
    ensures BranchOf(p) == BundleBranch <==> p.kind == Some("bundle") && Truthy(p.bundleId)
    ensures BranchOf(p) == UpsellBranch <==> p.kind == Some("upsell") && Truthy(p.feature)
    ensures BranchOf(p) == ReportBranch <==> p.kind == Some("report") && Truthy(p.feature)
    ensures BranchOf(p) == CoinsBranch <==> p.kind == Some("coins") && Truthy(p.coins)
  {
  }

  /** The feature keys a purchase grants, as a set. */
  function Granted(p: Purchase): set<string> {
    match BranchOf(p)
    case BundleBranch => set k | k in BundleFeatures(p.bundleId.value)
    case UpsellBranch => {p.feature.value}
    case ReportBranch => {p.feature.value}
    case _ => {}
  }

  /** The loop `for (const f of keys) updated[f] = true`. */
  function SetTrue(m: map<string, bool>, keys: seq<string>): (r: map<string, bool>)
    ensures r.Keys == m.Keys + set k | k in keys
    ensures forall k :: k in r ==> r[k] == (k in keys || (k in m && m[k]))
    decreases |keys|
  {
    if keys == [] then m else SetTrue(m[keys[0] := true], keys[1..])
  }

  /** `existingUser?.unlocked_features || { all four false }`. */
  function BaseFeatures(existing: Option<UserRow>): map<string, bool> {
    if existing.Some? && existing.value.unlockedFeatures.Some? then existing.value.unlockedFeatures.value
    else DefaultFeatures
  }

  /** `existingUser?.coins || 0`. */
  function BaseCoins(existing: Option<UserRow>): int {
    if existing.Some? then NumOrZero(existing.value.coins) else 0
  }

  /** The merged feature map and balance; a balance of `None` is the NaN that
      `parseInt` of a non-numeric coin count produces, saved as null. */
  datatype Grant = Grant(features: map<string, bool>, coins: Option<int>)

  /** The coins a purchase adds; `None` when the count does not parse. */
  function CoinCredit(p: Purchase): Option<int> {
    match BranchOf(p)
    case BundleBranch => Some(15)
    case CoinsBranch => ParseInt(p.coins.value)
    case _ => Some(0)
  }

  /** The merge: the granted keys are set true on top of the stored map,
      every other key keeps its value, and the balance grows by the credit. */
  function Merge(existing: Option<UserRow>, p: Purchase): (g: Grant)
    ensures g.features.Keys == BaseFeatures(existing).Keys + Granted(p)
    ensures forall k :: k in g.features ==>
              g.features[k] == (k in Granted(p) || (k in BaseFeatures(existing) && BaseFeatures(existing)[k]))
    ensures CoinCredit(p).Some? ==> g.coins == Some(BaseCoins(existing) + CoinCredit(p).value)
    ensures CoinCredit(p).None? ==> g.coins.None?
  {
    var base := BaseFeatures(existing);
    var coins := BaseCoins(existing);
    match BranchOf(p)
    case BundleBranch => Grant(SetTrue(base, BundleFeatures(p.bundleId.value)), Some(coins + 15))
    case UpsellBranch => Grant(base[p.feature.value := true], Some(coins))
    case ReportBranch => Grant(base[p.feature.value := true], Some(coins))
    case CoinsBranch =>
      (match ParseInt(p.coins.value)
       case None => Grant(base, None)
       case Some(n) => Grant(base, Some(coins + n)))
    case NoBranch => Grant(base, Some(coins))
  }

  /** Features are never revoked: every stored key survives and every true
      flag stays true. */
  lemma MergeIsMonotone(existing: Option<UserRow>, p: Purchase)
    ensures forall k :: k in BaseFeatures(existing) ==>
              k in Merge(existing, p).features && (BaseFeatures(existing)[k] ==> Merge(existing, p).features[k])
  {
  }

  /** A coin pack leaves the features alone; a feature purchase leaves the
      balance alone; a bundle changes both. */
  lemma BranchEffects(existing: Option<UserRow>, p: Purchase)
    ensures BranchOf(p) == CoinsBranch ==> Merge(existing, p).features == BaseFeatures(existing)
    ensures BranchOf(p) == NoBranch ==> Merge(existing, p) == Grant(BaseFeatures(existing), Some(BaseCoins(existing)))
    ensures BranchOf(p) in {UpsellBranch, ReportBranch} ==> Merge(existing, p).coins == Some(BaseCoins(existing))
    ensures BranchOf(p) == BundleBranch ==> Merge(existing, p).coins == Some(BaseCoins(existing) + 15)
  {
  }

  /** A bundle id the map does not know still earns the 15 coins, with no
      feature granted. */
  lemma UnknownBundleStillCredits(existing: Option<UserRow>, id: string)
    requires id != "" && BundleFeatures(id) == []
    ensures var g := Merge(existing, Purchase(Some("bundle"), Some(id), None, None));
            g.features == BaseFeatures(existing) && g.coins == Some(BaseCoins(existing) + 15)
  {
  }

  /** The gateway references each handler writes into the user row. */
  datatype GatewayRefs =
    | PayuRefs(payuPaymentId: Option<string>, payuTxnId: Option<string>)
    | RazorpayRefs(razorpayPaymentId: Option<string>, razorpayOrderId: Option<string>)

  /** A column set to a value that may be `undefined`: JSON drops an
      undefined property, so the upsert keeps the old value. */
  function Written<T>(prev: Option<T>, v: Option<T>): (r: Option<T>)
    ensures v.Some? ==> r == v
    ensures v.None? ==> r == prev
  {
    if v.Some? then v else prev
  }

  /** `purchase_type: type === "bundle" ? "one-time" : type`. */
  function PurchaseType(kind: Option<string>): Option<string> {
    if kind == Some("bundle") then Some("one-time") else kind
  }

  /** The row the upsert leaves for the paying user. */
  function FulfilledRow(existing: Option<UserRow>, p: Purchase, refs: GatewayRefs, now: int): (row: UserRow)
    ensures row.unlockedFeatures == Some(Merge(existing, p).features)
    ensures row.coins == Merge(existing, p).coins
    ensures row.paymentStatus == Some("paid") && row.updatedAt == Some(now)
    ensures p.kind == Some("bundle") ==> row.purchaseType == Some("one-time")
    ensures p.kind.Some? && p.kind != Some("bundle") ==> row.purchaseType == p.kind
    ensures p.kind.None? ==> row.purchaseType == existing.GetOr(EmptyUser).purchaseType
    ensures row.bundlePurchased == if Truthy(p.bundleId) then p.bundleId else None
    ensures row.email == existing.GetOr(EmptyUser).email && row.name == existing.GetOr(EmptyUser).name
  {
    var prev := existing.GetOr(EmptyUser);
    var g := Merge(existing, p);
    var row := prev.(
      unlockedFeatures := Some(g.features),
      coins := g.coins,
      purchaseType := Written(prev.purchaseType, PurchaseType(p.kind)),
      bundlePurchased := if Truthy(p.bundleId) then p.bundleId else None,
      paymentStatus := Some("paid"),
      updatedAt := Some(now));
    match refs
    case PayuRefs(pid, txn) =>
      row.(payuPaymentId := Written(prev.payuPaymentId, pid), payuTxnId := Written(prev.payuTxnId, txn))
    case RazorpayRefs(pid, oid) =>
      row.(razorpayPaymentId := Written(prev.razorpayPaymentId, pid), razorpayOrderId := Written(prev.razorpayOrderId, oid))
  }

  function Lookup(users: map<string, UserRow>, id: string): Option<UserRow> {
    if id in users then Some(users[id]) else None
  }

  /** The `if (userId) { ... upsert ... }` block: only the paying user's row
      is written, and nothing at all without a user id. */
  function Fulfil(users: map<string, UserRow>, userId: Option<string>, p: Purchase, refs: GatewayRefs, now: int): (r: map<string, UserRow>)
    ensures !Truthy(userId) ==> r == users
    ensures Truthy(userId) ==> r.Keys == users.Keys + {userId.value}
    ensures Truthy(userId) ==> r[userId.value] == FulfilledRow(Lookup(users, userId.value), p, refs, now)
    ensures forall id :: id in users && Some(id) != userId ==> id in r && r[id] == users[id]
  {
    if Truthy(userId) then users[userId.value := FulfilledRow(Lookup(users, userId.value), p, refs, now)]
    else users
  }

  /** A coin pack whose count is the decimal text of `n` credits `n`: the
      count written with `toString` is read back by `parseInt`. */
  lemma DecimalCountCredits(p: Purchase, n: int)
    requires p.kind == Some("coins") && p.coins == Some(IntToDecimal(n))
    ensures CoinCredit(p) == Some(n)
  {
    var s := IntToDecimal(n);
    assert Truthy(p.coins);
    assert BranchOf(p) == CoinsBranch;
    assert CoinCredit(p) == ParseInt(s);
    ParseIntOfDecimal(n);
  }

  /** The paying user's balance after the upsert is the stored balance plus
      the purchase's credit, whatever else the purchase grants. */
  lemma CreditLands(users: map<string, UserRow>, uid: string, p: Purchase, refs: GatewayRefs, now: int, n: int)
    requires uid != "" && CoinCredit(p) == Some(n)
    ensures Fulfil(users, Some(uid), p, refs, now)[uid].coins == Some(BaseCoins(Lookup(users, uid)) + n)
  {
  }

  /** Merging a purchase into a map it has already been merged into changes
      no flag: every granted key is already true. */
  lemma MergeAgain(existing: Option<UserRow>, p: Purchase, row: UserRow)
    requires row.unlockedFeatures == Some(Merge(existing, p).features)
    ensures Merge(Some(row), p).features == Merge(existing, p).features
  {
    var g1 := Merge(existing, p).features;
    var g2 := Merge(Some(row), p).features;
    assert BaseFeatures(Some(row)) == g1;
    assert g2.Keys == g1.Keys;
    forall k | k in g2
      ensures g2[k] == g1[k]
    {
    }
  }

  /** Delivering the same callback twice leaves the same features as
      delivering it once, but the coin credit is paid again. */
  lemma ReplayCreditsTwice(users: map<string, UserRow>, uid: string, p: Purchase, refs: GatewayRefs, t1: int, t2: int)
    requires uid != ""
    ensures var once := Fulfil(users, Some(uid), p, refs, t1);
            var twice := Fulfil(once, Some(uid), p, refs, t2);
            && twice[uid].unlockedFeatures == once[uid].unlockedFeatures
            && (CoinCredit(p).Some? ==> twice[uid].coins == Some(once[uid].coins.value + CoinCredit(p).value))
  {
    var once := Fulfil(users, Some(uid), p, refs, t1);
    PaidRow(users, uid, p, refs, t1);
    PaidRow(once, uid, p, refs, t2);
    RowReplay(Lookup(users, uid), p, refs, t1, t2);
  }

  /** After the upsert the paying user's row is there and is the fulfilled
      row. */
  lemma PaidRow(users: map<string, UserRow>, uid: string, p: Purchase, refs: GatewayRefs, now: int)
    requires uid != ""
    ensures var r := Fulfil(users, Some(uid), p, refs, now);
            Lookup(r, uid) == Some(r[uid]) && r[uid] == FulfilledRow(Lookup(users, uid), p, refs, now)
  {
  }

  /** The row-level replay: fulfilling an already fulfilled row again keeps
      its features and adds the credit once more. */
  lemma RowReplay(existing: Option<UserRow>, p: Purchase, refs: GatewayRefs, t1: int, t2: int)
    ensures var row := FulfilledRow(existing, p, refs, t1);
            var again := FulfilledRow(Some(row), p, refs, t2);
            && again.unlockedFeatures == row.unlockedFeatures
            && (CoinCredit(p).Some? ==> again.coins == Some(row.coins.value + CoinCredit(p).value))
  {
    var row := FulfilledRow(existing, p, refs, t1);
    MergeAgain(existing, p, row);
    if CoinCredit(p).Some? {
      assert BaseCoins(Some(row)) == row.coins.value;
    }
  }
}
