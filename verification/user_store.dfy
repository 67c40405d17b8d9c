/** The client-side entitlement store of src/lib/user-store.ts: which of the
    four paid features are unlocked, the coin balance, the purchased bundle,
    and the actions that change them. Each action is a function from the old
    state to the new one (the zustand `set` merge made explicit). */
module UserStore {
  import opened Common

  /** The keys of `UnlockedFeatures`. */
  datatype Feature = PalmReading | Prediction2026 | BirthChart | CompatibilityTest

  /** A feature's property name, as it appears in stored JSON and in the
      pricing configuration. */
  function Key(f: Feature): string {
    match f
    case PalmReading => "palmReading"
    case Prediction2026 => "prediction2026"
    case BirthChart => "birthChart"
    case CompatibilityTest => "compatibilityTest"
  }

  /** The feature a property name denotes, if it is one of the four. */
  function FeatureNamed(key: string): (r: Option<Feature>)
    ensures r.Some? ==> Key(r.value) == key
    ensures r.None? ==> forall f: Feature :: Key(f) != key
  {
    if key == "palmReading" then Some(PalmReading)
    else if key == "prediction2026" then Some(Prediction2026)
    else if key == "birthChart" then Some(BirthChart)
    else if key == "compatibilityTest" then Some(CompatibilityTest)
    else None
  }

  lemma KeyIsNamed(f: Feature)
    ensures FeatureNamed(Key(f)) == Some(f)
  {
  }

  const AllFeatures: seq<Feature> := [PalmReading, Prediction2026, BirthChart, CompatibilityTest]

  /** `UnlockedFeatures`: one flag per feature. */
  datatype Features = Features(palmReading: bool, prediction2026: bool, birthChart: bool, compatibilityTest: bool) {

    function Get(f: Feature): bool {
      match f
      case PalmReading => palmReading
      case Prediction2026 => prediction2026
      case BirthChart => birthChart
      case CompatibilityTest => compatibilityTest
    }

    /** `{ ...features, [f]: v }`. */
    function Set(f: Feature, v: bool): (r: Features)
      ensures r.Get(f) == v
      ensures forall g :: g != f ==> r.Get(g) == Get(g)
    {
      match f
      case PalmReading => this.(palmReading := v)
      case Prediction2026 => this.(prediction2026 := v)
      case BirthChart => this.(birthChart := v)
      case CompatibilityTest => this.(compatibilityTest := v)
    }
  }

  /** Two flag sets are equal when they agree on every feature. */
  lemma FeaturesExtensional(a: Features, b: Features)
    requires forall f :: a.Get(f) == b.Get(f)
    ensures a == b
  {
    assert a.Get(PalmReading) == b.Get(PalmReading);
    assert a.Get(Prediction2026) == b.Get(Prediction2026);
    assert a.Get(BirthChart) == b.Get(BirthChart);
    assert a.Get(CompatibilityTest) == b.Get(CompatibilityTest);
  }

  const NoFeatures := Features(false, false, false, false)
  const EveryFeature := Features(true, true, true, true)

  /** `a` has nothing unlocked that `b` lacks. */
  predicate Covers(a: Features, b: Features) {
    forall f :: a.Get(f) ==> b.Get(f)
  }

  /** The bundle ids of `PurchasedBundle`. */
  datatype BundleId = PalmReadingBundle | PalmBirth | PalmBirthCompat

  datatype UserState = UserState(
    purchasedBundle: Option<BundleId>,
    features: Features,
    coins: int,
    userId: Option<string>,
    birthChartGenerating: bool,
    birthChartReady: bool)

  /** `initialState`. */
  const Initial := UserState(None, NoFeatures, 0, None, false, false)

  /** `unlockFeature(f)`: exactly `f` becomes unlocked; the rest of the state
      stays as it was. */
  function UnlockFeature(s: UserState, f: Feature): (r: UserState)
    ensures r.features.Get(f)
    ensures forall g :: g != f ==> r.features.Get(g) == s.features.Get(g)
    ensures r == s.(features := r.features)
  {
    s.(features := s.features.Set(f, true))
  }

  /** `purchaseUpsell(f)` does what `unlockFeature(f)` does. */
  function PurchaseUpsell(s: UserState, f: Feature): (r: UserState)
    ensures r.features.Get(f)
    ensures forall g :: g != f ==> r.features.Get(g) == s.features.Get(g)
    ensures r == s.(features := r.features)
  {
    s.(features := s.features.Set(f, true))
  }

  /** The loop of `purchaseBundle`: each listed feature set to true in turn. */
  function UnlockEach(fs: Features, list: seq<Feature>): (r: Features)
    ensures forall g :: r.Get(g) == (fs.Get(g) || g in list)
    decreases |list|
  {
    if list == [] then fs else UnlockEach(fs.Set(list[0], true), list[1..])
  }

  /** `purchaseBundle(bundle, list)`: the listed features become unlocked,
      the others keep their flag, and the bundle is recorded. Coins and the
      rest of the state are untouched. */
  function PurchaseBundle(s: UserState, bundle: Option<BundleId>, list: seq<Feature>): (r: UserState)
    ensures forall g :: r.features.Get(g) == (s.features.Get(g) || g in list)
    ensures r.purchasedBundle == bundle
    ensures r == s.(features := r.features, purchasedBundle := bundle)
  {
    s.(purchasedBundle := bundle, features := UnlockEach(s.features, list))
  }

  /** `unlockAllFeatures()`: every flag true. */
  function UnlockAllFeatures(s: UserState): (r: UserState)
    ensures forall g :: r.features.Get(g)
    ensures r == s.(features := r.features)
  {
    s.(features := EveryFeature)
  }

  /** `purchaseAllUpsells()`: every flag true, the same state as
      `unlockAllFeatures()`. */
  function PurchaseAllUpsells(s: UserState): (r: UserState)
    ensures forall g :: r.features.Get(g)
    ensures r == UnlockAllFeatures(s)
  {
    s.(features := EveryFeature)
  }

  /** `deductCoins(amount)`: succeeds exactly when the balance covers the
      amount; on success the balance drops by the amount and cannot go
      negative, on failure nothing changes. */
  function DeductCoins(s: UserState, amount: int): (r: (UserState, bool))
    ensures r.1 <==> s.coins >= amount
    ensures r.1 ==> r.0 == s.(coins := s.coins - amount) && r.0.coins >= 0
    ensures !r.1 ==> r.0 == s
  {
    if s.coins >= amount then (s.(coins := s.coins - amount), true) else (s, false)
  }

  /** `addCoins(amount)`. */
  function AddCoins(s: UserState, amount: int): (r: UserState)
    ensures r.coins - s.coins == amount
    ensures r == s.(coins := r.coins)
  {
    s.(coins := s.coins + amount)
  }

  /** `Partial<UnlockedFeatures>`: each flag may be absent. */
  datatype PartialFeatures = PartialFeatures(
    palmReading: Option<bool>, prediction2026: Option<bool>,
    birthChart: Option<bool>, compatibilityTest: Option<bool>) {

    function Get(f: Feature): Option<bool> {
      match f
      case PalmReading => palmReading
      case Prediction2026 => prediction2026
      case BirthChart => birthChart
      case CompatibilityTest => compatibilityTest
    }
  }

  /** The argument of `syncFromServer`: an optional nested flag object, the
      flat flags, a coin count (present when it is a number) and a bundle. */
  datatype ServerData = ServerData(
    nested: Option<PartialFeatures>,
    flat: PartialFeatures,
    coins: Option<int>,
    purchasedBundle: Option<BundleId>)

  /** `data.unlockedFeatures?.[f] ?? data[f] ?? false`. */
  function SyncedFlag(data: ServerData, f: Feature): bool {
    if data.nested.Some? && data.nested.value.Get(f).Some? then data.nested.value.Get(f).value
    else data.flat.Get(f).GetOr(false)
  }

  /** `syncFromServer(data)`: every flag is replaced by the server's (nested
      first, then flat, else false); coins only when given; the bundle only
      when given; nothing else changes. */
  function SyncFromServer(s: UserState, data: ServerData): (r: UserState)
    ensures forall f :: r.features.Get(f) == SyncedFlag(data, f)
    ensures r.coins == if data.coins.Some? then data.coins.value else s.coins
    ensures r.purchasedBundle == if data.purchasedBundle.Some? then data.purchasedBundle else s.purchasedBundle
    ensures r.userId == s.userId && r.birthChartGenerating == s.birthChartGenerating
    ensures r.birthChartReady == s.birthChartReady
  {
    var features := Features(
      SyncedFlag(data, PalmReading), SyncedFlag(data, Prediction2026),
      SyncedFlag(data, BirthChart), SyncedFlag(data, CompatibilityTest));
    var s1 := s.(features := features);
    var s2 := if data.coins.Some? then s1.(coins := data.coins.value) else s1;
    if data.purchasedBundle.Some? then s2.(purchasedBundle := data.purchasedBundle) else s2
  }

  /** `resetUserState()`: back to the initial state, whatever came before. */
  function ResetUserState(s: UserState): (r: UserState)
    ensures forall f :: !r.features.Get(f)
    ensures r.coins == 0 && r.purchasedBundle.None? && r.userId.None?
    ensures !r.birthChartGenerating && !r.birthChartReady
  {
    Initial
  }

  // ---------------------------------------------------------------------------
  // Properties relating several actions

  /** Every purchase action keeps what was already unlocked. */
  lemma PurchasesAreMonotone(s: UserState, f: Feature, b: Option<BundleId>, list: seq<Feature>)
    ensures Covers(s.features, UnlockFeature(s, f).features)
    ensures Covers(s.features, PurchaseUpsell(s, f).features)
    ensures Covers(s.features, PurchaseBundle(s, b, list).features)
    ensures Covers(s.features, UnlockAllFeatures(s).features)
    ensures Covers(s.features, PurchaseAllUpsells(s).features)
  {
  }

  /** Unlocking is idempotent: a second unlock of the same feature, or a
      second purchase of the same bundle, changes nothing. */
  lemma UnlockIdempotent(s: UserState, f: Feature, b: Option<BundleId>, list: seq<Feature>)
    ensures UnlockFeature(UnlockFeature(s, f), f) == UnlockFeature(s, f)
    ensures PurchaseBundle(PurchaseBundle(s, b, list), b, list) == PurchaseBundle(s, b, list)
  {
    FeaturesExtensional(UnlockFeature(UnlockFeature(s, f), f).features, UnlockFeature(s, f).features);
    FeaturesExtensional(PurchaseBundle(PurchaseBundle(s, b, list), b, list).features,
                        PurchaseBundle(s, b, list).features);
  }

  /** Buying a bundle that lists all four features leaves the same flags as
      `unlockAllFeatures`. */
  lemma FullBundleUnlocksAll(s: UserState, b: Option<BundleId>)
    ensures PurchaseBundle(s, b, AllFeatures).features == UnlockAllFeatures(s).features
  {
    var r := PurchaseBundle(s, b, AllFeatures);
    assert forall g: Feature :: g in AllFeatures by {
      assert AllFeatures[0] == PalmReading && AllFeatures[1] == Prediction2026;
      assert AllFeatures[2] == BirthChart && AllFeatures[3] == CompatibilityTest;
    }
    FeaturesExtensional(r.features, EveryFeature);
  }

  /** Adding coins and deducting the same amount is a round trip, as long as
      the balance was not negative to begin with. */
  lemma AddThenDeduct(s: UserState, amount: int)
    requires s.coins >= 0
    ensures DeductCoins(AddCoins(s, amount), amount) == (s, true)
  {
  }

  /** A run of deductions never takes a non-negative balance below zero. */
  lemma {:induction false} DeductionsNeverOverdraw(s: UserState, amounts: seq<int>)
    requires s.coins >= 0
    ensures DeductAll(s, amounts).coins >= 0
    decreases |amounts|
  {
    if amounts != [] {
      DeductionsNeverOverdraw(DeductCoins(s, amounts[0]).0, amounts[1..]);
    }
  }

  /** The state after attempting each deduction in turn. */
  function DeductAll(s: UserState, amounts: seq<int>): UserState
    decreases |amounts|
  {
    if amounts == [] then s else DeductAll(DeductCoins(s, amounts[0]).0, amounts[1..])
  }

  /** Syncing is not monotone: the server's flags replace the local ones, so
      a feature unlocked locally is dropped by a sync that omits it. */
  lemma SyncCanRelock(s: UserState)
    requires s.features.Get(PalmReading)
    ensures var none := PartialFeatures(None, None, None, None);
            !SyncFromServer(s, ServerData(None, none, None, None)).features.Get(PalmReading)
  {
  }

  /** Syncing the same data twice is syncing it once. */
  lemma SyncIdempotent(s: UserState, data: ServerData)
    ensures SyncFromServer(SyncFromServer(s, data), data) == SyncFromServer(s, data)
  {
  }

  /** A reset erases every earlier action: whatever state it is applied to,
      the result is the same. */
  lemma ResetForgetsHistory(s: UserState, t: UserState)
    ensures ResetUserState(s) == ResetUserState(t) == Initial
  {
  }
}
