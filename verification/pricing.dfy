/** The pricing configuration of src/lib/pricing.ts: the four plan record
    types, the `DEFAULT_PRICING` data (prices in whole rupees) and the
    `get*ById` lookups, which are `Array.find` on the id. */
module Pricing {
  import opened Common
  import opened UserStore
  import Fulfilment

  datatype BundlePlan = BundlePlan(
    id: string, name: string, price: int, originalPrice: int, discount: string,
    description: string, features: seq<string>, featureList: seq<string>,
    popular: Option<bool>, limitedOffer: Option<bool>, active: bool)

  datatype UpsellPlan = UpsellPlan(
    id: string, name: string, price: int, originalPrice: int, discount: string,
    description: string, feature: string, active: bool)

  datatype ReportPlan = ReportPlan(
    id: string, name: string, price: int, originalPrice: int, feature: string, active: bool)

  datatype CoinPackage = CoinPackage(id: string, coins: int, price: int, originalPrice: int, active: bool)

  datatype PricingConfig = PricingConfig(
    bundles: seq<BundlePlan>, upsells: seq<UpsellPlan>,
    reports: seq<ReportPlan>, coinPackages: seq<CoinPackage>)

  const DefaultPricing := PricingConfig(
    [ BundlePlan("palm-reading", "Palm Reading", 559, 699, "20% OFF",
        "Personalized palm reading report delivered instantly.",
        ["palmReading"],
        ["Complete palm line analysis", "Life, heart, head line insights", "Personality traits revealed"],
        Some(false), Some(false), true),
      BundlePlan("palm-birth", "Palm + Birth Chart", 839, 1199, "30% OFF",
        "Deep palm insights plus your full zodiac reading.",
        ["palmReading", "birthChart"],
        ["Everything in Palm Reading", "Complete birth chart analysis", "Planetary positions & houses"],
        Some(true), Some(false), true),
      BundlePlan("palm-birth-compat", "Palm + Birth Chart + Compatibility Report", 1599, 3199, "50% OFF",
        "Complete cosmic package with all reports included.",
        ["palmReading", "birthChart", "compatibilityTest"],
        ["Everything in Palm + Birth Chart", "Full compatibility analysis", "Partner matching report"],
        Some(false), Some(true), true) ],
    [ UpsellPlan("2026-predictions", "2026 Future Predictions", 499, 999, "50% OFF",
        "Detailed predictions for your 2026 journey.", "prediction2026", true) ],
    [ ReportPlan("report-2026", "2026 Future Predictions", 582, 999, "prediction2026", true),
      ReportPlan("report-birth-chart", "Birth Chart Report", 582, 999, "birthChart", true),
      ReportPlan("report-compatibility", "Compatibility Report", 582, 999, "compatibilityTest", true) ],
    [ CoinPackage("coins-50", 50, 416, 500, true),
      CoinPackage("coins-150", 150, 1082, 1500, true),
      CoinPackage("coins-300", 300, 1666, 2500, true),
      CoinPackage("coins-500", 500, 2499, 3500, true) ])

  // ---------------------------------------------------------------------------
  // Lookup

  /** Position of the first element whose id is `id`, or `|xs|` when there is
      none: the search `Array.find` performs. */
  function FirstWithId<T>(xs: seq<T>, idOf: T -> string, id: string): (i: nat)
    ensures i <= |xs|
    ensures forall j :: 0 <= j < i ==> idOf(xs[j]) != id
    ensures i < |xs| ==> idOf(xs[i]) == id
    decreases |xs|
  {
    if xs == [] then 0
    else if idOf(xs[0]) == id then 0
    else 1 + FirstWithId(xs[1..], idOf, id)
  }

  /** `xs.find(x => x.id === id)`: the first element with that id, or
      nothing when no element has it. */
  function FindById<T>(xs: seq<T>, idOf: T -> string, id: string): (r: Option<T>)
    ensures r.None? <==> forall j :: 0 <= j < |xs| ==> idOf(xs[j]) != id
    ensures r.Some? ==> idOf(r.value) == id
    ensures r.Some? ==> exists i :: 0 <= i < |xs| && xs[i] == r.value && forall j :: 0 <= j < i ==> idOf(xs[j]) != id
  {
    var i := FirstWithId(xs, idOf, id);
    if i < |xs| then Some(xs[i]) else None
  }

  function BundleId(b: BundlePlan): string { b.id }
  function UpsellId(u: UpsellPlan): string { u.id }
  function ReportId(r: ReportPlan): string { r.id }
  function CoinPackageId(c: CoinPackage): string { c.id }

  /** `getBundleById`. */
  function GetBundleById(p: PricingConfig, id: string): (r: Option<BundlePlan>)
    ensures r.Some? ==> r.value.id == id && r.value in p.bundles
    ensures r.None? <==> forall b :: b in p.bundles ==> b.id != id
    ensures r.Some? ==> exists i :: 0 <= i < |p.bundles| && p.bundles[i] == r.value && forall j :: 0 <= j < i ==> p.bundles[j].id != id
  {
    FindById(p.bundles, BundleId, id)
  }

  /** `getUpsellById`. */
  function GetUpsellById(p: PricingConfig, id: string): (r: Option<UpsellPlan>)
    ensures r.Some? ==> r.value.id == id && r.value in p.upsells
    ensures r.None? <==> forall u :: u in p.upsells ==> u.id != id
    ensures r.Some? ==> exists i :: 0 <= i < |p.upsells| && p.upsells[i] == r.value && forall j :: 0 <= j < i ==> p.upsells[j].id != id
  {
    FindById(p.upsells, UpsellId, id)
  }

  /** `getReportById`. */
  function GetReportById(p: PricingConfig, id: string): (r: Option<ReportPlan>)
    ensures r.Some? ==> r.value.id == id && r.value in p.reports
    ensures r.None? <==> forall x :: x in p.reports ==> x.id != id
    ensures r.Some? ==> exists i :: 0 <= i < |p.reports| && p.reports[i] == r.value && forall j :: 0 <= j < i ==> p.reports[j].id != id
  {
    FindById(p.reports, ReportId, id)
  }

  /** `getCoinPackageById`. */
  function GetCoinPackageById(p: PricingConfig, id: string): (r: Option<CoinPackage>)
    ensures r.Some? ==> r.value.id == id && r.value in p.coinPackages
    ensures r.None? <==> forall c :: c in p.coinPackages ==> c.id != id
    ensures r.Some? ==> exists i :: 0 <= i < |p.coinPackages| && p.coinPackages[i] == r.value && forall j :: 0 <= j < i ==> p.coinPackages[j].id != id
  {
    FindById(p.coinPackages, CoinPackageId, id)
  }

  /** With unique ids, the lookup of an element's id returns that element. */
  lemma FindUnique<T>(xs: seq<T>, idOf: T -> string, k: nat)
    requires k < |xs|
    requires forall i, j :: 0 <= i < j < |xs| ==> idOf(xs[i]) != idOf(xs[j])
    ensures FindById(xs, idOf, idOf(xs[k])) == Some(xs[k])
  {
  }

  // ---------------------------------------------------------------------------
  // Facts about the default configuration

  predicate UniqueIds<T>(xs: seq<T>, idOf: T -> string) {
    forall i, j :: 0 <= i < j < |xs| ==> idOf(xs[i]) != idOf(xs[j])
  }

  /** Within each collection of the defaults no id repeats, so every lookup
      of a listed id finds exactly that item. */
  lemma DefaultIdsUnique()
    ensures UniqueIds(DefaultPricing.bundles, BundleId)
    ensures UniqueIds(DefaultPricing.upsells, UpsellId)
    ensures UniqueIds(DefaultPricing.reports, ReportId)
    ensures UniqueIds(DefaultPricing.coinPackages, CoinPackageId)
  {
    var b := DefaultPricing.bundles;
    assert |b[0].id| != |b[1].id| && |b[1].id| != |b[2].id| && |b[0].id| != |b[2].id|;
    var r := DefaultPricing.reports;
    assert |r[0].id| != |r[1].id| && |r[1].id| != |r[2].id| && |r[0].id| != |r[2].id|;
    var c := DefaultPricing.coinPackages;
    assert c[0].id[6] == '5' && c[1].id[6] == '1' && c[2].id[6] == '3' && c[3].id[6] == '5';
    assert |c[0].id| != |c[3].id|;
  }

  /** Every default item is sold below its original price. */
  lemma DefaultPricesDiscounted()
    ensures forall b :: b in DefaultPricing.bundles ==> 0 < b.price < b.originalPrice
    ensures forall u :: u in DefaultPricing.upsells ==> 0 < u.price < u.originalPrice
    ensures forall r :: r in DefaultPricing.reports ==> 0 < r.price < r.originalPrice
    ensures forall c :: c in DefaultPricing.coinPackages ==> 0 < c.price < c.originalPrice
  {
  }

  /** The default bundles' feature lists are the fulfilment map's, and each
      tier's list extends the one below it. */
  lemma BundleTiersNest()
    ensures forall b :: b in DefaultPricing.bundles ==> b.features == Fulfilment.BundleFeatures(b.id)
    ensures var b := DefaultPricing.bundles;
            && b[0].features <= b[1].features && b[1].features <= b[2].features
  {
    var b := DefaultPricing.bundles;
    assert Fulfilment.BundleFeatures(b[0].id) == b[0].features;
    assert Fulfilment.BundleFeatures(b[1].id) == b[1].features;
    assert Fulfilment.BundleFeatures(b[2].id) == b[2].features;
  }

  /** Every feature key the defaults mention is one of the four keys of
      `UnlockedFeatures`. */
  lemma DefaultFeatureKeysKnown()
    ensures forall b, k :: b in DefaultPricing.bundles && k in b.features ==> FeatureNamed(k).Some?
    ensures forall u :: u in DefaultPricing.upsells ==> FeatureNamed(u.feature).Some?
    ensures forall r :: r in DefaultPricing.reports ==> FeatureNamed(r.feature).Some?
  {
  }
}
