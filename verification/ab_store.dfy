/** The four A/B-testing tables, as values: test configurations by id,
    sticky visitor assignments by `testId_visitorId`, aggregated counters by
    `testId_variant`, and the raw event log in table order. Shared by
    src/app/api/ab-test/route.ts, src/app/api/ab-test/event/route.ts and
    src/app/api/admin/ab-tests/route.ts. */
module AbStore {
  import opened Common

  /** One entry of a test's `variants` object: its key, `weight` and `page`. */
  datatype VariantSpec = VariantSpec(key: string, weight: Option<int>, page: Option<string>)

  /** An `ab_tests` row. `variants` lists the object's entries in iteration
      order; `None` is a null column. */
  datatype AbTest = AbTest(
    name: Option<string>, status: Option<string>, variants: Option<seq<VariantSpec>>,
    createdAt: Option<int>, updatedAt: Option<int>, lastResetAt: Option<int>)

  /** An `ab_test_assignments` row. */
  datatype Assignment = Assignment(testId: string, visitorId: string, variant: string, assignedAt: int)

  /** An `ab_test_stats` row; counters may be null. */
  datatype Stats = Stats(
    testId: string, variant: string,
    impressions: Option<int>, conversions: Option<int>, bounces: Option<int>,
    checkoutsStarted: Option<int>, totalRevenue: Option<int>,
    createdAt: Option<string>, updatedAt: Option<string>)

  /** An `ab_test_events` row; of the metadata only `amount` is read back.
      `createdAt` is the ISO text the row was written with. */
  datatype Event = Event(
    testId: string, variant: string, eventType: string,
    visitorId: Option<string>, userId: Option<string>, amount: Option<int>, createdAt: Option<string>)

  datatype AbDb = AbDb(
    tests: map<string, AbTest>, assignments: map<string, Assignment>,
    stats: map<string, Stats>, events: seq<Event>)

  /** `{ A: { weight: 50, page: "step-17" }, B: { weight: 50, page: "a-step-17" } }`. */
  const DefaultVariants: seq<VariantSpec> :=
    [VariantSpec("A", Some(50), Some("step-17")), VariantSpec("B", Some(50), Some("a-step-17"))]

  /** `v.weight || 0`. */
  function WeightOf(v: VariantSpec): int {
    NumOrZero(v.weight)
  }

  /** The weight of the first `n` entries: the running sum of the
      assignment loop and of the `reduce` that totals the weights. */
  function Prefix(vs: seq<VariantSpec>, n: nat): int
    requires n <= |vs|
  {
    if n == 0 then 0 else Prefix(vs, n - 1) + WeightOf(vs[n - 1])
  }

  /** `Object.values(variants).reduce((sum, v) => sum + (v.weight || 0), 0)`. */
  function TotalWeight(vs: seq<VariantSpec>): int {
    Prefix(vs, |vs|)
  }

  /** Dropping the first entry moves every prefix down by its weight. */
  lemma {:induction false} PrefixTail(vs: seq<VariantSpec>, n: nat)
    requires 0 < |vs| && n < |vs|
    ensures Prefix(vs, n + 1) == WeightOf(vs[0]) + Prefix(vs[1..], n)
  {
    if n > 0 {
      PrefixTail(vs, n - 1);
      assert vs[1..][n - 1] == vs[n];
    }
  }

  /** With no negative weight the prefixes only grow. */
  lemma {:induction false} PrefixMonotone(vs: seq<VariantSpec>, m: nat, n: nat)
    requires m <= n <= |vs|
    requires forall i :: 0 <= i < |vs| ==> WeightOf(vs[i]) >= 0
    ensures Prefix(vs, m) <= Prefix(vs, n)
    decreases n - m
  {
    if m < n {
      PrefixMonotone(vs, m, n - 1);
    }
  }

  /** `${testId}_${suffix}`, the id of an assignment or a stats row. */
  function JoinId(testId: string, suffix: string): (id: string)
    ensures |id| == |testId| + 1 + |suffix|
    ensures id[..|testId|] == testId && id[|testId|] == '_' && id[|testId| + 1..] == suffix
  {
    var id := testId + "_" + suffix;
    assert id[..|testId|] == testId;
    id
  }

  /** The page served for a variant: A is the original page. */
  function PageOf(variant: string): (page: string)
    ensures page == "step-17" <==> variant == "A"
  {
    if variant == "A" then "step-17" else "a-step-17"
  }

  /** The row that an upsert of `{ id, updated_at, variants?, status?, name? }`
      leaves: each given column replaced, every other column kept (all null
      for a new id). */
  function UpsertConfig(prev: Option<AbTest>, variants: Option<seq<VariantSpec>>, status: Option<string>,
                        name: Option<string>, now: int): (t: AbTest)
    ensures t.updatedAt == Some(now)
    ensures t.variants == if variants.Some? then variants else if prev.Some? then prev.value.variants else None
    ensures t.status == if Truthy(status) then status else if prev.Some? then prev.value.status else None
    ensures t.name == if Truthy(name) then name else if prev.Some? then prev.value.name else None
    ensures prev.Some? ==> t.createdAt == prev.value.createdAt && t.lastResetAt == prev.value.lastResetAt
  {
    var base := prev.GetOr(AbTest(None, None, None, None, None, None));
    base.(variants := if variants.Some? then variants else base.variants,
          status := if Truthy(status) then status else base.status,
          name := if Truthy(name) then name else base.name,
          updatedAt := Some(now))
  }

  /** The shared update of both configuration endpoints: `testId` is
      required, given variants must weigh 100 in total, then the row is
      upserted and read back. */
  function UpdateTest(tests: map<string, AbTest>, testId: Option<string>, variants: Option<seq<VariantSpec>>,
                      status: Option<string>, name: Option<string>, now: int): (r: (Outcome<AbTest>, map<string, AbTest>))
    ensures !Truthy(testId) ==> r == (Err(400, "testId is required"), tests)
    ensures Truthy(testId) && variants.Some? && TotalWeight(variants.value) != 100 ==>
              r == (Err(400, "Variant weights must sum to 100"), tests)
    ensures r.0.Ok? <==> Truthy(testId) && (variants.Some? ==> TotalWeight(variants.value) == 100)
    ensures r.0.Ok? ==> r.1 == tests[testId.value := r.0.body]
    ensures r.0.Ok? && r.0.body.variants.Some? ==>
              variants.Some? || (testId.value in tests && tests[testId.value].variants == r.0.body.variants)
  {
    if !Truthy(testId) then (Err(400, "testId is required"), tests)
    else if variants.Some? && TotalWeight(variants.value) != 100 then (Err(400, "Variant weights must sum to 100"), tests)
    else
      var prev := if testId.value in tests then Some(tests[testId.value]) else None;
      var t := UpsertConfig(prev, variants, status, name, now);
      (Ok(t), tests[testId.value := t])
  }
}
