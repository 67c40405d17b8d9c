/** The visitor-facing A/B endpoint of src/app/api/ab-test/route.ts: GET
    returns the visitor's variant (sticky once assigned, weighted-random
    otherwise) and the page to show; POST updates a test's configuration.
    `Math.random()` is the parameter `u`, a real in [0, 1). */
module AbAssign {
  import opened Common
  import opened AbStore

  /** The assignment loop: subtract each weight from the draw and stop at the
      first entry that brings it to zero or below. The index of that entry,
      or `|vs|` when the loop runs out. */
  function ChooseIndex(vs: seq<VariantSpec>, rest: real): (i: nat)
    ensures i <= |vs|
  {
    if vs == [] then 0
    else if rest - WeightOf(vs[0]) as real <= 0.0 then 0
    else 1 + ChooseIndex(vs[1..], rest - WeightOf(vs[0]) as real)
  }

  /** The loop picks the first entry whose running weight reaches the draw:
      the draw is within the prefix ending at the chosen entry and beyond
      every shorter prefix; when nothing is chosen it is beyond them all. */
  lemma {:induction false} ChoiceIsFirstCovering(vs: seq<VariantSpec>, r: real)
    ensures var i := ChooseIndex(vs, r);
            && (i < |vs| ==> r <= Prefix(vs, i + 1) as real)
            && (forall j :: 1 <= j <= i ==> r > Prefix(vs, j) as real)
  {
    if vs != [] {
      var w := WeightOf(vs[0]) as real;
      if r - w > 0.0 {
        ChoiceIsFirstCovering(vs[1..], r - w);
        var i := ChooseIndex(vs, r);
        if i < |vs| {
          PrefixTail(vs, i);
        }
        forall j | 1 <= j <= i
          ensures r > Prefix(vs, j) as real
        {
          PrefixTail(vs, j - 1);
          if j > 1 {
            assert r - w > Prefix(vs[1..], j - 1) as real;
          }
        }
      }
    }
  }

  /** When the draw does not exceed the total, some entry is chosen. */
  lemma DrawWithinTotalChooses(vs: seq<VariantSpec>, r: real)
    requires vs != [] && r <= TotalWeight(vs) as real
    ensures ChooseIndex(vs, r) < |vs|
  {
    ChoiceIsFirstCovering(vs, r);
  }

  /** `Math.random() * totalWeight`. */
  function DrawPoint(vs: seq<VariantSpec>, u: real): real {
    u * (TotalWeight(vs) as real)
  }

  /** The variant the weighted draw assigns: `Math.random() * total` run
      through the loop, "A" when the loop picks nothing. */
  function Draw(vs: seq<VariantSpec>, u: real): (v: string)
    ensures v == "A" || exists i :: 0 <= i < |vs| && vs[i].key == v
  {
    var i := ChooseIndex(vs, DrawPoint(vs, u));
    if i < |vs| then vs[i].key else "A"
  }

  /** For a non-empty variants list with no negative weight, the assigned
      variant is always one of its keys. */
  lemma DrawPicksAKey(vs: seq<VariantSpec>, u: real)
    requires vs != [] && 0.0 <= u < 1.0
    requires forall i :: 0 <= i < |vs| ==> WeightOf(vs[i]) >= 0
    ensures exists i :: 0 <= i < |vs| && vs[i].key == Draw(vs, u)
  {
    var r := DrawPoint(vs, u);
    PrefixMonotone(vs, 0, |vs|);
    DrawPointWithinTotal(vs, u);
    DrawWithinTotalChooses(vs, r);
    var i := ChooseIndex(vs, r);
    assert Draw(vs, u) == vs[i].key;
  }

  /** A draw in [0, 1) scaled by a non-negative total stays within it. */
  lemma DrawPointWithinTotal(vs: seq<VariantSpec>, u: real)
    requires 0.0 <= u < 1.0 && 0 <= TotalWeight(vs)
    ensures DrawPoint(vs, u) <= TotalWeight(vs) as real
  {
    var t := TotalWeight(vs) as real;
    assert DrawPoint(vs, u) == u * t;
    ScaledBelow(u, t);
  }

  /** Scaling by a factor below one does not grow a non-negative value. */
  lemma ScaledBelow(u: real, t: real)
    requires 0.0 <= u < 1.0 && 0.0 <= t
    ensures u * t <= t
  {
    var d := 1.0 - u;
    assert 0.0 < d;
    assert 0.0 <= d * t;
    assert t - u * t == d * t;
  }

  /** The test inserted on the first request for an unknown id. */
  function DefaultTest(now: int): AbTest {
    AbTest(Some("Pricing Page A/B Test"), Some("active"), Some(DefaultVariants), Some(now), Some(now), None)
  }

  /** The GET answer. */
  datatype Answer = Answer(testId: string, variant: string, page: string, cached: bool)

  /** The test id a request addresses: `testId || "pricing-test-1"`. */
  function TestIdOf(param: Option<string>): string {
    if Truthy(param) then param.value else "pricing-test-1"
  }

  /** The GET handler: the answer and the tables after it. */
  function Assign(db: AbDb, testIdParam: Option<string>, visitorId: Option<string>, u: real, now: int): (r: (Answer, AbDb))
    ensures r.0.testId == TestIdOf(testIdParam)
    ensures r.0.page == PageOf(r.0.variant)
    ensures var id := TestIdOf(testIdParam);
            id in db.tests && db.tests[id].status != Some("active") ==>
              r == (Answer(id, "A", "step-17", false), db)
    ensures !Truthy(visitorId) ==> r.1.assignments == db.assignments
    ensures r.1.stats == db.stats && r.1.events == db.events
  {
    var testId := TestIdOf(testIdParam);
    if testId !in db.tests then
      var v := if u < 0.5 then "A" else "B";
      (Answer(testId, v, PageOf(v), false), db.(tests := db.tests[testId := DefaultTest(now)]))
    else
      var test := db.tests[testId];
      if test.status != Some("active") then (Answer(testId, "A", "step-17", false), db)
      else if Truthy(visitorId) && JoinId(testId, visitorId.value) in db.assignments then
        var v := db.assignments[JoinId(testId, visitorId.value)].variant;
        (Answer(testId, v, PageOf(v), true), db)
      else
        var v := Draw(test.variants.GetOr(DefaultVariants), u);
        var db' := if Truthy(visitorId)
                   then db.(assignments := db.assignments[JoinId(testId, visitorId.value) := Assignment(testId, visitorId.value, v, now)])
                   else db;
        (Answer(testId, v, PageOf(v), false), db')
  }

  /** A first request for an unknown test creates the default 50/50 test and
      serves a coin flip, without storing an assignment. */
  lemma UnknownTestCreatesDefault(db: AbDb, testIdParam: Option<string>, visitorId: Option<string>, u: real, now: int)
    requires TestIdOf(testIdParam) !in db.tests
    ensures var r := Assign(db, testIdParam, visitorId, u, now);
            && r.1.tests == db.tests[TestIdOf(testIdParam) := DefaultTest(now)]
            && r.1.assignments == db.assignments
            && r.0.variant == (if u < 0.5 then "A" else "B")
  {
  }

  /** A stored assignment wins: the answer is the stored variant, marked
      cached, whatever the draw and whatever the test's weights are now, and
      nothing is written. */
  lemma AssignmentIsSticky(db: AbDb, testIdParam: Option<string>, visitor: string, u1: real, u2: real, now1: int, now2: int,
                           weights: Option<seq<VariantSpec>>)
    requires visitor != ""
    requires var id := TestIdOf(testIdParam);
             id in db.tests && db.tests[id].status == Some("active") && JoinId(id, visitor) in db.assignments
    ensures var id := TestIdOf(testIdParam);
            var db2 := db.(tests := db.tests[id := db.tests[id].(variants := weights)]);
            var r1 := Assign(db, testIdParam, Some(visitor), u1, now1);
            var r2 := Assign(db2, testIdParam, Some(visitor), u2, now2);
            && r1.0 == r2.0
            && r1.0 == Answer(id, db.assignments[JoinId(id, visitor)].variant,
                              PageOf(db.assignments[JoinId(id, visitor)].variant), true)
            && r1.1 == db
  {
  }

  /** A fresh visitor of an active test is assigned the weighted draw, the
      assignment is stored under `testId_visitorId`, and the next request
      returns the same variant from the store. */
  lemma FirstAssignmentIsRemembered(db: AbDb, testIdParam: Option<string>, visitor: string, u1: real, u2: real, now1: int, now2: int)
    requires visitor != ""
    requires var id := TestIdOf(testIdParam);
             id in db.tests && db.tests[id].status == Some("active") && JoinId(id, visitor) !in db.assignments
    ensures var id := TestIdOf(testIdParam);
            var r1 := Assign(db, testIdParam, Some(visitor), u1, now1);
            var r2 := Assign(r1.1, testIdParam, Some(visitor), u2, now2);
            && r1.0.variant == Draw(db.tests[id].variants.GetOr(DefaultVariants), u1)
            && r1.1.assignments == db.assignments[JoinId(id, visitor) := Assignment(id, visitor, r1.0.variant, now1)]
            && r2.0 == r1.0.(cached := true)
            && r2.1 == r1.1
  {
  }

  /** An anonymous request (no visitor id) is never remembered. */
  lemma AnonymousNotStored(db: AbDb, testIdParam: Option<string>, u: real, now: int)
    ensures Assign(db, testIdParam, None, u, now).1.assignments == db.assignments
  {
  }

  /** The POST handler: the shared configuration update. */
  function Configure(tests: map<string, AbTest>, testId: Option<string>, variants: Option<seq<VariantSpec>>,
                     status: Option<string>, name: Option<string>, now: int): (r: (Outcome<AbTest>, map<string, AbTest>))
    ensures r == UpdateTest(tests, testId, variants, status, name, now)
    ensures r.0.Err? ==> r.1 == tests
  {
    UpdateTest(tests, testId, variants, status, name, now)
  }

  /** After a successful configuration every test that carries variants and
      was written by it weighs 100 in total, so a draw below 1 always lands
      on one of its keys when none is negative. */
  lemma ConfiguredWeightsSumTo100(tests: map<string, AbTest>, testId: Option<string>, variants: seq<VariantSpec>,
                                  status: Option<string>, name: Option<string>, now: int)
    requires Configure(tests, testId, Some(variants), status, name, now).0.Ok?
    ensures var t := Configure(tests, testId, Some(variants), status, name, now).0.body;
            t.variants == Some(variants) && TotalWeight(variants) == 100
  {
  }
}
