/** The admin A/B endpoint of src/app/api/admin/ab-tests/route.ts: GET shows
    a test with its counters and a per-day breakdown of its events (or the
    headline totals of every test), PUT resets a test's analytics or updates
    its configuration, POST creates a test and DELETE removes one. */
module AbAdmin {
  import opened Common
  import opened JsText
  import opened AbStore
  import AbEvent
  import AbAssign

  // ---------------------------------------------------------------------------
  // Daily breakdown

  /** One variant's activity on one day. */
  datatype DayTally = DayTally(impressions: nat, conversions: nat, bounces: nat, revenue: int)

  const NoActivity: DayTally := DayTally(0, 0, 0, 0)

  /** A row of the breakdown: a date and the activity of variants A and B. */
  datatype Day = Day(date: string, a: DayTally, b: DayTally)

  /** Counting one event: impressions, conversions (with `amount || 0` as
      revenue) and bounces; other types count nothing. */
  function AddTo(t: DayTally, e: Event): (u: DayTally)
    ensures u.impressions == t.impressions + (if e.eventType == "impression" then 1 else 0)
    ensures u.conversions == t.conversions + (if e.eventType == "conversion" then 1 else 0)
    ensures u.bounces == t.bounces + (if e.eventType == "bounce" then 1 else 0)
    ensures u.revenue == t.revenue + (if e.eventType == "conversion" then NumOrZero(e.amount) else 0)
  {
    if e.eventType == "impression" then t.(impressions := t.impressions + 1)
    else if e.eventType == "conversion" then t.(conversions := t.conversions + 1, revenue := t.revenue + NumOrZero(e.amount))
    else if e.eventType == "bounce" then t.(bounces := t.bounces + 1)
    else t
  }

  /** Counting one event in its day's row: only variants A and B count. */
  function Record(d: Day, e: Event): (r: Day)
    ensures r.date == d.date
    ensures r.a == if e.variant == "A" then AddTo(d.a, e) else d.a
    ensures r.b == if e.variant == "B" then AddTo(d.b, e) else d.b
  {
    if e.variant == "A" then d.(a := AddTo(d.a, e))
    else if e.variant == "B" then d.(b := AddTo(d.b, e))
    else d
  }

  /** Events without a creation time are skipped. */
  predicate Dated(e: Event) {
    Truthy(e.createdAt)
  }

  /** `created_at.split("T")[0]`. */
  function DateOf(e: Event): string
    requires Dated(e)
  {
    BeforeFirst(e.createdAt.value, 'T')
  }

  /** The position of a date's row, or `|days|` when there is none. */
  function IndexOfDate(days: seq<Day>, date: string): (i: nat)
    ensures i <= |days|
    ensures i < |days| ==> days[i].date == date
    ensures forall j :: 0 <= j < i ==> days[j].date != date
  {
    if days == [] then 0
    else if days[0].date == date then 0
    else 1 + IndexOfDate(days[1..], date)
  }

  /** The `forEach` that fills `dailyData`: rows in the order their date
      first occurs, a row created for every dated event whatever its
      variant. */
  function Collect(evs: seq<Event>): seq<Day> {
    if evs == [] then []
    else
      var days := Collect(evs[..|evs| - 1]);
      var e := evs[|evs| - 1];
      if !Dated(e) then days
      else
        var i := IndexOfDate(days, DateOf(e));
        if i < |days| then days[i := Record(days[i], e)]
        else days + [Record(Day(DateOf(e), NoActivity, NoActivity), e)]
  }

  /** Reference definition: a date's row counted directly from the log. */
  function DayOf(evs: seq<Event>, date: string): Day {
    if evs == [] then Day(date, NoActivity, NoActivity)
    else
      var d := DayOf(evs[..|evs| - 1], date);
      var e := evs[|evs| - 1];
      if Dated(e) && DateOf(e) == date then Record(d, e) else d
  }

  /** Reference definition: the dates of the dated events. */
  function DatesOf(evs: seq<Event>): set<string> {
    if evs == [] then {}
    else
      var e := evs[|evs| - 1];
      DatesOf(evs[..|evs| - 1]) + (if Dated(e) then {DateOf(e)} else {})
  }

  /** A date with no event has the empty row. */
  lemma {:induction false} UnseenDateIsEmpty(evs: seq<Event>, date: string)
    requires date !in DatesOf(evs)
    ensures DayOf(evs, date) == Day(date, NoActivity, NoActivity)
  {
    if evs != [] {
      UnseenDateIsEmpty(evs[..|evs| - 1], date);
    }
  }

  /** No date occurs twice in a list of rows. */
  predicate DistinctDates(days: seq<Day>) {
    forall i, j :: 0 <= i < j < |days| ==> days[i].date != days[j].date
  }

  function DatesIn(days: seq<Day>): set<string> {
    set d | d in days :: d.date
  }

  /** Rows with the same dates position by position hold the same dates. */
  lemma SameDates(days: seq<Day>, out: seq<Day>)
    requires |out| == |days| && forall k :: 0 <= k < |out| ==> out[k].date == days[k].date
    ensures DatesIn(out) == DatesIn(days)
  {
    forall x | x in DatesIn(days) ensures x in DatesIn(out) {
      var k :| 0 <= k < |days| && days[k].date == x;
      assert out[k] in out;
    }
    forall x | x in DatesIn(out) ensures x in DatesIn(days) {
      var k :| 0 <= k < |out| && out[k].date == x;
      assert days[k] in days;
    }
  }

  /** Appending a row adds its date. */
  lemma AddedDate(days: seq<Day>, row: Day)
    ensures DatesIn(days + [row]) == DatesIn(days) + {row.date}
  {
    var out := days + [row];
    forall x | x in DatesIn(out) ensures x in DatesIn(days) + {row.date} {
      var k :| 0 <= k < |out| && out[k].date == x;
      if k < |days| {
        assert days[k] in days;
      }
    }
    assert row in out;
    forall x | x in DatesIn(days) ensures x in DatesIn(out) {
      var k :| 0 <= k < |days| && days[k].date == x;
      assert out[k] in out;
    }
  }

  /** The collected rows are exactly the reference rows: one per date that
      occurs, each with the counts of that date's events. */
  lemma {:induction false} CollectIsReference(evs: seq<Event>)
    ensures var days := Collect(evs);
            && DistinctDates(days)
            && DatesIn(days) == DatesOf(evs)
            && forall i :: 0 <= i < |days| ==> days[i] == DayOf(evs, days[i].date)
  {
    if evs != [] {
      var pre := evs[..|evs| - 1];
      var e := evs[|evs| - 1];
      CollectIsReference(pre);
      var days := Collect(pre);
      if Dated(e) {
        var date := DateOf(e);
        var i := IndexOfDate(days, date);
        var out := Collect(evs);
        if i < |days| {
          assert out == days[i := Record(days[i], e)];
          forall k | 0 <= k < |out| ensures out[k] == DayOf(evs, out[k].date) {
            if k != i {
              assert out[k] == days[k];
            }
          }
          SameDates(days, out);
        } else {
          assert date !in DatesOf(pre);
          UnseenDateIsEmpty(pre, date);
          var newRow := Record(Day(date, NoActivity, NoActivity), e);
          assert out == days + [newRow];
          forall k | 0 <= k < |out| ensures out[k] == DayOf(evs, out[k].date) {
            if k < |days| {
              assert out[k] == days[k];
            }
          }
          AddedDate(days, newRow);
        }
      }
    }
  }

  /** Rows in strictly ascending date order. */
  predicate SortedByDate(days: seq<Day>) {
    forall i, j :: 0 <= i < j < |days| ==> StrLess(days[i].date, days[j].date)
  }

  /** A row dated before the head of a sorted list may go in front. */
  lemma PrependSorted(sorted: seq<Day>, d: Day)
    requires SortedByDate(sorted) && sorted != [] && StrLess(d.date, sorted[0].date)
    ensures SortedByDate([d] + sorted)
  {
    forall j | 0 < j < |sorted| ensures StrLess(d.date, sorted[j].date) {
      StrLessTransitive(d.date, sorted[0].date, sorted[j].date);
    }
  }

  /** The head of a sorted list goes in front of any sorted arrangement of
      its tail and a later row. */
  lemma HeadBeforeRest(sorted: seq<Day>, d: Day, rest: seq<Day>)
    requires SortedByDate(sorted) && sorted != [] && StrLess(sorted[0].date, d.date)
    requires SortedByDate(rest) && multiset(rest) == multiset(sorted[1..]) + multiset{d}
    ensures SortedByDate([sorted[0]] + rest)
  {
    forall j | 0 <= j < |rest| ensures StrLess(sorted[0].date, rest[j].date) {
      assert rest[j] in multiset(rest);
      if rest[j] != d {
        assert rest[j] in multiset(sorted[1..]);
        var k :| 0 <= k < |sorted[1..]| && sorted[1..][k] == rest[j];
        assert sorted[k + 1] == rest[j];
      }
    }
  }

  /** Dropping the head keeps a date set within the original. */
  lemma TailDates(sorted: seq<Day>)
    requires sorted != []
    ensures DatesIn(sorted[1..]) <= DatesIn(sorted)
  {
    forall x | x in DatesIn(sorted[1..]) ensures x in DatesIn(sorted) {
      var y :| y in sorted[1..] && y.date == x;
      assert y in sorted;
    }
  }

  /** Placing one row, whose date is new, into a sorted list. */
  function Insert(sorted: seq<Day>, d: Day): (r: seq<Day>)
    requires SortedByDate(sorted) && d.date !in DatesIn(sorted)
    ensures SortedByDate(r)
    ensures multiset(r) == multiset(sorted) + multiset{d}
  {
    if sorted == [] then [d]
    else if StrLess(d.date, sorted[0].date) then
      PrependSorted(sorted, d);
      [d] + sorted
    else
      assert sorted[0] in sorted;
      StrLessTotal(d.date, sorted[0].date);
      TailDates(sorted);
      var rest := Insert(sorted[1..], d);
      assert sorted == [sorted[0]] + sorted[1..];
      HeadBeforeRest(sorted, d, rest);
      [sorted[0]] + rest
  }

  /** The last of rows with distinct dates has a date that no arrangement
      of the others holds. */
  lemma LastDateIsNew(days: seq<Day>, s: seq<Day>)
    requires DistinctDates(days) && days != [] && multiset(s) == multiset(days[..|days| - 1])
    ensures days[|days| - 1].date !in DatesIn(s)
  {
    if days[|days| - 1].date in DatesIn(s) {
      var y :| y in s && y.date == days[|days| - 1].date;
      LastDateIsNewWitness(days, s, y);
      assert false;
    }
  }

  /** A row of an arrangement of all but the last row is one of them, so
      its date differs from the last one's. */
  lemma LastDateIsNewWitness(days: seq<Day>, s: seq<Day>, y: Day)
    requires DistinctDates(days) && days != [] && multiset(s) == multiset(days[..|days| - 1]) && y in s
    ensures y.date != days[|days| - 1].date
  {
    var pre := days[..|days| - 1];
    assert y in multiset(pre);
    var k :| 0 <= k < |pre| && pre[k] == y;
    assert days[k] == y;
  }

  /** `.sort((a, b) => a.date.localeCompare(b.date))` on rows with distinct
      dates: an insertion sort. */
  function SortDays(days: seq<Day>): (r: seq<Day>)
    requires DistinctDates(days)
    ensures SortedByDate(r)
    ensures multiset(r) == multiset(days)
  {
    if days == [] then []
    else
      var pre := days[..|days| - 1];
      var s := SortDays(pre);
      LastDateIsNew(days, s);
      assert days == pre + [days[|days| - 1]];
      Insert(s, days[|days| - 1])
  }

  /** The events the breakdown reads: the first 50 rows of the test. */
  function ScopeEvents(evs: seq<Event>, testId: string): (r: seq<Event>)
    ensures |r| <= 50
    ensures forall i :: 0 <= i < |r| ==> r[i].testId == testId
  {
    var all := OfTest(evs, testId);
    if |all| <= 50 then all else all[..50]
  }

  /** The rows of a test, in table order. */
  function OfTest(evs: seq<Event>, testId: string): (r: seq<Event>)
    ensures forall i :: 0 <= i < |r| ==> r[i].testId == testId
    ensures |r| <= |evs|
  {
    if evs == [] then []
    else OfTest(evs[..|evs| - 1], testId) + (if evs[|evs| - 1].testId == testId then [evs[|evs| - 1]] else [])
  }

  /** `dailyBreakdown`. */
  function Breakdown(evs: seq<Event>, testId: string): seq<Day> {
    var days := Collect(ScopeEvents(evs, testId));
    CollectIsReference(ScopeEvents(evs, testId));
    SortDays(days)
  }

  /** The breakdown lists each date of the test's (first 50) dated events
      once, in ascending order, with that date's counts. */
  lemma BreakdownIsReference(evs: seq<Event>, testId: string)
    ensures var scope := ScopeEvents(evs, testId);
            var r := Breakdown(evs, testId);
            && SortedByDate(r)
            && DatesIn(r) == DatesOf(scope)
            && forall i :: 0 <= i < |r| ==> r[i] == DayOf(scope, r[i].date)
  {
    var scope := ScopeEvents(evs, testId);
    CollectIsReference(scope);
    var days := Collect(scope);
    var r := Breakdown(evs, testId);
    forall i | 0 <= i < |r| ensures r[i] in days && r[i] == DayOf(scope, r[i].date) {
      assert r[i] in multiset(r);
    }
    forall x | x in DatesIn(r) ensures x in DatesIn(days) {
      var y :| y in r && y.date == x;
      assert y in multiset(days);
    }
    forall x | x in DatesIn(days) ensures x in DatesIn(r) {
      var y :| y in days && y.date == x;
      assert y in multiset(r);
    }
  }

  // ---------------------------------------------------------------------------
  // Counters

  /** The integer part of `calculateRates`: each counter `|| 0`. */
  datatype Counters = Counters(impressions: int, conversions: int, bounces: int, checkoutsStarted: int, totalRevenue: int)

  function CountersOf(stats: map<string, Stats>, id: string): (c: Counters)
    ensures id !in stats ==> c == Counters(0, 0, 0, 0, 0)
  {
    if id !in stats then Counters(0, 0, 0, 0, 0)
    else
      var s := stats[id];
      Counters(NumOrZero(s.impressions), NumOrZero(s.conversions), NumOrZero(s.bounces),
               NumOrZero(s.checkoutsStarted), NumOrZero(s.totalRevenue))
  }

  /** The detail view of one test (the rates are left out). */
  datatype Detail = Detail(test: AbTest, a: Counters, b: Counters, daily: seq<Day>, recent: seq<Event>)

  /** The GET handler with a truthy `testId`: a missing test shows as the
      default one. */
  function ShowTest(db: AbDb, testId: string, now: int): (r: Detail)
    ensures r.test == if testId in db.tests then db.tests[testId] else AbAssign.DefaultTest(now)
    ensures r.recent == ScopeEvents(db.events, testId)
    ensures r.a == CountersOf(db.stats, JoinId(testId, "A")) && r.b == CountersOf(db.stats, JoinId(testId, "B"))
  {
    Detail(if testId in db.tests then db.tests[testId] else AbAssign.DefaultTest(now),
           CountersOf(db.stats, JoinId(testId, "A")), CountersOf(db.stats, JoinId(testId, "B")),
           Breakdown(db.events, testId), ScopeEvents(db.events, testId))
  }

  /** The headline totals of the listing. */
  datatype QuickStats = QuickStats(totalImpressions: int, totalConversions: int)

  /** One test's entry in the GET listing (the rates are left out). */
  function Quick(db: AbDb, testId: string): (q: QuickStats)
    ensures q.totalImpressions == CountersOf(db.stats, JoinId(testId, "A")).impressions
                                  + CountersOf(db.stats, JoinId(testId, "B")).impressions
    ensures q.totalConversions == CountersOf(db.stats, JoinId(testId, "A")).conversions
                                  + CountersOf(db.stats, JoinId(testId, "B")).conversions
  {
    var a := CountersOf(db.stats, JoinId(testId, "A"));
    var b := CountersOf(db.stats, JoinId(testId, "B"));
    QuickStats(a.impressions + b.impressions, a.conversions + b.conversions)
  }

  /** The stats row under a variant's id is that variant's own. */
  predicate OwnRow(db: AbDb, testId: string, variant: string) {
    var id := JoinId(testId, variant);
    id in db.stats ==> db.stats[id].testId == testId && db.stats[id].variant == variant
  }

  /** What a variant's counters must be by the log: its per-type event
      counts and its conversions' revenue. */
  function LoggedCounters(evs: seq<Event>, testId: string, variant: string): Counters {
    Counters(AbEvent.Tally(evs, testId, variant, "impression"), AbEvent.Tally(evs, testId, variant, "conversion"),
             AbEvent.Tally(evs, testId, variant, "bounce"), AbEvent.Tally(evs, testId, variant, "checkout_started"),
             AbEvent.Revenue(evs, testId, variant))
  }

  /** A row that agrees with the log holds its pair's logged counters. */
  lemma RowCounters(stats: map<string, Stats>, id: string, evs: seq<Event>)
    requires id in stats && AbEvent.Reflects(stats[id], evs)
    ensures CountersOf(stats, id) == LoggedCounters(evs, stats[id].testId, stats[id].variant)
  {
  }

  /** A pair with nothing logged has all-zero logged counters. */
  lemma NothingLogged(evs: seq<Event>, testId: string, variant: string)
    requires forall t :: AbEvent.Tally(evs, testId, variant, t) == 0
    requires AbEvent.Revenue(evs, testId, variant) == 0
    ensures LoggedCounters(evs, testId, variant) == Counters(0, 0, 0, 0, 0)
  {
  }

  /** A variant's counters, when the stats agree with the log, are its event
      counts. */
  lemma CountersCountEvents(db: AbDb, testId: string, variant: string)
    requires AbEvent.Consistent(db) && OwnRow(db, testId, variant)
    ensures CountersOf(db.stats, JoinId(testId, variant)) == LoggedCounters(db.events, testId, variant)
  {
    var id := JoinId(testId, variant);
    if id !in db.stats {
      AbEvent.NoRowNoEvents(db.events, db.stats, testId, variant);
      NothingLogged(db.events, testId, variant);
    } else {
      RowCounters(db.stats, id, db.events);
    }
  }

  /** Hence the listing's totals count the logged impressions and
      conversions of both variants. */
  lemma QuickStatsCountEvents(db: AbDb, testId: string)
    requires AbEvent.Consistent(db) && OwnRow(db, testId, "A") && OwnRow(db, testId, "B")
    ensures var q := Quick(db, testId);
            && q.totalImpressions == AbEvent.Tally(db.events, testId, "A", "impression")
                                     + AbEvent.Tally(db.events, testId, "B", "impression")
            && q.totalConversions == AbEvent.Tally(db.events, testId, "A", "conversion")
                                     + AbEvent.Tally(db.events, testId, "B", "conversion")
  {
    CountersCountEvents(db, testId, "A");
    CountersCountEvents(db, testId, "B");
  }

  // ---------------------------------------------------------------------------
  // Writes

  /** `resetAnalytics`: the A and B stats rows, the test's events and its
      assignments are deleted and the test (if it exists) records the reset. */
  function Reset(db: AbDb, testId: string, now: int): (r: AbDb)
    ensures JoinId(testId, "A") !in r.stats && JoinId(testId, "B") !in r.stats
    ensures r.stats == db.stats - {JoinId(testId, "A"), JoinId(testId, "B")}
    ensures forall i :: 0 <= i < |r.events| ==> r.events[i].testId != testId
    ensures multiset(r.events) <= multiset(db.events)
    ensures forall e :: e in db.events && e.testId != testId ==> e in r.events
    ensures forall k :: k in r.assignments <==> k in db.assignments && db.assignments[k].testId != testId
    ensures forall k :: k in r.assignments ==> r.assignments[k] == db.assignments[k]
    ensures r.tests.Keys == db.tests.Keys
    ensures testId in db.tests ==>
              r.tests[testId] == db.tests[testId].(lastResetAt := Some(now), updatedAt := Some(now))
    ensures forall k :: k in db.tests && k != testId ==> r.tests[k] == db.tests[k]
  {
    AbDb(
      if testId in db.tests then db.tests[testId := db.tests[testId].(lastResetAt := Some(now), updatedAt := Some(now))] else db.tests,
      map k | k in db.assignments && db.assignments[k].testId != testId :: db.assignments[k],
      db.stats - {JoinId(testId, "A"), JoinId(testId, "B")},
      OtherTests(db.events, testId))
  }

  /** The log without the rows of one test, in order. */
  function OtherTests(evs: seq<Event>, testId: string): (r: seq<Event>)
    ensures forall i :: 0 <= i < |r| ==> r[i].testId != testId
    ensures multiset(r) <= multiset(evs)
    ensures forall e :: e in evs && e.testId != testId ==> e in r
  {
    if evs == [] then []
    else
      var pre := evs[..|evs| - 1];
      var r := OtherTests(pre, testId) + (if evs[|evs| - 1].testId != testId then [evs[|evs| - 1]] else []);
      assert evs == pre + [evs[|evs| - 1]];
      r
  }

  /** The PUT handler: `testId` first, then either the reset (which returns
      before any validation) or the shared configuration update. */
  function Update(db: AbDb, testId: Option<string>, status: Option<string>, variants: Option<seq<VariantSpec>>,
                  name: Option<string>, resetAnalytics: bool, now: int): (r: (Outcome<Option<AbTest>>, AbDb))
    ensures !Truthy(testId) ==> r == (Err(400, "testId is required"), db)
    ensures Truthy(testId) && resetAnalytics ==> r == (Ok(None), Reset(db, testId.value, now))
    ensures Truthy(testId) && !resetAnalytics ==>
              var u := UpdateTest(db.tests, testId, variants, status, name, now);
              && r.1 == db.(tests := u.1)
              && (r.0.Ok? <==> u.0.Ok?)
              && (r.0.Ok? ==> r.0.body == Some(u.0.body))
              && (r.0.Err? ==> r.0 == Err(u.0.status, u.0.message))
  {
    if !Truthy(testId) then (Err(400, "testId is required"), db)
    else if resetAnalytics then (Ok(None), Reset(db, testId.value, now))
    else
      var u := UpdateTest(db.tests, testId, variants, status, name, now);
      match u.0
      case Ok(t) => (Ok(Some(t)), db.(tests := u.1))
      case Err(s, m) => (Err(s, m), db.(tests := u.1))
  }

  /** After a reset the test's detail view starts from zero: no counters,
      no breakdown, no recent events, and its visitors are drawn afresh. */
  lemma ResetClearsAnalytics(db: AbDb, testId: string, now: int, later: int)
    ensures var d := ShowTest(Reset(db, testId, now), testId, later);
            && d.a == Counters(0, 0, 0, 0, 0) && d.b == Counters(0, 0, 0, 0, 0)
            && d.daily == [] && d.recent == []
    ensures forall k :: k in Reset(db, testId, now).assignments ==> Reset(db, testId, now).assignments[k].testId != testId
  {
    var r := Reset(db, testId, now);
    NoneOfTest(r.events, testId);
    assert ScopeEvents(r.events, testId) == [];
  }

  /** A log without rows of a test selects none of them. */
  lemma {:induction false} NoneOfTest(evs: seq<Event>, testId: string)
    requires forall i :: 0 <= i < |evs| ==> evs[i].testId != testId
    ensures OfTest(evs, testId) == []
  {
    if evs != [] {
      NoneOfTest(evs[..|evs| - 1], testId);
    }
  }

  /** The POST handler: `testId` and `name` are required, an existing id is
      refused, and the new test is active with the given variants or the
      default 50/50 split. */
  function Create(tests: map<string, AbTest>, testId: Option<string>, name: Option<string>,
                  variants: Option<seq<VariantSpec>>, now: int): (r: (Outcome<AbTest>, map<string, AbTest>))
    ensures !Truthy(testId) || !Truthy(name) ==> r == (Err(400, "testId and name are required"), tests)
    ensures Truthy(testId) && Truthy(name) && testId.value in tests ==>
              r == (Err(400, "Test with this ID already exists"), tests)
    ensures r.0.Ok? <==> Truthy(testId) && Truthy(name) && testId.value !in tests
    ensures r.0.Ok? ==>
              && r.1 == tests[testId.value := r.0.body]
              && r.0.body.status == Some("active") && r.0.body.name == name
              && r.0.body.variants == Some(variants.GetOr(DefaultVariants))
              && r.0.body.createdAt == Some(now) && r.0.body.lastResetAt.None?
  {
    if !Truthy(testId) || !Truthy(name) then (Err(400, "testId and name are required"), tests)
    else if testId.value in tests then (Err(400, "Test with this ID already exists"), tests)
    else
      var t := AbTest(name, Some("active"), Some(variants.GetOr(DefaultVariants)), Some(now), Some(now), None);
      (Ok(t), tests[testId.value := t])
  }

  /** Creation does not check the weights that an update insists on: a test
      created with weights summing to 60 is accepted, while the same weights
      sent to an update are refused. */
  lemma CreateSkipsWeightCheck(now: int)
    ensures var vs := [VariantSpec("A", Some(30), None), VariantSpec("B", Some(30), None)];
            && Create(map[], Some("t"), Some("n"), Some(vs), now).0.Ok?
            && UpdateTest(map[], Some("t"), Some(vs), None, None, now).0 == Err(400, "Variant weights must sum to 100")
  {
    var vs := [VariantSpec("A", Some(30), None), VariantSpec("B", Some(30), None)];
    assert Prefix(vs, 1) == 30;
  }

  /** The DELETE handler: the test and its A and B stats rows go; its events
      and assignments stay. */
  function Delete(db: AbDb, testId: Option<string>): (r: (Outcome<()>, AbDb))
    ensures !Truthy(testId) ==> r == (Err(400, "testId is required"), db)
    ensures Truthy(testId) ==>
              && r.0.Ok?
              && r.1.tests == db.tests - {testId.value}
              && r.1.stats == db.stats - {JoinId(testId.value, "A"), JoinId(testId.value, "B")}
              && r.1.events == db.events && r.1.assignments == db.assignments
  {
    if !Truthy(testId) then (Err(400, "testId is required"), db)
    else (Ok(()), db.(tests := db.tests - {testId.value},
                      stats := db.stats - {JoinId(testId.value, "A"), JoinId(testId.value, "B")}))
  }

  /** Since assignments survive a delete, a visitor who comes back after
      the test was deleted and recreated by a first request is served the
      variant assigned before the delete. */
  lemma AssignmentOutlivesDelete(db: AbDb, testId: string, visitor: string, u1: real, u2: real, now: int, later: int)
    requires testId != "" && visitor != "" && JoinId(testId, visitor) in db.assignments
    ensures var gone := Delete(db, Some(testId)).1;
            var first := AbAssign.Assign(gone, Some(testId), None, u1, now).1;
            AbAssign.Assign(first, Some(testId), Some(visitor), u2, later).0.variant
              == db.assignments[JoinId(testId, visitor)].variant
  {
  }
}
