/** The event tracker of src/app/api/ab-test/event/route.ts (POST): every
    valid event is appended to the log and counted in the `testId_variant`
    stats row, which is created on the first event of its pair. The time is
    the ISO text `now`; `metadata.amount` is the optional `amount`. */
module AbEvent {
  import opened Common
  import opened AbStore

  /** The accepted event types. */
  const EventTypes: seq<string> := ["impression", "conversion", "bounce", "checkout_started"]

  /** The revenue an event carries: a conversion's truthy amount. */
  function RevenueOf(eventType: string, amount: Option<int>): int {
    if eventType == "conversion" && TruthyNum(amount) then amount.value else 0
  }

  /** The stats row after an event of `eventType` on an existing row: that
      one counter grows by one (a null counter counting as 0), a conversion
      with an amount adds it to the revenue, and `updated_at` is set. */
  function Bump(s: Stats, eventType: string, amount: Option<int>, now: string): (t: Stats)
    requires eventType in EventTypes
    ensures t.testId == s.testId && t.variant == s.variant && t.createdAt == s.createdAt
    ensures t.updatedAt == Some(now)
    ensures t.impressions == if eventType == "impression" then Some(NumOrZero(s.impressions) + 1) else s.impressions
    ensures t.conversions == if eventType == "conversion" then Some(NumOrZero(s.conversions) + 1) else s.conversions
    ensures t.bounces == if eventType == "bounce" then Some(NumOrZero(s.bounces) + 1) else s.bounces
    ensures t.checkoutsStarted ==
              if eventType == "checkout_started" then Some(NumOrZero(s.checkoutsStarted) + 1) else s.checkoutsStarted
    ensures NumOrZero(t.totalRevenue) == NumOrZero(s.totalRevenue) + RevenueOf(eventType, amount)
  {
    var s' := s.(updatedAt := Some(now));
    if eventType == "impression" then s'.(impressions := Some(NumOrZero(s.impressions) + 1))
    else if eventType == "conversion" then
      var c := s'.(conversions := Some(NumOrZero(s.conversions) + 1));
      if TruthyNum(amount) then c.(totalRevenue := Some(NumOrZero(s.totalRevenue) + amount.value)) else c
    else if eventType == "bounce" then s'.(bounces := Some(NumOrZero(s.bounces) + 1))
    else s'.(checkoutsStarted := Some(NumOrZero(s.checkoutsStarted) + 1))
  }

  /** A stats row with every counter at zero. */
  function ZeroStats(testId: string, variant: string, now: string): Stats {
    Stats(testId, variant, Some(0), Some(0), Some(0), Some(0), Some(0), Some(now), Some(now))
  }

  /** The row inserted on the first event of a pair. */
  function FreshStats(testId: string, variant: string, eventType: string, amount: Option<int>, now: string): Stats {
    Stats(testId, variant,
      Some(if eventType == "impression" then 1 else 0),
      Some(if eventType == "conversion" then 1 else 0),
      Some(if eventType == "bounce" then 1 else 0),
      Some(if eventType == "checkout_started" then 1 else 0),
      Some(RevenueOf(eventType, amount)),
      Some(now), Some(now))
  }

  /** The inserted row is what bumping an all-zero row would give: the two
      branches of the handler count alike. */
  lemma FreshIsBumpOfZero(testId: string, variant: string, eventType: string, amount: Option<int>, now: string)
    requires eventType in EventTypes
    ensures FreshStats(testId, variant, eventType, amount, now) == Bump(ZeroStats(testId, variant, now), eventType, amount, now)
  {
  }

  /** The row tracking writes for an event: its pair's row bumped, or a
      fresh row when the pair has none. */
  function RowAfter(stats: map<string, Stats>, e: Event, now: string): Stats
    requires e.eventType in EventTypes
  {
    var id := JoinId(e.testId, e.variant);
    if id in stats then Bump(stats[id], e.eventType, e.amount, now)
    else FreshStats(e.testId, e.variant, e.eventType, e.amount, now)
  }

  /** The POST handler: the answer and the tables after it. */
  function Track(db: AbDb, testId: Option<string>, variant: Option<string>, eventType: Option<string>,
                 visitorId: Option<string>, userId: Option<string>, amount: Option<int>, now: string): (r: (Outcome<()>, AbDb))
    ensures !Truthy(testId) || !Truthy(variant) || !Truthy(eventType) ==>
              r == (Err(400, "testId, variant, and eventType are required"), db)
    ensures Truthy(testId) && Truthy(variant) && Truthy(eventType) && eventType.value !in EventTypes ==>
              r == (Err(400, "Invalid eventType. Must be one of: impression, conversion, bounce, checkout_started"), db)
    ensures r.0.Ok? <==> Truthy(testId) && Truthy(variant) && eventType.Some? && eventType.value in EventTypes
    ensures r.0.Ok? ==>
              && r.1.events == db.events + [Event(testId.value, variant.value, eventType.value,
                                                  TruthyOrNone(visitorId), TruthyOrNone(userId), amount, Some(now))]
              && r.1.tests == db.tests && r.1.assignments == db.assignments
              && r.1.stats.Keys == db.stats.Keys + {JoinId(testId.value, variant.value)}
              && (forall id :: id in db.stats && id != JoinId(testId.value, variant.value) ==> r.1.stats[id] == db.stats[id])
    ensures r.0.Ok? ==>
              var id := JoinId(testId.value, variant.value);
              r.1.stats[id] == if id in db.stats then Bump(db.stats[id], eventType.value, amount, now)
                               else FreshStats(testId.value, variant.value, eventType.value, amount, now)
  {
    if !Truthy(testId) || !Truthy(variant) || !Truthy(eventType) then
      (Err(400, "testId, variant, and eventType are required"), db)
    else if eventType.value !in EventTypes then
      (Err(400, "Invalid eventType. Must be one of: impression, conversion, bounce, checkout_started"), db)
    else
      var e := Event(testId.value, variant.value, eventType.value, TruthyOrNone(visitorId), TruthyOrNone(userId), amount, Some(now));
      (Ok(()), db.(events := db.events + [e], stats := db.stats[JoinId(testId.value, variant.value) := RowAfter(db.stats, e, now)]))
  }

  // ---------------------------------------------------------------------------
  // The stats as an aggregate of the log

  /** Whether an event belongs to a pair and type. */
  predicate Counts(e: Event, testId: string, variant: string, eventType: string) {
    e.testId == testId && e.variant == variant && e.eventType == eventType
  }

  /** How many logged events of a pair have the given type. */
  function Tally(evs: seq<Event>, testId: string, variant: string, eventType: string): nat {
    if evs == [] then 0
    else Tally(evs[..|evs| - 1], testId, variant, eventType)
         + (if Counts(evs[|evs| - 1], testId, variant, eventType) then 1 else 0)
  }

  /** The revenue of the logged conversions of a pair. */
  function Revenue(evs: seq<Event>, testId: string, variant: string): int {
    if evs == [] then 0
    else Revenue(evs[..|evs| - 1], testId, variant)
         + (var e := evs[|evs| - 1]; if e.testId == testId && e.variant == variant then RevenueOf(e.eventType, e.amount) else 0)
  }

  /** A stats row agrees with the log: each counter is the number of events
      of its type for the row's pair, and the revenue their amounts. */
  predicate Reflects(s: Stats, evs: seq<Event>) {
    && NumOrZero(s.impressions) == Tally(evs, s.testId, s.variant, "impression")
    && NumOrZero(s.conversions) == Tally(evs, s.testId, s.variant, "conversion")
    && NumOrZero(s.bounces) == Tally(evs, s.testId, s.variant, "bounce")
    && NumOrZero(s.checkoutsStarted) == Tally(evs, s.testId, s.variant, "checkout_started")
    && NumOrZero(s.totalRevenue) == Revenue(evs, s.testId, s.variant)
  }

  /** The stats table agrees with the log: every row sits under its pair's
      id and reflects the log, and every logged event's pair has a row. */
  predicate Consistent(db: AbDb) {
    && (forall id :: id in db.stats ==> id == JoinId(db.stats[id].testId, db.stats[id].variant))
    && (forall id :: id in db.stats ==> Reflects(db.stats[id], db.events))
    && (forall i :: 0 <= i < |db.events| ==> JoinId(db.events[i].testId, db.events[i].variant) in db.stats)
  }

  /** Appending one event moves the tallies of its own pair and type only. */
  lemma AppendTally(evs: seq<Event>, e: Event, testId: string, variant: string, eventType: string)
    ensures Tally(evs + [e], testId, variant, eventType)
            == Tally(evs, testId, variant, eventType) + (if Counts(e, testId, variant, eventType) then 1 else 0)
    ensures Revenue(evs + [e], testId, variant)
            == Revenue(evs, testId, variant) + (if e.testId == testId && e.variant == variant then RevenueOf(e.eventType, e.amount) else 0)
  {
    assert (evs + [e])[..|evs|] == evs;
  }

  /** A pair with no stats row has nothing in a consistent log. */
  lemma {:induction false} NoRowNoEvents(evs: seq<Event>, stats: map<string, Stats>, testId: string, variant: string)
    requires forall i :: 0 <= i < |evs| ==> JoinId(evs[i].testId, evs[i].variant) in stats
    requires JoinId(testId, variant) !in stats
    ensures forall t :: Tally(evs, testId, variant, t) == 0
    ensures Revenue(evs, testId, variant) == 0
  {
    if evs != [] {
      NoRowNoEvents(evs[..|evs| - 1], stats, testId, variant);
      assert JoinId(evs[|evs| - 1].testId, evs[|evs| - 1].variant) in stats;
    }
  }

  /** An event of another pair leaves a row's agreement with the log intact. */
  lemma OtherPairStillReflects(s: Stats, evs: seq<Event>, e: Event)
    requires Reflects(s, evs) && !(e.testId == s.testId && e.variant == s.variant)
    ensures Reflects(s, evs + [e])
  {
    AppendTally(evs, e, s.testId, s.variant, "impression");
    AppendTally(evs, e, s.testId, s.variant, "conversion");
    AppendTally(evs, e, s.testId, s.variant, "bounce");
    AppendTally(evs, e, s.testId, s.variant, "checkout_started");
  }

  /** Bumping a row for an event of its own pair keeps it in agreement with
      the log that now ends with the event. */
  lemma BumpReflects(s: Stats, evs: seq<Event>, e: Event, now: string)
    requires Reflects(s, evs) && e.testId == s.testId && e.variant == s.variant && e.eventType in EventTypes
    ensures Reflects(Bump(s, e.eventType, e.amount, now), evs + [e])
  {
    AppendTally(evs, e, s.testId, s.variant, "impression");
    AppendTally(evs, e, s.testId, s.variant, "conversion");
    AppendTally(evs, e, s.testId, s.variant, "bounce");
    AppendTally(evs, e, s.testId, s.variant, "checkout_started");
  }

  /** The row inserted for a pair with nothing logged agrees with the log
      that now holds just its first event. */
  lemma FreshReflects(evs: seq<Event>, stats: map<string, Stats>, e: Event, now: string)
    requires forall i :: 0 <= i < |evs| ==> JoinId(evs[i].testId, evs[i].variant) in stats
    requires JoinId(e.testId, e.variant) !in stats && e.eventType in EventTypes
    ensures Reflects(FreshStats(e.testId, e.variant, e.eventType, e.amount, now), evs + [e])
  {
    NoRowNoEvents(evs, stats, e.testId, e.variant);
    FreshIsBumpOfZero(e.testId, e.variant, e.eventType, e.amount, now);
    BumpReflects(ZeroStats(e.testId, e.variant, now), evs, e, now);
  }

  /** Appending an event and writing its pair's row keeps a consistent
      table consistent, when the pair's id names no other pair's row. */
  lemma AppendKeepsConsistent(db: AbDb, e: Event, now: string)
    requires Consistent(db) && e.eventType in EventTypes
    requires var id := JoinId(e.testId, e.variant);
             id in db.stats ==> db.stats[id].testId == e.testId && db.stats[id].variant == e.variant
    ensures var id := JoinId(e.testId, e.variant);
            Consistent(db.(events := db.events + [e], stats := db.stats[id := RowAfter(db.stats, e, now)]))
  {
    var id := JoinId(e.testId, e.variant);
    var row := RowAfter(db.stats, e, now);
    var evs := db.events + [e];
    var stats := db.stats[id := row];
    if id in db.stats {
      BumpReflects(db.stats[id], db.events, e, now);
    } else {
      FreshReflects(db.events, db.stats, e, now);
    }
    assert row.testId == e.testId && row.variant == e.variant;
    forall k | k in stats
      ensures k == JoinId(stats[k].testId, stats[k].variant)
    {
    }
    forall k | k in stats
      ensures Reflects(stats[k], evs)
    {
      if k != id {
        OtherPairStillReflects(db.stats[k], db.events, e);
      }
    }
    forall i | 0 <= i < |evs|
      ensures JoinId(evs[i].testId, evs[i].variant) in stats
    {
      if i < |db.events| {
        assert evs[i] == db.events[i];
      }
    }
  }

  /** Tracking keeps the stats consistent with the log, so the counters are
      always the per-type event counts of their pair — provided the event's
      id does not collide with another pair's row (`testId_variant` can be
      spelled by two pairs when ids contain an underscore). */
  lemma TrackKeepsConsistent(db: AbDb, testId: Option<string>, variant: Option<string>, eventType: Option<string>,
                             visitorId: Option<string>, userId: Option<string>, amount: Option<int>, now: string)
    requires Consistent(db)
    requires Truthy(testId) && Truthy(variant)
    requires var id := JoinId(testId.value, variant.value);
             id in db.stats ==> db.stats[id].testId == testId.value && db.stats[id].variant == variant.value
    ensures Consistent(Track(db, testId, variant, eventType, visitorId, userId, amount, now).1)
  {
    var r := Track(db, testId, variant, eventType, visitorId, userId, amount, now);
    if !Truthy(eventType) || eventType.value !in EventTypes {
      assert r.1 == db;
    } else {
      var e := Event(testId.value, variant.value, eventType.value, TruthyOrNone(visitorId), TruthyOrNone(userId), amount, Some(now));
      assert r.1 == db.(events := db.events + [e], stats := db.stats[JoinId(e.testId, e.variant) := RowAfter(db.stats, e, now)]);
      AppendKeepsConsistent(db, e, now);
    }
  }
}
