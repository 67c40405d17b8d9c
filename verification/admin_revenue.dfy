/** The admin revenue dashboard of src/app/api/admin/revenue/route.ts: a
    session gate, then folds over the `payments` rows (in the order the
    query returns them, newest first) in integer paise. The calendar
    boundaries (start of today, week, month, year, last month, the thirty
    day windows) are inputs, as is the date parser for the custom range. */
module AdminRevenue {
  import opened Common
  import opened JsText
  import opened Store

  // ---------------------------------------------------------------------------
  // Session gate

  /** An `admin_sessions` row. */
  datatype Session = Session(expiresAt: Option<int>)

  /** The gate before any figure: a token is required, it must name a
      session, and an expired session is deleted. `new Date(null)` is the
      epoch, so a null expiry has always passed. */
  function Gate(sessions: map<string, Session>, token: Option<string>, now: int): (r: (Outcome<()>, map<string, Session>))
    ensures !Truthy(token) ==> r == (Err(401, "Unauthorized - No token provided"), sessions)
    ensures Truthy(token) && token.value !in sessions ==> r == (Err(401, "Unauthorized - Invalid session"), sessions)
    ensures Truthy(token) && token.value in sessions && NumOrZero(sessions[token.value].expiresAt) < now ==>
              r == (Err(401, "Session expired - Please login again"), sessions - {token.value})
    ensures r.0.Ok? <==> Truthy(token) && token.value in sessions && NumOrZero(sessions[token.value].expiresAt) >= now
    ensures r.0.Ok? ==> r.1 == sessions
    ensures r.0.Err? ==> r.0.status == 401
  {
    if !Truthy(token) then (Err(401, "Unauthorized - No token provided"), sessions)
    else if token.value !in sessions then (Err(401, "Unauthorized - Invalid session"), sessions)
    else if NumOrZero(sessions[token.value].expiresAt) < now then
      (Err(401, "Session expired - Please login again"), sessions - {token.value})
    else (Ok(()), sessions)
  }

  // ---------------------------------------------------------------------------
  // Selections and sums

  /** `payment_status === "paid"`. */
  predicate Paid(p: PaymentRow) {
    p.paymentStatus == Some("paid")
  }

  /** `(p.amount || 0)`, in paise. */
  function AmountOf(p: PaymentRow): int {
    NumOrZero(p.amount)
  }

  /** `new Date(p.createdAt)`; a null time is the epoch. */
  function TimeOf(p: PaymentRow): int {
    NumOrZero(p.createdAt)
  }

  /** The row filters the dashboard applies on top of "paid". */
  datatype Selection =
    | Everything
    | Since(start: int)
    | Between(from: int, to: int)
    | Dated(from: int, to: int)
    | OfKind(kind: string)
    | OfBundle(bundleId: string)
    | InRange(rangeStart: Option<int>, rangeEnd: Option<int>)

  predicate Selects(s: Selection, p: PaymentRow) {
    match s
    case Everything => true
    case Since(start) => TimeOf(p) >= start
    case Between(from, to) => from <= TimeOf(p) <= to
    case Dated(from, to) => p.createdAt.Some? && from <= TimeOf(p) <= to
    case OfKind(k) => p.kind == Some(k)
    case OfBundle(b) => p.bundleId == Some(b)
    // An invalid date compares false with everything.
    case InRange(from, to) => p.createdAt.Some? && from.Some? && to.Some? && from.value <= TimeOf(p) <= to.value
  }

  /** The paid revenue of the selected rows. */
  function Sum(ps: seq<PaymentRow>, s: Selection): int {
    if ps == [] then 0
    else (if Paid(ps[0]) && Selects(s, ps[0]) then AmountOf(ps[0]) else 0) + Sum(ps[1..], s)
  }

  /** How many paid rows are selected. */
  function Count(ps: seq<PaymentRow>, s: Selection): (n: nat)
    ensures n <= |ps|
  {
    if ps == [] then 0
    else (if Paid(ps[0]) && Selects(s, ps[0]) then 1 else 0) + Count(ps[1..], s)
  }

  /** How many rows have a status. */
  function StatusCount(ps: seq<PaymentRow>, status: string): (n: nat)
    ensures n <= |ps|
  {
    if ps == [] then 0
    else (if ps[0].paymentStatus == Some(status) then 1 else 0) + StatusCount(ps[1..], status)
  }

  /** The paid rows, in order. */
  function PaidRows(ps: seq<PaymentRow>): (r: seq<PaymentRow>)
    ensures |r| == Count(ps, Everything)
    ensures forall x :: x in r <==> x in ps && Paid(x)
  {
    if ps == [] then []
    else (if Paid(ps[0]) then [ps[0]] else []) + PaidRows(ps[1..])
  }

  /** The distinct truthy user ids of the paid rows. */
  function Payers(ps: seq<PaymentRow>): (r: set<string>)
    ensures forall u :: u in r <==> exists i :: 0 <= i < |ps| && Paid(ps[i]) && ps[i].userId == Some(u) && u != ""
  {
    if ps == [] then {}
    else
      var rest := Payers(ps[1..]);
      var r := (if Paid(ps[0]) && Truthy(ps[0].userId) then {ps[0].userId.value} else {}) + rest;
      assert forall u :: u in rest ==> exists i :: 0 <= i < |ps| && Paid(ps[i]) && ps[i].userId == Some(u) && u != "" by {
        forall u | u in rest ensures exists i :: 0 <= i < |ps| && Paid(ps[i]) && ps[i].userId == Some(u) && u != "" {
          var j :| 0 <= j < |ps[1..]| && Paid(ps[1..][j]) && ps[1..][j].userId == Some(u) && u != "";
          assert ps[j + 1] == ps[1..][j];
        }
      }
      assert forall u :: (exists i :: 0 <= i < |ps| && Paid(ps[i]) && ps[i].userId == Some(u) && u != "") ==> u in r by {
        forall u | exists i :: 0 <= i < |ps| && Paid(ps[i]) && ps[i].userId == Some(u) && u != "" ensures u in r {
          var i :| 0 <= i < |ps| && Paid(ps[i]) && ps[i].userId == Some(u) && u != "";
          if i > 0 {
            assert ps[1..][i - 1] == ps[i];
          }
        }
      }
      r
  }

  // ---------------------------------------------------------------------------
  // The report

  /** The calendar boundaries of the revenue buckets, in milliseconds. */
  datatype Bounds = Bounds(today: int, week: int, month: int, year: int, lastMonthStart: int, lastMonthEnd: int)

  /** One of the thirty chart days: its label and its first and last
      millisecond. */
  datatype DayWindow = DayWindow(date: string, start: int, end: int)

  /** A listed transaction. */
  datatype Transaction = Transaction(
    id: string, date: Option<int>, userId: Option<string>, userEmail: string, userName: string,
    amount: int, bundleId: Option<string>, kind: Option<string>, status: Option<string>)

  /** The custom-range part of the answer. */
  datatype Custom = Custom(revenue: int, count: nat, transactions: seq<Transaction>, start: string, end: string)

  /** Month-on-month growth: `None` is "N/A"; otherwise the change and the
      base it is relative to (the percentage formatting is left out). */
  datatype Growth = Growth(change: int, base: int)

  /** The revenue KPIs, in paise. */
  datatype Buckets = Buckets(total: int, today: int, thisWeek: int, thisMonth: int, thisYear: int, lastMonth: int,
                             momGrowth: Option<Growth>)

  /** `revenueByType`, in paise. */
  datatype ByType = ByType(bundle: int, upsell: int, coins: int, report: int)

  /** The transaction activity counts. */
  datatype Activity = Activity(totalPayments: nat, successful: nat, failed: nat, pending: nat)

  datatype Report = Report(
    buckets: Buckets, byType: ByType, bundleBreakdown: seq<(string, nat, int)>, activity: Activity,
    overTime: seq<(string, int)>, recent: seq<Transaction>, totalUsers: nat, uniquePayingUsers: nat,
    custom: Option<Custom>)

  /** The user ids the dashboard counts: not the anonymous ones. */
  function RealUsers(users: map<string, UserRow>): (r: set<string>)
    ensures r <= users.Keys
    ensures forall k :: k in r <==> k in users && !StartsWith(k, "anon_")
  {
    set k | k in users && !StartsWith(k, "anon_")
  }

  /** `userMap.get(p.userId)`: only real users are in the map. */
  function UserOf(users: map<string, UserRow>, id: Option<string>): Option<UserRow> {
    if id.Some? && id.value in RealUsers(users) then Some(users[id.value]) else None
  }

  /** A row as a listed transaction. */
  function TransactionOf(users: map<string, UserRow>, p: PaymentRow): (t: Transaction)
    ensures t.id == p.id && t.amount == AmountOf(p) && t.status == p.paymentStatus
    ensures t.userEmail != "" && t.userName != ""
  {
    var ud := UserOf(users, p.userId);
    var email := if ud.Some? then ud.value.email else None;
    var name := if ud.Some? then ud.value.name else None;
    Transaction(p.id, p.createdAt, p.userId,
      OrEmpty(Or(Or(email, p.customerEmail), Some("Unknown"))),
      OrEmpty(Or(name, Some("Unknown"))),
      AmountOf(p), p.bundleId, p.kind, p.paymentStatus)
  }

  function Transactions(users: map<string, UserRow>, ps: seq<PaymentRow>): (r: seq<Transaction>)
    ensures |r| == |ps|
    ensures forall i :: 0 <= i < |ps| ==> r[i] == TransactionOf(users, ps[i])
  {
    if ps == [] then [] else [TransactionOf(users, ps[0])] + Transactions(users, ps[1..])
  }

  /** The revenue of each chart day. */
  function OverTime(ps: seq<PaymentRow>, days: seq<DayWindow>): (r: seq<(string, int)>)
    ensures |r| == |days|
    ensures forall i :: 0 <= i < |days| ==> r[i] == (days[i].date, Sum(ps, Dated(days[i].start, days[i].end)))
  {
    if days == [] then []
    else [(days[0].date, Sum(ps, Dated(days[0].start, days[0].end)))] + OverTime(ps, days[1..])
  }

  /** The text the custom range's end is parsed from: the given end date,
      or the start date, at the last millisecond of the day. */
  function CustomEndText(startDate: string, endDate: Option<string>): (t: string)
    ensures !Truthy(endDate) ==> t == startDate + "T23:59:59.999"
    ensures Truthy(endDate) ==> t == endDate.value + "T23:59:59.999"
  {
    OrEmpty(Or(endDate, Some(startDate))) + "T23:59:59.999"
  }

  /** The bundles broken down. */
  const BreakdownBundles: seq<string> := ["palm-reading", "palm-birth", "palm-birth-compat"]

  /** The revenue KPIs: every figure is a sum over paid rows, and growth
      is "N/A" unless last month earned something. */
  function BucketsOf(ps: seq<PaymentRow>, b: Bounds): (r: Buckets)
    ensures r.total == Sum(ps, Everything)
    ensures r.today == Sum(ps, Since(b.today)) && r.thisWeek == Sum(ps, Since(b.week))
    ensures r.thisMonth == Sum(ps, Since(b.month)) && r.thisYear == Sum(ps, Since(b.year))
    ensures r.lastMonth == Sum(ps, Between(b.lastMonthStart, b.lastMonthEnd))
    ensures r.momGrowth.None? <==> r.lastMonth <= 0
    ensures r.momGrowth.Some? ==> r.momGrowth.value == Growth(r.thisMonth - r.lastMonth, r.lastMonth)
  {
    var lastMonth := Sum(ps, Between(b.lastMonthStart, b.lastMonthEnd));
    var thisMonth := Sum(ps, Since(b.month));
    Buckets(Sum(ps, Everything), Sum(ps, Since(b.today)), Sum(ps, Since(b.week)), thisMonth, Sum(ps, Since(b.year)), lastMonth,
            if lastMonth > 0 then Some(Growth(thisMonth - lastMonth, lastMonth)) else None)
  }

  /** `revenueByType`. */
  function ByTypeOf(ps: seq<PaymentRow>): (r: ByType)
    ensures r.bundle == Sum(ps, OfKind("bundle")) && r.upsell == Sum(ps, OfKind("upsell"))
    ensures r.coins == Sum(ps, OfKind("coins")) && r.report == Sum(ps, OfKind("report"))
  {
    ByType(Sum(ps, OfKind("bundle")), Sum(ps, OfKind("upsell")), Sum(ps, OfKind("coins")), Sum(ps, OfKind("report")))
  }

  /** `bundleBreakdown`: count and revenue of each bundle's paid rows. */
  function BundleBreakdown(ps: seq<PaymentRow>): (r: seq<(string, nat, int)>)
    ensures |r| == |BreakdownBundles|
    ensures forall i :: 0 <= i < |r| ==>
              r[i] == (BreakdownBundles[i], Count(ps, OfBundle(BreakdownBundles[i])), Sum(ps, OfBundle(BreakdownBundles[i])))
  {
    seq(|BreakdownBundles|, i requires 0 <= i < |BreakdownBundles| =>
      (BreakdownBundles[i], Count(ps, OfBundle(BreakdownBundles[i])), Sum(ps, OfBundle(BreakdownBundles[i]))))
  }

  /** The activity counts. */
  function ActivityOf(ps: seq<PaymentRow>): (r: Activity)
    ensures r.totalPayments == |ps| && r.successful == Count(ps, Everything)
    ensures r.failed == StatusCount(ps, "failed") && r.pending == StatusCount(ps, "created")
  {
    Activity(|ps|, |PaidRows(ps)|, StatusCount(ps, "failed"), StatusCount(ps, "created"))
  }

  /** `recentTransactions`: the first hundred paid rows, in order. */
  function Recent(ps: seq<PaymentRow>, users: map<string, UserRow>): (r: seq<Transaction>)
    ensures |r| == if Count(ps, Everything) < 100 then Count(ps, Everything) else 100
    ensures forall i :: 0 <= i < |r| ==> r[i] == TransactionOf(users, PaidRows(ps)[i])
  {
    var paid := PaidRows(ps);
    Transactions(users, if |paid| < 100 then paid else paid[..100])
  }

  /** The custom-range selection: from the start of the start date to the
      end of the end date, or of the start date when no end is given. */
  function CustomSelection(startDate: string, endDate: Option<string>, toTime: string -> Option<int>): Selection {
    InRange(toTime(startDate + "T00:00:00"), toTime(CustomEndText(startDate, endDate)))
  }

  /** The custom-range figures, present only when a start date is given. */
  function CustomOf(ps: seq<PaymentRow>, users: map<string, UserRow>, startDate: Option<string>, endDate: Option<string>,
                    toTime: string -> Option<int>): (r: Option<Custom>)
    ensures r.Some? <==> Truthy(startDate)
    ensures r.Some? ==>
              var range := CustomSelection(startDate.value, endDate, toTime);
              && r.value.revenue == Sum(ps, range) && r.value.count == Count(ps, range)
              && |r.value.transactions| == r.value.count
              && r.value.start == startDate.value
              && r.value.end == (if Truthy(endDate) then endDate.value else startDate.value)
  {
    if !Truthy(startDate) then None
    else
      var range := CustomSelection(startDate.value, endDate, toTime);
      Some(Custom(Sum(ps, range), Count(ps, range), Transactions(users, InRangeRows(ps, range)),
                  startDate.value, OrEmpty(Or(endDate, startDate))))
  }

  /** The figures of the dashboard (after the gate). `toTime` is the date
      parser, `None` standing for an invalid date. */
  function Figures(ps: seq<PaymentRow>, users: map<string, UserRow>, b: Bounds, days: seq<DayWindow>,
                   startDate: Option<string>, endDate: Option<string>, toTime: string -> Option<int>): (r: Report)
    ensures r.totalUsers == |RealUsers(users)| && r.uniquePayingUsers == |Payers(ps)|
  {
    Report(BucketsOf(ps, b), ByTypeOf(ps), BundleBreakdown(ps), ActivityOf(ps), OverTime(ps, days),
           Recent(ps, users), |RealUsers(users)|, |Payers(ps)|, CustomOf(ps, users, startDate, endDate, toTime))
  }

  /** The paid rows a selection keeps, in order. */
  function InRangeRows(ps: seq<PaymentRow>, s: Selection): (r: seq<PaymentRow>)
    ensures |r| == Count(ps, s)
    ensures forall x :: x in r <==> x in ps && Paid(x) && Selects(s, x)
  {
    if ps == [] then []
    else (if Paid(ps[0]) && Selects(s, ps[0]) then [ps[0]] else []) + InRangeRows(ps[1..], s)
  }

  /** The GET handler: the gate, then the figures. */
  function Dashboard(sessions: map<string, Session>, token: Option<string>, now: int,
                     ps: seq<PaymentRow>, users: map<string, UserRow>, b: Bounds, days: seq<DayWindow>,
                     startDate: Option<string>, endDate: Option<string>, toTime: string -> Option<int>): (r: (Outcome<Report>, map<string, Session>))
    ensures r.1 == Gate(sessions, token, now).1
    ensures r.0.Ok? <==> Gate(sessions, token, now).0.Ok?
    ensures r.0.Ok? ==> r.0.body == Figures(ps, users, b, days, startDate, endDate, toTime)
    ensures r.0.Err? ==> r.0.status == 401 && r.0.message == Gate(sessions, token, now).0.message
  {
    var g := Gate(sessions, token, now);
    if g.0.Err? then (Err(g.0.status, g.0.message), g.1)
    else (Ok(Figures(ps, users, b, days, startDate, endDate, toTime)), g.1)
  }

  // ---------------------------------------------------------------------------
  // Properties

  /** Sums and counts split over concatenation. */
  lemma {:induction false} SumConcat(a: seq<PaymentRow>, c: seq<PaymentRow>, s: Selection)
    ensures Sum(a + c, s) == Sum(a, s) + Sum(c, s)
    ensures Count(a + c, s) == Count(a, s) + Count(c, s)
  {
    if a == [] {
      assert a + c == c;
    } else {
      SumConcat(a[1..], c, s);
      assert (a + c)[0] == a[0];
      assert (a + c)[1..] == a[1..] + c;
    }
  }

  /** Only paid rows count: a row of any other status can be added anywhere
      without changing any revenue figure or paid count. */
  lemma UnpaidRowsDoNotCount(a: seq<PaymentRow>, p: PaymentRow, c: seq<PaymentRow>, s: Selection)
    requires !Paid(p)
    ensures Sum(a + [p] + c, s) == Sum(a + c, s)
    ensures Count(a + [p] + c, s) == Count(a + c, s)
  {
    SumConcat(a + [p], c, s);
    SumConcat(a, [p], s);
    SumConcat(a, c, s);
  }

  /** No row is refunded: every amount is non-negative. */
  predicate NonNegative(ps: seq<PaymentRow>) {
    forall i :: 0 <= i < |ps| ==> AmountOf(ps[i]) >= 0
  }

  /** With non-negative amounts any selection's revenue is at most the
      total, and at least zero. */
  lemma {:induction false} SelectionWithinTotal(ps: seq<PaymentRow>, s: Selection)
    requires NonNegative(ps)
    ensures 0 <= Sum(ps, s) <= Sum(ps, Everything)
  {
    if ps != [] {
      SelectionWithinTotal(ps[1..], s);
    }
  }

  /** The four type components together are at most the total: a row has
      one type. */
  lemma {:induction false} TypesWithinTotal(ps: seq<PaymentRow>)
    requires NonNegative(ps)
    ensures Sum(ps, OfKind("bundle")) + Sum(ps, OfKind("upsell")) + Sum(ps, OfKind("coins")) + Sum(ps, OfKind("report"))
            <= Sum(ps, Everything)
  {
    if ps != [] {
      TypesWithinTotal(ps[1..]);
    }
  }

  /** Paid, failed and pending rows are distinct rows of the list. */
  lemma {:induction false} StatusesWithinTotal(ps: seq<PaymentRow>)
    ensures Count(ps, Everything) + StatusCount(ps, "failed") + StatusCount(ps, "created") <= |ps|
  {
    if ps != [] {
      StatusesWithinTotal(ps[1..]);
    }
  }

  /** Each paying user made at least one paid payment. */
  lemma {:induction false} PayersWithinPaid(ps: seq<PaymentRow>)
    ensures |Payers(ps)| <= Count(ps, Everything)
  {
    if ps != [] {
      PayersWithinPaid(ps[1..]);
      var rest := Payers(ps[1..]);
      if Paid(ps[0]) && Truthy(ps[0].userId) {
        assert Payers(ps) <= rest + {ps[0].userId.value};
        assert |rest + {ps[0].userId.value}| <= |rest| + 1;
      } else {
        assert Payers(ps) <= rest;
      }
    }
  }

  /** The dashboard's counts keep their bounds: successful + failed +
      pending is at most the number of payments, paying users at most the
      successful payments, the custom range's count at most the successful
      payments, and (with non-negative amounts) each component revenue at
      most the total. */
  lemma DashboardBounds(ps: seq<PaymentRow>, users: map<string, UserRow>, b: Bounds, days: seq<DayWindow>,
                        startDate: Option<string>, endDate: Option<string>, toTime: string -> Option<int>)
    requires NonNegative(ps)
    ensures var r := Figures(ps, users, b, days, startDate, endDate, toTime);
            && r.activity.successful + r.activity.failed + r.activity.pending <= r.activity.totalPayments
            && r.uniquePayingUsers <= r.activity.successful
            && (r.custom.Some? ==> r.custom.value.count <= r.activity.successful
                                   && 0 <= r.custom.value.revenue <= r.buckets.total)
            && r.byType.bundle + r.byType.upsell + r.byType.coins + r.byType.report <= r.buckets.total
            && 0 <= r.buckets.today <= r.buckets.total && 0 <= r.buckets.lastMonth <= r.buckets.total
            && r.totalUsers <= |users|
  {
    var r := Figures(ps, users, b, days, startDate, endDate, toTime);
    StatusesWithinTotal(ps);
    PayersWithinPaid(ps);
    TypesWithinTotal(ps);
    SelectionWithinTotal(ps, Since(b.today));
    SelectionWithinTotal(ps, Between(b.lastMonthStart, b.lastMonthEnd));
    if Truthy(startDate) {
      var range := CustomSelection(startDate.value, endDate, toTime);
      SelectionWithinTotal(ps, range);
      CountWithinPaid(ps, range);
    }
    SubsetCard(RealUsers(users), users.Keys);
  }

  /** A selection counts at most the paid rows. */
  lemma {:induction false} CountWithinPaid(ps: seq<PaymentRow>, s: Selection)
    ensures Count(ps, s) <= Count(ps, Everything)
  {
    if ps != [] {
      CountWithinPaid(ps[1..], s);
    }
  }

  lemma SubsetCard(a: set<string>, b: set<string>)
    requires a <= b
    ensures |a| <= |b|
  {
    assert b == a + (b - a);
  }

  /** With non-negative amounts growth is "N/A" exactly when last month
      earned nothing. */
  lemma GrowthNotApplicable(ps: seq<PaymentRow>, b: Bounds)
    requires NonNegative(ps)
    ensures var r := BucketsOf(ps, b);
            r.momGrowth.None? <==> r.lastMonth == 0
  {
    SelectionWithinTotal(ps, Between(b.lastMonthStart, b.lastMonthEnd));
  }

  /** Anonymous accounts are not counted: adding one leaves `totalUsers`
      as it was. */
  lemma AnonymousUsersNotCounted(users: map<string, UserRow>, id: string, row: UserRow)
    requires StartsWith(id, "anon_")
    ensures RealUsers(users[id := row]) == RealUsers(users)
  {
  }
}
