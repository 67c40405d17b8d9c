/** The second sun-sign calculation, `calculateZodiacSign` of
    src/lib/user-profile.ts: a table of start/end dates per sign, scanned for
    the first range containing the date, "Unknown" when none does. */
module ProfileSign {
  import opened Common
  import opened JsText
  import opened Zodiac

  datatype DateRange = DateRange(sign: Sign, startMonth: int, startDay: int, endMonth: int, endDay: int)

  /** `ZODIAC_DATES`, in its order. */
  const ZodiacDates: seq<DateRange> := [
    DateRange(Capricorn, 12, 22, 1, 19),
    DateRange(Aquarius, 1, 20, 2, 18),
    DateRange(Pisces, 2, 19, 3, 20),
    DateRange(Aries, 3, 21, 4, 19),
    DateRange(Taurus, 4, 20, 5, 20),
    DateRange(Gemini, 5, 21, 6, 20),
    DateRange(Cancer, 6, 21, 7, 22),
    DateRange(Leo, 7, 23, 8, 22),
    DateRange(Virgo, 8, 23, 9, 22),
    DateRange(Libra, 9, 23, 10, 22),
    DateRange(Scorpio, 10, 23, 11, 21),
    DateRange(Sagittarius, 11, 22, 12, 21)
  ]

  /** `MONTH_MAP` of user-profile: capitalised English month names only. */
  function CapitalMonthNumber(name: string): (r: Option<int>)
    ensures r.Some? ==> 1 <= r.value <= 12 && name != [] && IsUpperAscii(name[0])
  {
    if name == "January" then Some(1)
    else if name == "February" then Some(2)
    else if name == "March" then Some(3)
    else if name == "April" then Some(4)
    else if name == "May" then Some(5)
    else if name == "June" then Some(6)
    else if name == "July" then Some(7)
    else if name == "August" then Some(8)
    else if name == "September" then Some(9)
    else if name == "October" then Some(10)
    else if name == "November" then Some(11)
    else if name == "December" then Some(12)
    else None
  }

  /** `MONTH_MAP[month] || parseInt(month) || 1`. */
  function ProfileMonth(month: string): (m: int)
    ensures m != 0
    ensures CapitalMonthNumber(month).Some? ==> m == CapitalMonthNumber(month).value
    ensures CapitalMonthNumber(month).None? && TruthyNum(ParseInt(month)) ==> m == ParseInt(month).value
    ensures CapitalMonthNumber(month).None? && !TruthyNum(ParseInt(month)) ==> m == 1
  {
    match CapitalMonthNumber(month)
    case Some(v) => v
    case None => if TruthyNum(ParseInt(month)) then ParseInt(month).value else 1
  }

  /** `parseInt(day) || 1`. */
  function ProfileDay(day: string): (d: int)
    ensures d != 0
    ensures TruthyNum(ParseInt(day)) ==> d == ParseInt(day).value
    ensures !TruthyNum(ParseInt(day)) ==> d == 1
  {
    if TruthyNum(ParseInt(day)) then ParseInt(day).value else 1
  }

  /** The loop body's test, with its three branches as written. */
  predicate InRange(z: DateRange, m: int, d: int) {
    if z.startMonth == z.endMonth then
      m == z.startMonth && d >= z.startDay && d <= z.endDay
    else if z.startMonth > z.endMonth then
      (m == z.startMonth && d >= z.startDay) || (m == z.endMonth && d <= z.endDay)
    else
      (m == z.startMonth && d >= z.startDay) || (m == z.endMonth && d <= z.endDay)
  }

  /** The loop from entry k on: the first range containing the date;
      `None` is the "Unknown" fall-through. */
  function ScanRanges(t: seq<DateRange>, k: nat, m: int, d: int): Option<Sign>
    requires k <= |t|
    decreases |t| - k
  {
    if k == |t| then None
    else if InRange(t[k], m, d) then Some(t[k].sign)
    else ScanRanges(t, k + 1, m, d)
  }

  /** `calculateZodiacSign(month, day)`; `None` is "Unknown". */
  function CalculateZodiacSign(month: string, day: string): Option<Sign> {
    ScanRanges(ZodiacDates, 0, ProfileMonth(month), ProfileDay(day))
  }

  /** How many ranges from entry k on contain the date. */
  function CountRanges(t: seq<DateRange>, k: nat, m: int, d: int): nat
    requires k <= |t|
    decreases |t| - k
  {
    if k == |t| then 0
    else (if InRange(t[k], m, d) then 1 else 0) + CountRanges(t, k + 1, m, d)
  }

  /** The table invariant: entry i ends in month i+1 on that month's cusp and
      starts in the month before, the day after that month's cusp, so every
      month is the end month of exactly one entry and the start month of
      exactly one entry; entry i belongs to the sign ending in month i+1. */
  predicate CalendarTable(t: seq<DateRange>) {
    |t| == 12 && forall i :: 0 <= i < 12 ==> CalendarEntry(t[i], i)
  }

  predicate CalendarEntry(z: DateRange, i: int)
    requires 0 <= i < 12
  {
    && z.endMonth == i + 1
    && z.endDay == Cusp(i + 1)
    && z.startMonth == (i + 11) % 12 + 1
    && z.startDay == Cusp(z.startMonth) + 1
    && Index(z.sign) == (i + 9) % 12
  }

  lemma ZodiacDatesIsCalendar()
    ensures CalendarTable(ZodiacDates)
  {
    forall i | 0 <= i < 12
      ensures CalendarEntry(ZodiacDates[i], i)
    {
      ZodiacDateIsCalendar(i);
    }
  }

  lemma ZodiacDateIsCalendar(i: int)
    requires 0 <= i < 12
    ensures CalendarEntry(ZodiacDates[i], i)
  {
    if i < 6 {
      if i == 0 {} else if i == 1 {} else if i == 2 {} else if i == 3 {} else if i == 4 {} else {}
    } else {
      if i == 6 {} else if i == 7 {} else if i == 8 {} else if i == 9 {} else if i == 10 {} else {}
    }
  }

  /** The entry a date in month m falls in: the one ending in m up to the
      cusp, the one starting in m after it. */
  function Owner(m: int, d: int): (i: nat)
    requires 1 <= m <= 12
    ensures i < 12
  {
    if d <= Cusp(m) then m - 1 else m % 12
  }

  /** In a calendar table, entry k contains the date exactly when it is the
      date's owner. */
  lemma InRangeIffOwner(t: seq<DateRange>, k: nat, m: int, d: int)
    requires CalendarTable(t) && k < 12 && 1 <= m <= 12
    ensures InRange(t[k], m, d) <==> k == Owner(m, d)
  {
    var z := t[k];
    assert CalendarEntry(z, k);
    assert z.startMonth != z.endMonth;
    assert z.startMonth == m <==> k == m % 12 by {
      if k == 0 {
        assert z.startMonth == 12;
      } else {
        assert z.startMonth == k;
      }
    }
  }

  lemma {:induction false} CountFrom(t: seq<DateRange>, k: nat, m: int, d: int)
    requires CalendarTable(t) && k <= 12 && 1 <= m <= 12
    ensures CountRanges(t, k, m, d) == if k <= Owner(m, d) then 1 else 0
    ensures ScanRanges(t, k, m, d) == if k <= Owner(m, d) then Some(t[Owner(m, d)].sign) else None
    decreases 12 - k
  {
    if k < 12 {
      InRangeIffOwner(t, k, m, d);
      CountFrom(t, k + 1, m, d);
    }
  }

  /** For a month 1..12 and ANY day number, exactly one range contains the
      date, and the scan returns its sign: the calendar sign. */
  lemma ExactlyOneRange(t: seq<DateRange>, m: int, d: int)
    requires CalendarTable(t) && 1 <= m <= 12
    ensures CountRanges(t, 0, m, d) == 1
    ensures ScanRanges(t, 0, m, d) == Some(CalendarSign(m, d))
  {
    CountFrom(t, 0, m, d);
    var o := Owner(m, d);
    assert CalendarEntry(t[o], o);
    assert Index(t[o].sign) == (m + 8 + (if d <= Cusp(m) then 0 else 1)) % 12 by {
      if d > Cusp(m) && m == 12 {
        assert o == 0;
      }
    }
    SignAtIndex(t[o].sign);
  }

  /** A month outside 1..12 (such as "13") is in no range: "Unknown". */
  lemma {:induction false} OutOfRangeMonthIsUnknown(t: seq<DateRange>, k: nat, m: int, d: int)
    requires CalendarTable(t) && k <= 12 && !(1 <= m <= 12)
    ensures ScanRanges(t, k, m, d) == None
    decreases 12 - k
  {
    if k < 12 {
      OutOfRangeMonthIsUnknown(t, k + 1, m, d);
    }
  }

  /** The resolved month is never 0, and any month 1..12 gives a sign. */
  lemma NeverUnknownForCalendarMonths(month: string, day: string)
    requires 1 <= ProfileMonth(month) <= 12
    ensures CalculateZodiacSign(month, day) == Some(CalendarSign(ProfileMonth(month), ProfileDay(day)))
  {
    ZodiacDatesIsCalendar();
    ExactlyOneRange(ZodiacDates, ProfileMonth(month), ProfileDay(day));
  }

  /** December from the 22nd and January to the 19th reach Capricorn, the
      one entry whose start month is after its end month. */
  lemma CapricornWrapsAround(d: int)
    ensures d >= 22 ==> ScanRanges(ZodiacDates, 0, 12, d) == Some(Capricorn)
    ensures d <= 19 ==> ScanRanges(ZodiacDates, 0, 1, d) == Some(Capricorn)
    ensures ZodiacDates[0].startMonth > ZodiacDates[0].endMonth
  {
    ZodiacDatesIsCalendar();
    ExactlyOneRange(ZodiacDates, 12, d);
    ExactlyOneRange(ZodiacDates, 1, d);
  }

  /** The two calculations agree on numbers: for month 1..12 and a non-zero
      day, calculateZodiacSign's range table and calculateSunSign's end-date
      table give the same sign. */
  lemma AgreesWithSunSign(m: int, d: int)
    requires 1 <= m <= 12 && d != 0
    ensures ScanRanges(ZodiacDates, 0, m, d) == Some(SunSignOf(Some(m), Some(d)))
  {
    ZodiacDatesIsCalendar();
    ExactlyOneRange(ZodiacDates, m, d);
    SunSignIsCalendar(m, d);
  }

  /** ... and on form input: a numeric month 1..12 and a non-zero day string
      give the same sign through both month tables. */
  lemma AgreesOnNumericInput(month: string, day: string)
    requires ParseInt(month).Some? && 1 <= ParseInt(month).value <= 12
    requires ParseInt(day).Some? && ParseInt(day).value != 0
    ensures CalculateZodiacSign(month, day) == Some(CalculateSunSign(month, day))
  {
    ParseIntStartsWithNonLetter(month);
    assert Lower(month)[0] == LowerChar(month[0]);
    assert CapitalMonthNumber(month).None?;
    assert LowerMonthNumber(Lower(month)).None?;
    AgreesWithSunSign(ParseInt(month).value, ParseInt(day).value);
  }
}
