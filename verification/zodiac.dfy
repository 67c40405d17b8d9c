/** Sun-sign and ascendant arithmetic of the onboarding flow
    (src/lib/zodiac-utils.ts): the twelve signs and their data, the
    date-table sun-sign lookup, the two-hours-per-sign ascendant
    approximation and the combined "instant signs" result. */
module Zodiac {
  import opened Common
  import opened JsText

  datatype Sign =
    | Aries | Taurus | Gemini | Cancer | Leo | Virgo
    | Libra | Scorpio | Sagittarius | Capricorn | Aquarius | Pisces

  /** Position in the zodiac order used by the ascendant's `signs` array. */
  function Index(s: Sign): (i: nat)
    ensures i < 12
  {
    match s
    case Aries => 0 case Taurus => 1 case Gemini => 2 case Cancer => 3
    case Leo => 4 case Virgo => 5 case Libra => 6 case Scorpio => 7
    case Sagittarius => 8 case Capricorn => 9 case Aquarius => 10 case Pisces => 11
  }

  /** `signs[i]` of the ascendant's array. */
  function SignAt(i: nat): (s: Sign)
    requires i < 12
    ensures Index(s) == i
  {
    [Aries, Taurus, Gemini, Cancer, Leo, Virgo,
     Libra, Scorpio, Sagittarius, Capricorn, Aquarius, Pisces][i]
  }

  /** `signs.indexOf(sign)` finds every sign, so `SignAt` undoes `Index`. */
  lemma SignAtIndex(s: Sign)
    ensures SignAt(Index(s)) == s
  {
  }

  /** The key under which a sign is stored in `ZODIAC_SIGNS`. */
  function Name(s: Sign): string {
    match s
    case Aries => "Aries" case Taurus => "Taurus" case Gemini => "Gemini"
    case Cancer => "Cancer" case Leo => "Leo" case Virgo => "Virgo"
    case Libra => "Libra" case Scorpio => "Scorpio" case Sagittarius => "Sagittarius"
    case Capricorn => "Capricorn" case Aquarius => "Aquarius" case Pisces => "Pisces"
  }

  /** The `ZODIAC_SIGNS` key a name denotes, if it is one. */
  function SignNamed(name: string): (r: Option<Sign>)
    ensures r.Some? ==> Name(r.value) == name
    ensures r.None? ==> forall s: Sign :: Name(s) != name
  {
    if name == "Aries" then Some(Aries)
    else if name == "Taurus" then Some(Taurus)
    else if name == "Gemini" then Some(Gemini)
    else if name == "Cancer" then Some(Cancer)
    else if name == "Leo" then Some(Leo)
    else if name == "Virgo" then Some(Virgo)
    else if name == "Libra" then Some(Libra)
    else if name == "Scorpio" then Some(Scorpio)
    else if name == "Sagittarius" then Some(Sagittarius)
    else if name == "Capricorn" then Some(Capricorn)
    else if name == "Aquarius" then Some(Aquarius)
    else if name == "Pisces" then Some(Pisces)
    else None
  }

  datatype SignData = SignData(name: string, symbol: string, element: string, description: string)

  /** The `symbol` column of `ZODIAC_SIGNS`. */
  function Symbol(s: Sign): string {
    match s
    case Aries => "♈" case Taurus => "♉" case Gemini => "♊"
    case Cancer => "♋" case Leo => "♌" case Virgo => "♍"
    case Libra => "♎" case Scorpio => "♏" case Sagittarius => "♐"
    case Capricorn => "♑" case Aquarius => "♒" case Pisces => "♓"
  }

  /** The `element` column of `ZODIAC_SIGNS`. */
  function Element(s: Sign): string {
    match s
    case Aries => "Fire" case Taurus => "Earth" case Gemini => "Air"
    case Cancer => "Water" case Leo => "Fire" case Virgo => "Earth"
    case Libra => "Air" case Scorpio => "Water" case Sagittarius => "Fire"
    case Capricorn => "Earth" case Aquarius => "Air" case Pisces => "Water"
  }

  /** The `description` column of `ZODIAC_SIGNS`. */
  function Description(s: Sign): string {
    match s
    case Aries => "Bold, ambitious, and driven by a pioneering spirit"
    case Taurus => "Grounded, sensual, and drawn to beauty and stability"
    case Gemini => "Curious, adaptable, and intellectually restless"
    case Cancer => "Nurturing, intuitive, and deeply connected to home"
    case Leo => "Creative, generous, and naturally drawn to the spotlight"
    case Virgo => "Analytical, detail-oriented, and driven to be of service"
    case Libra => "Diplomatic, aesthetic, and driven by harmony"
    case Scorpio => "Intense, transformative, and drawn to life's mysteries"
    case Sagittarius => "Adventurous, philosophical, and driven by freedom"
    case Capricorn => "Ambitious, disciplined, and focused on achievement"
    case Aquarius => "Independent, innovative, and driven by ideals"
    case Pisces => "Compassionate, imaginative, and spiritually attuned"
  }

  /** The `ZODIAC_SIGNS` record of a sign, read column by column; each
      record's `name` is the key it is stored under. */
  function Data(s: Sign): SignData {
    SignData(Name(s), Symbol(s), Element(s), Description(s))
  }

  /** `SIGN_MODALITIES`. */
  function Modality(s: Sign): string {
    match s
    case Aries => "Cardinal" case Taurus => "Fixed" case Gemini => "Mutable"
    case Cancer => "Cardinal" case Leo => "Fixed" case Virgo => "Mutable"
    case Libra => "Cardinal" case Scorpio => "Fixed" case Sagittarius => "Mutable"
    case Capricorn => "Cardinal" case Aquarius => "Fixed" case Pisces => "Mutable"
  }

  /** `SIGN_POLARITIES`. */
  function Polarity(s: Sign): string {
    match s
    case Aries => "Masculine" case Taurus => "Feminine" case Gemini => "Masculine"
    case Cancer => "Feminine" case Leo => "Masculine" case Virgo => "Feminine"
    case Libra => "Masculine" case Scorpio => "Feminine" case Sagittarius => "Masculine"
    case Capricorn => "Feminine" case Aquarius => "Masculine" case Pisces => "Feminine"
  }

  /** Modality repeats every three signs. */
  lemma ModalityCycle(s: Sign)
    ensures Modality(s) == ["Cardinal", "Fixed", "Mutable"][Index(s) % 3]
  {
    match s
    case Aries => case Taurus => case Gemini =>
    case Cancer => case Leo => case Virgo =>
    case Libra => case Scorpio => case Sagittarius =>
    case Capricorn => case Aquarius => case Pisces =>
  }

  /** Polarity alternates. */
  lemma PolarityCycle(s: Sign)
    ensures Polarity(s) == ["Masculine", "Feminine"][Index(s) % 2]
  {
    match s
    case Aries => case Taurus => case Gemini =>
    case Cancer => case Leo => case Virgo =>
    case Libra => case Scorpio => case Sagittarius =>
    case Capricorn => case Aquarius => case Pisces =>
  }

  /** The element repeats every four signs. */
  lemma ElementCycle(s: Sign)
    ensures Element(s) == ["Fire", "Earth", "Air", "Water"][Index(s) % 4]
  {
    match s
    case Aries => case Taurus => case Gemini =>
    case Cancer => case Leo => case Virgo =>
    case Libra => case Scorpio => case Sagittarius =>
    case Capricorn => case Aquarius => case Pisces =>
  }

  /** The three tables follow the zodiac's cycles: modality repeats every
      three signs, polarity every two, element every four. */
  lemma TablesFollowZodiacCycles(s: Sign)
    ensures Modality(s) == ["Cardinal", "Fixed", "Mutable"][Index(s) % 3]
    ensures Polarity(s) == ["Masculine", "Feminine"][Index(s) % 2]
    ensures Data(s).element == ["Fire", "Earth", "Air", "Water"][Index(s) % 4]
  {
    ModalityCycle(s);
    PolarityCycle(s);
    ElementCycle(s);
  }

  /** Every sign's name is a key of `ZODIAC_SIGNS`, and only its own. */
  lemma NameIsKey(s: Sign)
    ensures SignNamed(Name(s)) == Some(s)
  {
  }

  lemma UndefinedIsNoKey()
    ensures SignNamed("undefined") == None
  {
  }

  lemma AscendantNameIsKey(asc: Option<Sign>)
    ensures asc.Some? ==> SignNamed(Name(asc.value)) == Some(asc.value)
  {
    if asc.Some? {
      NameIsKey(asc.value);
    }
  }

  /** `getSignData`: the record stored under `name`, Aries' for any other name. */
  function GetSignData(name: string): (d: SignData)
    ensures SignNamed(name).Some? ==> d.name == name && d == Data(SignNamed(name).value)
    ensures SignNamed(name).None? ==> d == Data(Aries)
  {
    match SignNamed(name)
    case Some(s) => Data(s)
    case None => Data(Aries)
  }

  // ---------------------------------------------------------------------------
  // The calendar every sun-sign table is checked against

  /** The last day of month `m` (1..12) that still belongs to the sign whose
      range ends in that month. */
  function Cusp(m: int): (c: int)
    requires 1 <= m <= 12
    ensures 18 <= c <= 22
  {
    match m
    case 1 => 19 case 2 => 18 case 3 => 20 case 4 => 19
    case 5 => 20 case 6 => 20 case 7 => 22 case 8 => 22
    case 9 => 22 case 10 => 22 case 11 => 21 case _ => 21
  }

  /** Reference sun sign of a date in month `m`: the sign whose range ends in
      `m` (Capricorn for January, Aquarius for February, ...) up to the cusp,
      the next sign after it. */
  function CalendarSign(m: int, d: int): (s: Sign)
    requires 1 <= m <= 12
  {
    SignAt((m + 8 + (if d <= Cusp(m) then 0 else 1)) % 12)
  }

  // ---------------------------------------------------------------------------
  // calculateSunSign

  /** `MONTH_MAP` of zodiac-utils: lower-case English month names. */
  function LowerMonthNumber(name: string): (r: Option<int>)
    ensures r.Some? ==> 1 <= r.value <= 12 && name != [] && IsLowerAscii(name[0])
  {
    if name == "january" then Some(1)
    else if name == "february" then Some(2)
    else if name == "march" then Some(3)
    else if name == "april" then Some(4)
    else if name == "may" then Some(5)
    else if name == "june" then Some(6)
    else if name == "july" then Some(7)
    else if name == "august" then Some(8)
    else if name == "september" then Some(9)
    else if name == "october" then Some(10)
    else if name == "november" then Some(11)
    else if name == "december" then Some(12)
    else None
  }

  /** `MONTH_MAP[month.toLowerCase()] || parseInt(month)`; `None` is NaN. */
  function ResolveMonth(month: string): (r: Option<int>)
    ensures LowerMonthNumber(Lower(month)).Some? ==> r == LowerMonthNumber(Lower(month))
    ensures LowerMonthNumber(Lower(month)).None? ==> r == ParseInt(month)
  {
    match LowerMonthNumber(Lower(month))
    case Some(m) => Some(m)
    case None => ParseInt(month)
  }

  datatype SunEntry = SunEntry(sign: Sign, endMonth: int, endDay: int)

  /** The `signs` table of calculateSunSign, in its order. */
  const SunTable: seq<SunEntry> := [
    SunEntry(Capricorn, 1, 19),
    SunEntry(Aquarius, 2, 18),
    SunEntry(Pisces, 3, 20),
    SunEntry(Aries, 4, 19),
    SunEntry(Taurus, 5, 20),
    SunEntry(Gemini, 6, 20),
    SunEntry(Cancer, 7, 22),
    SunEntry(Leo, 8, 22),
    SunEntry(Virgo, 9, 22),
    SunEntry(Libra, 10, 22),
    SunEntry(Scorpio, 11, 21),
    SunEntry(Sagittarius, 12, 21),
    SunEntry(Capricorn, 12, 31)
  ]

  /** The loop test: the entry's end date is on or after (m, d). */
  predicate EndsOnOrAfter(e: SunEntry, m: int, d: int) {
    m < e.endMonth || (m == e.endMonth && d <= e.endDay)
  }

  /** The loop of calculateSunSign: the first entry ending on or after the
      date, Capricorn when none does. */
  function ScanSunTable(t: seq<SunEntry>, m: int, d: int): Sign {
    if t == [] then Capricorn
    else if EndsOnOrAfter(t[0], m, d) then t[0].sign
    else ScanSunTable(t[1..], m, d)
  }

  /** The scan returns the sign of the first entry ending on or after the
      date, and Capricorn when there is none. */
  lemma {:induction false} ScanIsFirstMatch(t: seq<SunEntry>, m: int, d: int)
    ensures (forall i :: 0 <= i < |t| ==> !EndsOnOrAfter(t[i], m, d)) ==> ScanSunTable(t, m, d) == Capricorn
    ensures forall i :: 0 <= i < |t| && EndsOnOrAfter(t[i], m, d) && FirstEnding(t, i, m, d) ==>
              ScanSunTable(t, m, d) == t[i].sign
  {
    if t != [] {
      ScanIsFirstMatch(t[1..], m, d);
      forall i | 1 <= i < |t| && FirstEnding(t, i, m, d)
        ensures FirstEnding(t[1..], i - 1, m, d)
      {
        forall j | 0 <= j < i - 1 ensures !EndsOnOrAfter(t[1..][j], m, d) {
          assert t[1..][j] == t[j + 1];
        }
      }
      forall i | 1 <= i < |t| ensures t[1..][i - 1] == t[i] { }
    }
  }

  /** No entry before position i ends on or after (m, d). */
  predicate FirstEnding(t: seq<SunEntry>, i: int, m: int, d: int)
    requires 0 <= i <= |t|
  {
    forall j :: 0 <= j < i ==> !EndsOnOrAfter(t[j], m, d)
  }

  /** calculateSunSign on already-resolved numbers (`None` = NaN). */
  function SunSignOf(m: Option<int>, d: Option<int>): (s: Sign)
    ensures !TruthyNum(m) || !TruthyNum(d) ==> s == Aries
  {
    if !TruthyNum(m) || !TruthyNum(d) then Aries
    else ScanSunTable(SunTable, m.value, d.value)
  }

  /** `calculateSunSign(month, day)` on the string inputs of the onboarding form. */
  function CalculateSunSign(month: string, day: string): Sign {
    SunSignOf(ResolveMonth(month), ParseInt(day))
  }

  /** The shape that makes a first-match table agree with the calendar:
      entry i ends in month i+1 on its cusp and belongs to the sign ending
      there, and a last Capricorn entry closes December. */
  predicate SunTableShape(t: seq<SunEntry>) {
    && |t| == 13
    && (forall i :: 0 <= i < 12 ==>
          t[i].endMonth == i + 1 && t[i].endDay == Cusp(i + 1)
          && Index(t[i].sign) == (i + 9) % 12)
    && t[12] == SunEntry(Capricorn, 12, 31)
  }

  lemma SunTableHasShape()
    ensures SunTableShape(SunTable)
  {
    WinterEntries();
    SummerEntries();
    AutumnEntries();
  }

  /** Entries 0..3 of the table have the shape. */
  lemma WinterEntries()
    ensures var t := SunTable;
            forall i :: 0 <= i < 4 ==>
              t[i].endMonth == i + 1 && t[i].endDay == Cusp(i + 1) && Index(t[i].sign) == (i + 9) % 12
  {
    var t := SunTable;
    assert t[0].endMonth == 1 && t[0].endDay == Cusp(1) && Index(t[0].sign) == 9;
    assert t[1].endMonth == 2 && t[1].endDay == Cusp(2) && Index(t[1].sign) == 10;
    assert t[2].endMonth == 3 && t[2].endDay == Cusp(3) && Index(t[2].sign) == 11;
    assert t[3].endMonth == 4 && t[3].endDay == Cusp(4) && Index(t[3].sign) == 0;
  }

  /** Entries 4..7 of the table have the shape. */
  lemma SummerEntries()
    ensures var t := SunTable;
            forall i :: 4 <= i < 8 ==>
              t[i].endMonth == i + 1 && t[i].endDay == Cusp(i + 1) && Index(t[i].sign) == (i + 9) % 12
  {
    var t := SunTable;
    assert t[4].endMonth == 5 && t[4].endDay == Cusp(5) && Index(t[4].sign) == 1;
    assert t[5].endMonth == 6 && t[5].endDay == Cusp(6) && Index(t[5].sign) == 2;
    assert t[6].endMonth == 7 && t[6].endDay == Cusp(7) && Index(t[6].sign) == 3;
    assert t[7].endMonth == 8 && t[7].endDay == Cusp(8) && Index(t[7].sign) == 4;
  }

  /** Entries 8..11 of the table have the shape. */
  lemma AutumnEntries()
    ensures var t := SunTable;
            forall i :: 8 <= i < 12 ==>
              t[i].endMonth == i + 1 && t[i].endDay == Cusp(i + 1) && Index(t[i].sign) == (i + 9) % 12
  {
    var t := SunTable;
    assert t[8].endMonth == 9 && t[8].endDay == Cusp(9) && Index(t[8].sign) == 5;
    assert t[9].endMonth == 10 && t[9].endDay == Cusp(10) && Index(t[9].sign) == 6;
    assert t[10].endMonth == 11 && t[10].endDay == Cusp(11) && Index(t[10].sign) == 7;
    assert t[11].endMonth == 12 && t[11].endDay == Cusp(12) && Index(t[11].sign) == 8;
  }

  /** Entries ending in an earlier month never stop the scan. */
  lemma {:induction false} ScanSkipsEarlierMonths(t: seq<SunEntry>, k: nat, m: int, d: int)
    requires k <= |t|
    requires forall j :: 0 <= j < k ==> t[j].endMonth < m
    ensures ScanSunTable(t, m, d) == ScanSunTable(t[k..], m, d)
  {
    if k > 0 {
      assert !EndsOnOrAfter(t[0], m, d);
      ScanSkipsEarlierMonths(t[1..], k - 1, m, d);
      assert t[1..][k - 1..] == t[k..];
    }
  }

  /** Any table of that shape computes the calendar sign for every month
      1..12 and every day number. */
  lemma ShapedScanIsCalendar(t: seq<SunEntry>, m: int, d: int)
    requires SunTableShape(t) && 1 <= m <= 12
    ensures ScanSunTable(t, m, d) == CalendarSign(m, d)
  {
    ScanSkipsEarlierMonths(t, m - 1, m, d);
    var rest := t[m - 1..];
    var e := t[m - 1];
    assert rest[0] == e;
    if d <= Cusp(m) {
      assert EndsOnOrAfter(e, m, d);
      assert ScanSunTable(t, m, d) == e.sign;
      SignAtIndex(e.sign);
    } else {
      var next := t[m];
      assert rest[1..][0] == next;
      assert !EndsOnOrAfter(e, m, d);
      assert ScanSunTable(t, m, d) == ScanSunTable(rest[1..], m, d);
      if m == 12 && d > 31 {
        assert !EndsOnOrAfter(next, m, d);
        assert rest[1..][1..] == [];
        assert ScanSunTable(rest[1..], m, d) == ScanSunTable([], m, d);
      } else {
        assert EndsOnOrAfter(next, m, d);
        assert ScanSunTable(t, m, d) == next.sign;
        assert Index(next.sign) == (m + 9) % 12;
        SignAtIndex(next.sign);
      }
    }
  }

  /** calculateSunSign follows the calendar: for month 1..12 and a non-zero
      day the result is the first table entry ending on or after the date,
      which is the calendar sign (so Jan 1-19 and Dec 22-31 are Capricorn). */
  lemma SunSignIsCalendar(m: int, d: int)
    requires 1 <= m <= 12 && d != 0
    ensures SunSignOf(Some(m), Some(d)) == CalendarSign(m, d)
  {
    SunTableHasShape();
    ShapedScanIsCalendar(SunTable, m, d);
  }

  /** Both ends of the year fall to Capricorn. */
  lemma CapricornWrapsTheYear(d: int)
    ensures 1 <= d <= 19 ==> SunSignOf(Some(1), Some(d)) == Capricorn
    ensures 22 <= d ==> SunSignOf(Some(12), Some(d)) == Capricorn
  {
    if d != 0 {
      SunSignIsCalendar(1, d);
      SunSignIsCalendar(12, d);
    }
  }

  /** Month names are recognised in any ASCII letter case. */
  lemma MonthNamesIgnoreCase(month: string)
    ensures ResolveMonth(Lower(month)) == ResolveMonth(month)
  {
    LowerIdempotent(month);
    var lm := LowerMonthNumber(Lower(month));
    if lm.None? {
      // Neither spelling is a month name; both fall back to parseInt, which
      // only sees non-letters where case matters.
      ParseIntIgnoresCase(month);
    }
  }

  /** parseInt reads signs, digits and blanks only, which lower-casing keeps. */
  lemma ParseIntIgnoresCase(s: string)
    ensures ParseInt(Lower(s)) == ParseInt(s)
  {
    LowerKeepsTrimStart(s);
    ParseSignedIgnoresCase(TrimStart(s));
  }

  lemma ParseSignedIgnoresCase(t: string)
    ensures ParseSigned(Lower(t)) == ParseSigned(t)
  {
    if t != [] {
      var lt := Lower(t);
      assert lt[0] == LowerChar(t[0]);
      assert lt[1..] == Lower(t[1..]);
      LowerKeepsDigitParse(t[1..]);
      LowerKeepsDigitParse(t);
    }
  }

  lemma {:induction false} LowerKeepsTrimStart(s: string)
    ensures TrimStart(Lower(s)) == Lower(TrimStart(s))
  {
    if s != [] {
      var ls := Lower(s);
      assert ls[0] == LowerChar(s[0]) && ls[1..] == Lower(s[1..]);
      if IsSpace(s[0]) {
        LowerKeepsTrimStart(s[1..]);
      }
    }
  }

  lemma {:induction false} LowerKeepsDigitPrefix(s: string)
    ensures DigitPrefix(Lower(s)) == DigitPrefix(s)
    ensures Lower(s)[..DigitPrefix(s)] == s[..DigitPrefix(s)]
  {
    if s != [] {
      var ls := Lower(s);
      assert ls[0] == LowerChar(s[0]);
      assert ls[1..] == Lower(s[1..]);
      LowerKeepsDigitPrefix(s[1..]);
      if IsDigit(s[0]) {
        assert DigitPrefix(ls) == 1 + DigitPrefix(ls[1..]);
      }
    }
    var k := DigitPrefix(s);
    forall i | 0 <= i < k
      ensures Lower(s)[i] == s[i]
    {
      LowerAt(s, i);
      assert s[..k][i] == s[i];
    }
  }

  lemma LowerKeepsDigitParse(s: string)
    ensures UnsignedParse(Lower(s)) == UnsignedParse(s)
  {
    LowerKeepsDigitPrefix(s);
  }

  // ---------------------------------------------------------------------------
  // approximateAscendant

  /** JavaScript's `%`: the remainder takes the sign of the dividend. */
  function JsRem(a: int, b: int): (r: int)
    requires b > 0
    ensures -b < r < b
    ensures a >= 0 ==> r == a % b
    ensures a < 0 ==> r <= 0
    ensures a == b * JsQuot(a, b) + r
  {
    if a >= 0 then a % b
    else
      var q := (-a) / b;
      assert -a == b * q + (-a) % b;
      assert b * -q == -(b * q);
      -((-a) % b)
  }

  /** The quotient JavaScript's `%` pairs with: division truncated toward
      zero. */
  function JsQuot(a: int, b: int): int
    requires b > 0
  {
    if a >= 0 then a / b else -((-a) / b)
  }

  /** `((x % 12) + 12) % 12` in JavaScript is the mathematical residue. */
  lemma JsResidue(x: int)
    ensures JsRem(JsRem(x, 12) + 12, 12) == x % 12
  {
    if x < 0 {
      var q := (-x) / 12;
      var r := (-x) % 12;
      assert -x == 12 * q + r;
      if r == 0 {
        assert x == 12 * (-q);
      } else {
        assert x == 12 * (-q - 1) + (12 - r);
      }
    }
  }

  /** The 12-hour to 24-hour conversion: PM adds 12 except at 12 PM, 12 AM
      becomes 0, other periods leave the hour alone (NaN stays NaN). */
  function To24Hour(h: Option<int>, period: string): (r: Option<int>)
    ensures r.None? <==> h.None?
    ensures Upper(period) == "PM" && h.Some? && h.value != 12 ==> r == Some(h.value + 12)
    ensures Upper(period) == "AM" && h == Some(12) ==> r == Some(0)
    ensures Upper(period) != "PM" && !(Upper(period) == "AM" && h == Some(12)) ==> r == h
    ensures Upper(period) == "PM" && h == Some(12) ==> r == h
  {
    var p := Upper(period);
    var h1 := if p == "PM" && h != Some(12) then (if h.Some? then Some(h.value + 12) else None) else h;
    if p == "AM" && h1 == Some(12) then Some(0) else h1
  }

  /** On a 12-hour clock reading the conversion is a bijection onto 0..23:
      the hour keeps its residue mod 12 and PM readings land in 12..23. */
  lemma To24HourIsClock(h: int, pm: bool)
    requires 1 <= h <= 12
    ensures var r := To24Hour(Some(h), if pm then "PM" else "AM");
      r.Some? && 0 <= r.value < 24 && r.value % 12 == h % 12 && (r.value >= 12 <==> pm)
  {
    UpperOfPeriods();
  }

  lemma UpperOfPeriods()
    ensures Upper("AM") == "AM" && Upper("PM") == "PM"
  {
    assert Upper("M") == "M";
  }

  /** The sign index reached `minutes` after midnight, counting one sign per
      120 minutes from the sun sign at 06:00, with JavaScript's floor
      division and remainder. */
  function AscendantIndex(sun: Sign, minutes: int): (i: int)
    ensures 0 <= i < 12
    ensures i == (Index(sun) + (minutes - 360) / 120) % 12
  {
    var offset := (minutes - 360) / 120;
    JsResidue(Index(sun) + offset);
    JsRem(JsRem(Index(sun) + offset, 12) + 12, 12)
  }

  /** approximateAscendant on resolved numbers; `None` when the hour is NaN
      (the source then indexes `signs` with NaN and returns undefined). */
  function AscendantOf(m: Option<int>, d: Option<int>, h: Option<int>, min: Option<int>, period: string): (r: Option<Sign>)
    ensures r.None? <==> h.None?
  {
    match To24Hour(h, period)
    case None => None
    case Some(hour) =>
      var minutes := hour * 60 + NumOrZero(min);
      Some(SignAt(AscendantIndex(SunSignOf(m, d), minutes)))
  }

  /** `approximateAscendant(month, day, hour, minute, period)` on strings. */
  function ApproximateAscendant(month: string, day: string, hour: string, minute: string, period: string): Option<Sign> {
    AscendantOf(ResolveMonth(month), ParseInt(day), ParseInt(hour), ParseInt(minute), period)
  }

  /** At 06:00 the ascendant is the sun sign. */
  lemma AscendantAtSunrise(m: Option<int>, d: Option<int>)
    ensures AscendantOf(m, d, Some(6), Some(0), "AM") == Some(SunSignOf(m, d))
  {
    UpperOfPeriods();
    assert To24Hour(Some(6), "AM") == Some(6);
    var sun := SunSignOf(m, d);
    assert AscendantOf(m, d, Some(6), Some(0), "AM") == Some(SignAt(AscendantIndex(sun, 360)));
    RisingAtSix(sun);
  }

  /** At 360 minutes past midnight the ascendant index is the sun's own. */
  lemma RisingAtSix(sun: Sign)
    ensures SignAt(AscendantIndex(sun, 360)) == sun
  {
    var k := Index(sun);
    assert (360 - 360) / 120 == 0;
    assert k % 12 == k;
    SignAtIndex(sun);
  }

  /** Every further 120 minutes moves the ascendant one sign on, mod 12. */
  lemma AscendantAdvancesEveryTwoHours(sun: Sign, minutes: int)
    ensures AscendantIndex(sun, minutes + 120) == (AscendantIndex(sun, minutes) + 1) % 12
  {
    var a := minutes - 360;
    var q := a / 120;
    assert a + 120 == 120 * (q + 1) + a % 120;
    assert (a + 120) / 120 == q + 1;
    StepResidue(Index(sun) + q);
  }

  /** One step on is one step on modulo 12. */
  lemma StepResidue(x: int)
    ensures (x + 1) % 12 == (x % 12 + 1) % 12
  {
    var q := x / 12;
    var r := x % 12;
    assert x == 12 * q + r;
    if r < 11 {
      assert x + 1 == 12 * q + (r + 1);
    } else {
      assert x + 1 == 12 * (q + 1);
    }
  }

  // ---------------------------------------------------------------------------
  // calculateInstantSigns

  datatype InstantSigns = InstantSigns(sunSign: SignData, ascendant: SignData, modality: string, polarity: string)

  /** `calculateInstantSigns` without the moon sign. Optional inputs are ""
      when absent (both are falsy). The ascendant falls back to the sun sign
      when hour or period is missing; modality and polarity come from the
      sun sign. */
  function CalculateInstantSigns(month: string, day: string, hour: string, minute: string, period: string): (r: InstantSigns)
    ensures r.sunSign == Data(CalculateSunSign(month, day))
    ensures hour == "" || period == "" ==> r.ascendant == r.sunSign
    ensures hour != "" && period != "" ==>
      match ApproximateAscendant(month, day, hour, if minute == "" then "0" else minute, period)
      case Some(a) => r.ascendant == Data(a)
      case None => r.ascendant == Data(Aries)
    ensures r.modality == Modality(CalculateSunSign(month, day))
    ensures r.polarity == Polarity(CalculateSunSign(month, day))
  {
    var sun := CalculateSunSign(month, day);
    var asc := ApproximateAscendant(month, day, hour, if minute == "" then "0" else minute, period);
    var ascName :=
      if hour != "" && period != "" then
        (if asc.Some? then Name(asc.value) else "undefined")
      else Name(sun);
    NameIsKey(sun);
    UndefinedIsNoKey();
    AscendantNameIsKey(asc);
    InstantSigns(GetSignData(Name(sun)), GetSignData(ascName), Modality(sun), Polarity(sun))
  }
}
