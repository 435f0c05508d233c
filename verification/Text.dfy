/** The text forms a stored plan uses: decimal numbers, ISO 8601 calendar dates
    (ISO 8601-1:2019 section 5.2.2) and UUIDs (RFC 9562 section 4). */
module Text {
  import opened Wrappers
  import opened Calendar

  // Digits ------------------------------------------------------------------

  const DIGITS := "0123456789abcdef"

  function DigitChar(v: nat): char
    requires v < 16
  {
    DIGITS[v]
  }

  /** Upper and lower case letters have the same value. */
  function DigitValue(c: char): Option<nat> {
    if '0' <= c <= '9' then Some(c as int - '0' as int)
    else if 'a' <= c <= 'f' then Some(c as int - 'a' as int + 10)
    else if 'A' <= c <= 'F' then Some(c as int - 'A' as int + 10)
    else None
  }

  lemma DigitRoundTrip(v: nat)
    requires v < 16
    ensures DigitValue(DigitChar(v)) == Some(v)
  {
  }

  function Power(base: nat, width: nat): nat {
    if width == 0 then 1 else base * Power(base, width - 1)
  }

  /** `n` in `width` digits, with leading zeros. */
  function Digits(n: nat, base: nat, width: nat): (s: string)
    requires 2 <= base <= 16
    ensures |s| == width
  {
    if width == 0 then [] else Digits(n / base, base, width - 1) + [DigitChar(n % base)]
  }

  /** The value of a string of digits; a character that is no digit of the base spoils it. */
  function Number(s: string, base: nat): Option<nat> {
    if s == [] then Some(0)
    else
      var init, last := Number(s[..|s| - 1], base), DigitValue(s[|s| - 1]);
      if init.Some? && last.Some? && last.value < base then Some(init.value * base + last.value) else None
  }

  lemma {:induction false} HexRoundTrip(n: nat, width: nat)
    requires n < Power(16, width)
    ensures Number(Digits(n, 16, width), 16) == Some(n)
  {
    if 0 < width {
      HexRoundTrip(n / 16, width - 1);
      DigitRoundTrip(n % 16);
      NumberStep(Digits(n / 16, 16, width - 1), DigitChar(n % 16), 16);
    }
  }

  lemma {:induction false} DecimalRoundTrip(n: nat, width: nat)
    requires n < Power(10, width)
    ensures Number(Digits(n, 10, width), 10) == Some(n)
  {
    if 0 < width {
      DecimalRoundTrip(n / 10, width - 1);
      DigitRoundTrip(n % 10);
      NumberStep(Digits(n / 10, 10, width - 1), DigitChar(n % 10), 10);
    }
  }

  lemma NumberStep(s: string, c: char, base: nat)
    ensures var init, last := Number(s, base), DigitValue(c);
            Number(s + [c], base) ==
            if init.Some? && last.Some? && last.value < base then Some(init.value * base + last.value) else None
  {
    assert (s + [c])[..|s|] == s;
  }

  /** No digit is a dash. */
  lemma {:induction false} DigitsNoDash(n: nat, base: nat, width: nat)
    requires 2 <= base <= 16
    ensures '-' !in Digits(n, base, width)
  {
    if 0 < width {
      DigitsNoDash(n / base, base, width - 1);
      DigitNoDash(n % base);
    }
  }

  lemma DigitNoDash(v: nat)
    requires v < 16
    ensures DigitChar(v) != '-'
  {
  }

  /** A number as text. */
  function Decimal(n: int): string
    decreases if n < 0 then 1 - n else n
  {
    if n < 0 then "-" + Decimal(-n)
    else if n < 10 then [DigitChar(n)]
    else Decimal(n / 10) + [DigitChar(n % 10)]
  }

  // UUIDs -------------------------------------------------------------------

  predicate IsUuid(id: nat) {
    id < Power(16, 32)
  }

  /** The 32 digits in groups of eight, four, four, four and twelve. */
  function UuidText(id: nat): string {
    var d := Digits(id, 16, 32);
    d[..8] + "-" + d[8..12] + "-" + d[12..16] + "-" + d[16..20] + "-" + d[20..]
  }

  function WithoutDashes(s: string): string {
    if s == [] then []
    else if s[0] == '-' then WithoutDashes(s[1..])
    else [s[0]] + WithoutDashes(s[1..])
  }

  /** Dashes are ignored wherever they are; what remains must be 32 hexadecimal digits. */
  function ParseUuid(s: string): Option<nat> {
    var d := WithoutDashes(s);
    if |d| == 32 then Number(d, 16) else None
  }

  lemma {:induction false} NoDashesLeft(s: string)
    requires '-' !in s
    ensures WithoutDashes(s) == s
  {
    if s != [] {
      assert s == [s[0]] + s[1..];
      NoDashesLeft(s[1..]);
    }
  }

  lemma {:induction false} DashesConcat(x: string, y: string)
    ensures WithoutDashes(x + y) == WithoutDashes(x) + WithoutDashes(y)
  {
    if x == [] {
      assert x + y == y;
    } else {
      assert (x + y)[1..] == x[1..] + y;
      DashesConcat(x[1..], y);
    }
  }

  /** A dash between two texts without dashes is dropped. */
  lemma DropDash(x: string, y: string)
    requires '-' !in x
    ensures WithoutDashes(x + "-" + y) == x + WithoutDashes(y)
  {
    DashesConcat(x + "-", y);
    DashesConcat(x, "-");
    NoDashesLeft(x);
    assert WithoutDashes("-") == [];
  }

  lemma GroupsWithoutDashes(g1: string, g2: string, g3: string, g4: string, g5: string)
    requires '-' !in g1 && '-' !in g2 && '-' !in g3 && '-' !in g4 && '-' !in g5
    ensures WithoutDashes(g1 + "-" + (g2 + "-" + (g3 + "-" + (g4 + "-" + g5)))) == g1 + (g2 + (g3 + (g4 + g5)))
  {
    DropDash(g4, g5);
    DropDash(g3, g4 + "-" + g5);
    DropDash(g2, g3 + "-" + (g4 + "-" + g5));
    DropDash(g1, g2 + "-" + (g3 + "-" + (g4 + "-" + g5)));
    NoDashesLeft(g5);
  }

  lemma Regroup(g1: string, g2: string, g3: string, g4: string, g5: string)
    ensures g1 + "-" + g2 + "-" + g3 + "-" + g4 + "-" + g5 == g1 + "-" + (g2 + "-" + (g3 + "-" + (g4 + "-" + g5)))
  {
  }

  lemma UuidRoundTrip(id: nat)
    requires IsUuid(id)
    ensures ParseUuid(UuidText(id)) == Some(id)
    ensures UuidText(id) != ""
  {
    var d := Digits(id, 16, 32);
    DigitsNoDash(id, 16, 32);
    GroupsWithoutDashes(d[..8], d[8..12], d[12..16], d[16..20], d[20..]);
    Regroup(d[..8], d[8..12], d[12..16], d[16..20], d[20..]);
    assert d[..8] + (d[8..12] + (d[12..16] + (d[16..20] + d[20..]))) == d;
    HexRoundTrip(id, 32);
  }

  // Calendar dates ------------------------------------------------------------

  datatype Ymd = Ymd(year: int, month: int, day: int)

  predicate IsLeap(year: int) {
    year % 4 == 0 && (year % 100 != 0 || year % 400 == 0)
  }

  function DaysInMonth(year: int, month: int): int {
    if month == 2 then (if IsLeap(year) then 29 else 28)
    else if month == 4 || month == 6 || month == 9 || month == 11 then 30
    else 31
  }

  /** The days before the first of January of a year. */
  function DaysBeforeYear(year: int): int {
    var y := year - 1;
    y * 365 + y / 4 - y / 100 + y / 400
  }

  function DaysBeforeMonth(year: int, month: nat): int {
    if month <= 1 then 0 else DaysBeforeMonth(year, month - 1) + DaysInMonth(year, month - 1)
  }

  lemma YearLength(year: int)
    ensures DaysBeforeYear(year + 1) - DaysBeforeYear(year) == if IsLeap(year) then 366 else 365
  {
    var y := year - 1;
    assert (y + 1) / 4 - y / 4 == if (y + 1) % 4 == 0 then 1 else 0;
    assert (y + 1) / 100 - y / 100 == if (y + 1) % 100 == 0 then 1 else 0;
    assert (y + 1) / 400 - y / 400 == if (y + 1) % 400 == 0 then 1 else 0;
  }

  lemma MonthsFillYear(year: int)
    ensures DaysBeforeMonth(year, 12) + 31 == if IsLeap(year) then 366 else 365
  {
    var feb := DaysInMonth(year, 2);
    assert DaysBeforeMonth(year, 1) == 0;
    assert DaysBeforeMonth(year, 2) == 31;
    assert DaysBeforeMonth(year, 3) == 31 + feb;
    assert DaysBeforeMonth(year, 4) == 62 + feb;
    assert DaysBeforeMonth(year, 5) == 92 + feb;
    assert DaysBeforeMonth(year, 6) == 123 + feb;
    assert DaysBeforeMonth(year, 7) == 153 + feb;
    assert DaysBeforeMonth(year, 8) == 184 + feb;
    assert DaysBeforeMonth(year, 9) == 215 + feb;
    assert DaysBeforeMonth(year, 10) == 245 + feb;
    assert DaysBeforeMonth(year, 11) == 276 + feb;
    assert DaysBeforeMonth(year, 12) == 306 + feb;
  }

  const MIN_YEAR := 1
  const MAX_YEAR := 9999

  /** The days of the years 1 to 9999. */
  predicate IsDate(day: Date) {
    1 <= day <= DaysBeforeYear(MAX_YEAR + 1)
  }

  predicate IsYmd(d: Ymd) {
    MIN_YEAR <= d.year <= MAX_YEAR && 1 <= d.month <= 12 && 1 <= d.day <= DaysInMonth(d.year, d.month)
  }

  function ToOrdinal(d: Ymd): Date
    requires 1 <= d.month
  {
    DaysBeforeYear(d.year) + DaysBeforeMonth(d.year, d.month) + d.day
  }

  /** The year of the n-th day, looking from `year` on. */
  function YearOf(n: int, year: int): (y: int)
    requires DaysBeforeYear(year) < n
    ensures year <= y && DaysBeforeYear(y) < n <= DaysBeforeYear(y + 1)
    decreases n - DaysBeforeYear(year)
  {
    YearLength(year);
    if n <= DaysBeforeYear(year + 1) then year else YearOf(n, year + 1)
  }

  /** The month of the n-th day of a year, looking from `month` on. */
  function MonthOf(year: int, n: int, month: nat): (m: nat)
    requires 1 <= month <= 12 && DaysBeforeMonth(year, month) < n <= DaysBeforeMonth(year, 12) + 31
    ensures month <= m <= 12 && DaysBeforeMonth(year, m) < n <= DaysBeforeMonth(year, m) + DaysInMonth(year, m)
    decreases 12 - month
  {
    if month == 12 || n <= DaysBeforeMonth(year, month + 1) then month else MonthOf(year, n, month + 1)
  }

  lemma {:induction false} YearsGrow(a: int, b: int)
    requires a <= b
    ensures DaysBeforeYear(a) <= DaysBeforeYear(b)
    decreases b - a
  {
    if a < b {
      YearLength(b - 1);
      YearsGrow(a, b - 1);
    }
  }

  function FromOrdinal(n: Date): (d: Ymd)
    requires IsDate(n)
    ensures IsYmd(d) && ToOrdinal(d) == n
  {
    var year := YearOf(n, MIN_YEAR);
    var inYear := n - DaysBeforeYear(year);
    YearLength(year);
    MonthsFillYear(year);
    assert year <= MAX_YEAR by {
      if MAX_YEAR < year {
        YearsGrow(MAX_YEAR + 1, year);
      }
    }
    var month := MonthOf(year, inYear, 1);
    Ymd(year, month, inYear - DaysBeforeMonth(year, month))
  }

  /** YYYY-MM-DD. */
  function DateText(day: Date): string {
    if IsDate(day) then
      var d := FromOrdinal(day);
      Digits(d.year, 10, 4) + "-" + Digits(d.month, 10, 2) + "-" + Digits(d.day, 10, 2)
    else ""
  }

  /** A calendar date in the extended format, with a month and a day that exist. */
  function ParseDate(s: string): Option<Date> {
    if |s| != 10 || s[4] != '-' || s[7] != '-' then None
    else
      var year, month, day := Number(s[..4], 10), Number(s[5..7], 10), Number(s[8..], 10);
      if year.None? || month.None? || day.None? then None
      else
        var d := Ymd(year.value, month.value, day.value);
        if IsYmd(d) then Some(ToOrdinal(d)) else None
  }

  lemma ParseParts(y: string, m: string, d: string)
    requires |y| == 4 && |m| == 2 && |d| == 2
    ensures var s := y + "-" + m + "-" + d;
            |s| == 10 && s[4] == '-' && s[7] == '-' && s[..4] == y && s[5..7] == m && s[8..] == d
  {
  }

  lemma DateRoundTrip(day: Date)
    requires IsDate(day)
    ensures ParseDate(DateText(day)) == Some(day)
    ensures DateText(day) != ""
  {
    var d := FromOrdinal(day);
    PowersOfTen();
    DecimalRoundTrip(d.year, 4);
    DecimalRoundTrip(d.month, 2);
    DecimalRoundTrip(d.day, 2);
    ParseParts(Digits(d.year, 10, 4), Digits(d.month, 10, 2), Digits(d.day, 10, 2));
  }

  lemma PowersOfTen()
    ensures Power(10, 2) == 100 && Power(10, 4) == 10000
  {
    assert Power(10, 1) == 10;
    assert Power(10, 2) == 100;
    assert Power(10, 3) == 1000;
  }

  // What the forms look like ------------------------------------------------------

  /** The Gregorian calendar: which years are leap years, and how long the months are. */
  lemma MonthLengths(year: int)
    ensures IsLeap(year) <==> year % 400 == 0 || (year % 4 == 0 && year % 100 != 0)
    ensures forall m :: m in {1, 3, 5, 7, 8, 10, 12} ==> DaysInMonth(year, m) == 31
    ensures forall m :: m in {4, 6, 9, 11} ==> DaysInMonth(year, m) == 30
    ensures DaysInMonth(year, 2) == if year % 400 == 0 || (year % 4 == 0 && year % 100 != 0) then 29 else 28
  {
  }

  /** The calendar date after another. */
  function NextDay(d: Ymd): Ymd {
    if d.day < DaysInMonth(d.year, d.month) then Ymd(d.year, d.month, d.day + 1)
    else if d.month < 12 then Ymd(d.year, d.month + 1, 1)
    else Ymd(d.year + 1, 1, 1)
  }

  /** The first of a month follows the last day of the month before. */
  lemma MonthEnd(year: int, month: nat)
    requires 1 <= month
    ensures DaysBeforeMonth(year, month + 1) == DaysBeforeMonth(year, month) + DaysInMonth(year, month)
  {
    hide DaysInMonth;
  }

  /** The first of January follows the last of December. */
  lemma YearEnd(year: int)
    ensures ToOrdinal(Ymd(year + 1, 1, 1)) == ToOrdinal(Ymd(year, 12, 31)) + 1
  {
    hide DaysBeforeYear;
    YearLength(year);
    MonthsFillYear(year);
    assert DaysBeforeMonth(year + 1, 1) == 0;
  }

  /** Ordinals count the calendar dates one by one. */
  lemma OrdinalsCount(d: Ymd)
    requires IsYmd(d)
    ensures 1 <= NextDay(d).month && ToOrdinal(NextDay(d)) == ToOrdinal(d) + 1
  {
    hide DaysBeforeMonth, DaysBeforeYear, DaysInMonth, IsLeap;
    December(d.year);
    if d.day < DaysInMonth(d.year, d.month) {
    } else if d.month < 12 {
      MonthEnd(d.year, d.month);
    } else {
      YearEnd(d.year);
    }
  }

  lemma December(year: int)
    ensures DaysInMonth(year, 12) == 31
  {
  }

  /** They start at the first of January of the year 1. */
  lemma FirstOrdinal()
    ensures ToOrdinal(Ymd(1, 1, 1)) == 1
  {
    assert DaysBeforeMonth(1, 1) == 0;
  }

  lemma {:induction false} MonthsGrow(year: int, a: nat, b: nat)
    requires 1 <= a <= b
    ensures DaysBeforeMonth(year, a) <= DaysBeforeMonth(year, b)
    ensures a < b ==> DaysBeforeMonth(year, a) + DaysInMonth(year, a) <= DaysBeforeMonth(year, b)
    decreases b - a
  {
    if a < b {
      MonthsGrow(year, a, b - 1);
    }
  }

  lemma YearHolds(d: Ymd)
    requires IsYmd(d)
    ensures DaysBeforeYear(d.year) < ToOrdinal(d) <= DaysBeforeYear(d.year + 1)
    ensures IsDate(ToOrdinal(d))
  {
    YearLength(d.year);
    MonthsFillYear(d.year);
    MonthsGrow(d.year, 1, d.month);
    MonthsGrow(d.year, d.month, 12);
    YearsGrow(MIN_YEAR, d.year);
    YearsGrow(d.year + 1, MAX_YEAR + 1);
  }

  /** Each calendar date has its own ordinal. */
  lemma FromToOrdinal(d: Ymd)
    requires IsYmd(d)
    ensures IsDate(ToOrdinal(d)) && FromOrdinal(ToOrdinal(d)) == d
  {
    YearHolds(d);
    var e := FromOrdinal(ToOrdinal(d));
    YearHolds(e);
    if e.year < d.year {
      YearsGrow(e.year + 1, d.year);
    } else if d.year < e.year {
      YearsGrow(d.year + 1, e.year);
    }
    SameYearSameDate(d, e);
  }

  lemma SameYearSameDate(d: Ymd, e: Ymd)
    requires IsYmd(d) && IsYmd(e) && d.year == e.year && ToOrdinal(d) == ToOrdinal(e)
    ensures d == e
  {
    if d.month < e.month {
      MonthsGrow(d.year, d.month, e.month);
    } else if e.month < d.month {
      MonthsGrow(d.year, e.month, d.month);
    }
  }

  /** A day is written as its year in four digits, its month and its day in two. */
  lemma DateForm(d: Ymd)
    requires IsYmd(d)
    ensures DateText(ToOrdinal(d)) == Digits(d.year, 10, 4) + "-" + Digits(d.month, 10, 2) + "-" + Digits(d.day, 10, 2)
  {
    FromToOrdinal(d);
  }

  /** The last digit counts ones. */
  lemma DigitsStep(n: nat, digit: nat, base: nat, width: nat)
    requires 2 <= base <= 16 && digit < base
    ensures Digits(n * base + digit, base, width + 1) == Digits(n, base, width) + [DIGITS[digit]]
  {
    assert (n * base + digit) / base == n && (n * base + digit) % base == digit by {
      Quotient(n, digit, base);
    }
  }

  lemma Quotient(n: nat, digit: nat, base: nat)
    requires 0 < base && digit < base
    ensures (n * base + digit) / base == n && (n * base + digit) % base == digit
  {
    var q, m := (n * base + digit) / base, (n * base + digit) % base;
    assert base * q + m == n * base + digit;
    assert n < q ==> base * (n + 1) <= base * q;
    assert q < n ==> base * (q + 1) <= base * n;
  }

  /** The twenty-ninth of February 2024. */
  lemma LeapDayText()
    ensures DateText(738945) == "2024-02-29"
  {
    hide Digits, FromOrdinal, DateText;
    DateForm(Ymd(2024, 2, 29));
    LeapDayOrdinal();
    LeapDayDigits();
  }

  lemma LeapDayOrdinal()
    ensures ToOrdinal(Ymd(2024, 2, 29)) == 738945
  {
    assert DaysBeforeMonth(2024, 1) == 0 && DaysBeforeMonth(2024, 2) == 31;
  }

  lemma LeapDayDigits()
    ensures Digits(2024, 10, 4) == "2024" && Digits(2, 10, 2) == "02" && Digits(29, 10, 2) == "29"
  {
    hide Digits;
    NoDigits(0, 10);
    NoDigits(2, 10);
    DigitsStep(0, 2, 10, 0);
    DigitsStep(2, 0, 10, 1);
    DigitsStep(20, 2, 10, 2);
    DigitsStep(202, 4, 10, 3);
    DigitsStep(0, 0, 10, 0);
    DigitsStep(0, 2, 10, 1);
    DigitsStep(2, 9, 10, 1);
  }

  lemma NoDigits(n: nat, base: nat)
    requires 2 <= base <= 16
    ensures Digits(n, base, 0) == []
  {
  }

  /** Lower-case hexadecimal digits only. */
  lemma {:induction false} DigitsAreHex(n: nat, width: nat)
    ensures forall c :: c in Digits(n, 16, width) ==> '0' <= c <= '9' || 'a' <= c <= 'f'
  {
    if 0 < width {
      DigitsAreHex(n / 16, width - 1);
    }
  }

  /** An id is written in 36 characters: lower-case digits, with dashes after the first eight and
      the next three groups of four. */
  lemma UuidForm(id: nat)
    ensures var s := UuidText(id);
            && |s| == 36
            && (forall i :: 0 <= i < 36 && i in {8, 13, 18, 23} ==> s[i] == '-')
            && (forall i :: 0 <= i < 36 && i !in {8, 13, 18, 23} ==> '0' <= s[i] <= '9' || 'a' <= s[i] <= 'f')
  {
    var d, s := Digits(id, 16, 32), UuidText(id);
    DigitsAreHex(id, 32);
    forall i | 0 <= i < 36 && i !in {8, 13, 18, 23} ensures s[i] in d {
      var k := if i < 8 then i else if i < 13 then i - 1 else if i < 18 then i - 2 else if i < 23 then i - 3 else i - 4;
      assert s[i] == d[k];
    }
  }

  /** A number is written without leading zeros and reads back. */
  lemma {:induction false} DecimalForm(n: nat)
    ensures Decimal(n) != [] && Number(Decimal(n), 10) == Some(n)
    ensures 10 <= n ==> Decimal(n)[0] != '0'
    ensures 0 < n < 10 ==> Decimal(n)[0] != '0'
  {
    DigitRoundTrip(n % 10);
    if n < 10 {
      assert [DigitChar(n)][..0] == [];
    } else {
      DecimalForm(n / 10);
      NumberStep(Decimal(n / 10), DigitChar(n % 10), 10);
    }
  }
}
