/**
 * Stored timestamps: fixed-width UTC text in the form of section 5.6 of RFC 3339. SQL compares the text
 * and the program compares parsed milliseconds; this module shows the two orders are one.
 */
module Timestamps {
  import opened Records

  // ---- strings

  /** The order of SQLite's BINARY collation and of JavaScript's string comparison, on ASCII text. */
  predicate Less(s: string, t: string) {
    if |t| == 0 then false
    else if |s| == 0 then true
    else s[0] < t[0] || (s[0] == t[0] && Less(s[1..], t[1..]))
  }

  lemma LessIrreflexive(s: string)
    ensures !Less(s, s)
  {
  }

  /** Equal-length prefixes decide first. */
  lemma {:induction false} LessConcat(a: string, b: string, c: string, d: string)
    requires |a| == |c|
    ensures Less(a + b, c + d) <==> Less(a, c) || (a == c && Less(b, d))
  {
    if |a| == 0 {
      assert a + b == b && c + d == d;
    } else {
      LessConcat(a[1..], b, c[1..], d);
      assert (a + b)[1..] == a[1..] + b && (c + d)[1..] == c[1..] + d;
      assert a == [a[0]] + a[1..] && c == [c[0]] + c[1..];
    }
  }

  function Power(width: nat): nat { if width == 0 then 1 else 10 * Power(width - 1) }

  /** The last width decimal digits of a number. */
  function Digits(n: nat, width: nat): (s: string)
    ensures |s| == width
  {
    if width == 0 then "" else Digits(n / 10, width - 1) + ['0' + (n % 10) as char]
  }

  lemma {:induction false} DigitsOrder(m: nat, n: nat, width: nat)
    requires m < Power(width) && n < Power(width)
    ensures Less(Digits(m, width), Digits(n, width)) <==> m < n
    ensures Digits(m, width) == Digits(n, width) <==> m == n
  {
    if width > 0 {
      var x, y := Digits(m / 10, width - 1), Digits(n / 10, width - 1);
      var u, v := ['0' + (m % 10) as char], ['0' + (n % 10) as char];
      DigitsOrder(m / 10, n / 10, width - 1);
      LessConcat(x, u, y, v);
      assert Less(u, v) <==> m % 10 < n % 10;
      if x + u == y + v {
        assert x == (x + u)[..width - 1] && y == (y + v)[..width - 1];
        assert (x + u)[width - 1] == (y + v)[width - 1];
      }
    }
  }

  // ---- civil time

  datatype Civil = Civil(year: int, month: int, day: int, hour: int, minute: int, second: int, milli: int)

  predicate Leap(year: int) { year % 4 == 0 && (year % 100 != 0 || year % 400 == 0) }

  /** Days of the year before a month starts; a thirteenth month stands for the year's length. */
  function MonthStart(leap: bool, month: int): int
    requires 1 <= month <= 13
  {
    var extra := if leap && month > 2 then 1 else 0;
    extra + if month == 1 then 0 else if month == 2 then 31 else if month == 3 then 59 else if month == 4 then 90
            else if month == 5 then 120 else if month == 6 then 151 else if month == 7 then 181 else if month == 8 then 212
            else if month == 9 then 243 else if month == 10 then 273 else if month == 11 then 304 else if month == 12 then 334
            else 365
  }

  function MonthLength(leap: bool, month: int): int
    requires 1 <= month <= 12
  {
    MonthStart(leap, month + 1) - MonthStart(leap, month)
  }

  /** A date and time that exists. */
  predicate Real(c: Civil) {
    && 1 <= c.month <= 12 && 1 <= c.day <= MonthLength(Leap(c.year), c.month)
    && 0 <= c.hour < 24 && 0 <= c.minute < 60 && 0 <= c.second < 60 && 0 <= c.milli < 1000
  }

  /** What the timestamp schema accepts: a real date and time in a four-digit year. */
  predicate Valid(c: Civil) { Real(c) && 0 <= c.year <= 9999 }

  /** Days from 1970-01-01 to the first of January; ECMAScript's DayFromYear. */
  function DayOfYear(year: int): int {
    365 * (year - 1970) + (year - 1969) / 4 - (year - 1901) / 100 + (year - 1601) / 400
  }

  function DayOf(c: Civil): int
    requires 1 <= c.month <= 12
  {
    DayOfYear(c.year) + MonthStart(Leap(c.year), c.month) + c.day - 1
  }

  function TimeOfDay(c: Civil): int { ((c.hour * 60 + c.minute) * 60 + c.second) * 1000 + c.milli }

  const DAY: int := 86_400_000

  /** Date.parse of the text. */
  function Millis(c: Civil): int
    requires 1 <= c.month <= 12
  {
    DayOf(c) * DAY + TimeOfDay(c)
  }

  lemma Fourth(year: int)
    ensures (year - 1968) / 4 - (year - 1969) / 4 == if year % 4 == 0 then 1 else 0
  {
  }

  lemma Hundredth(year: int)
    ensures (year - 1900) / 100 - (year - 1901) / 100 == if year % 100 == 0 then 1 else 0
  {
  }

  lemma FourHundredth(year: int)
    ensures (year - 1600) / 400 - (year - 1601) / 400 == if year % 400 == 0 then 1 else 0
    ensures year % 400 == 0 ==> year % 100 == 0
    ensures year % 100 == 0 ==> year % 4 == 0
  {
  }

  lemma YearLength(year: int)
    ensures DayOfYear(year + 1) - DayOfYear(year) == MonthStart(Leap(year), 13)
  {
    Fourth(year);
    Hundredth(year);
    FourHundredth(year);
  }

  /** The days of a month of the Gregorian calendar. */
  function DaysIn(year: int, month: int): int {
    if month == 2 then (if year % 400 == 0 || (year % 4 == 0 && year % 100 != 0) then 29 else 28)
    else if month == 4 || month == 6 || month == 9 || month == 11 then 30 else 31
  }

  /** The same time on the following day of the calendar. */
  function Tomorrow(c: Civil): Civil {
    if c.day < DaysIn(c.year, c.month) then c.(day := c.day + 1)
    else if c.month < 12 then c.(month := c.month + 1, day := 1)
    else c.(year := c.year + 1, month := 1, day := 1)
  }

  lemma MonthsMatch(year: int, month: int)
    requires 1 <= month <= 12
    ensures MonthLength(Leap(year), month) == DaysIn(year, month) >= 28
    ensures MonthStart(Leap(year), 1) == 0
  {
    FourHundredth(year);
  }

  lemma TomorrowFollows(c: Civil)
    requires Real(c)
    ensures c.day <= DaysIn(c.year, c.month)
    ensures Real(Tomorrow(c)) && DayOf(Tomorrow(c)) == DayOf(c) + 1
  {
    hide Leap, MonthStart, DayOfYear, DaysIn;
    MonthsMatch(c.year, c.month);
    if c.day < DaysIn(c.year, c.month) {
    } else if c.month < 12 {
      MonthsMatch(c.year, c.month + 1);
    } else {
      MonthsMatch(c.year + 1, 1);
      YearLength(c.year);
    }
  }

  /** Time is counted from the start of 1970, every day alike: this fixes the value of every date and time. */
  lemma CountedFromEpoch(c: Civil)
    requires Real(c)
    ensures 1 <= c.day <= DaysIn(c.year, c.month)
    ensures Millis(Civil(1970, 1, 1, 0, 0, 0, 0)) == 0
    ensures Real(Tomorrow(c)) && Millis(Tomorrow(c)) == Millis(c) + 86_400_000
    ensures Millis(c) == Millis(c.(hour := 0, minute := 0, second := 0, milli := 0))
                         + 3_600_000 * c.hour + 60_000 * c.minute + 1_000 * c.second + c.milli
  {
    TomorrowFollows(c);
    assert Millis(Civil(1970, 1, 1, 0, 0, 0, 0)) == 0;
    hide DayOf, DaysIn, Leap, MonthLength;
  }

  lemma {:induction false} YearsIncrease(first: int, second: int)
    requires first < second
    ensures DayOfYear(first) + MonthStart(Leap(first), 13) <= DayOfYear(second)
    decreases second - first
  {
    YearLength(first);
    if first + 1 < second {
      hide DayOfYear;
      YearsIncrease(first + 1, second);
    }
  }

  lemma MonthsIncrease(leap: bool, first: int, second: int)
    requires 1 <= first < second <= 13
    ensures MonthStart(leap, first) + MonthLength(leap, first) <= MonthStart(leap, second)
  {
  }

  /** The order of the fields, most significant first. */
  predicate Earlier(a: Civil, b: Civil) {
    || a.year < b.year
    || (a.year == b.year && (a.month < b.month
    || (a.month == b.month && (a.day < b.day
    || (a.day == b.day && (a.hour < b.hour
    || (a.hour == b.hour && (a.minute < b.minute
    || (a.minute == b.minute && (a.second < b.second
    || (a.second == b.second && a.milli < b.milli)))))))))))
  }

  lemma TimeWithinDay(c: Civil)
    requires Real(c)
    ensures 0 <= TimeOfDay(c) < DAY
  {
  }

  lemma DayWithinYear(c: Civil)
    requires Real(c)
    ensures DayOfYear(c.year) <= DayOf(c) < DayOfYear(c.year) + MonthStart(Leap(c.year), 13)
  {
    hide DayOfYear, Leap;
    MonthsIncrease(Leap(c.year), c.month, 13);
  }

  lemma DaysIncrease(a: Civil, b: Civil)
    requires Real(a) && Real(b)
    requires a.year < b.year || (a.year == b.year && (a.month < b.month || (a.month == b.month && a.day < b.day)))
    ensures DayOf(a) < DayOf(b)
  {
    hide DayOfYear, Leap;
    DayWithinYear(a);
    DayWithinYear(b);
    if a.year < b.year {
      YearsIncrease(a.year, b.year);
    } else if a.month < b.month {
      MonthsIncrease(Leap(a.year), a.month, b.month);
    }
  }

  lemma EarlierIncreases(a: Civil, b: Civil)
    requires Real(a) && Real(b) && Earlier(a, b)
    ensures Millis(a) < Millis(b)
  {
    hide DayOfYear, Leap, MonthStart, MonthLength;
    TimeWithinDay(a);
    TimeWithinDay(b);
    if a.year == b.year && a.month == b.month && a.day == b.day {
      assert DayOf(a) == DayOf(b);
    } else {
      DaysIncrease(a, b);
      assert DayOf(a) + 1 <= DayOf(b);
    }
  }

  /** Civil order is the order of milliseconds, leap years included. */
  lemma MillisOrder(a: Civil, b: Civil)
    requires Real(a) && Real(b)
    ensures Millis(a) < Millis(b) <==> Earlier(a, b)
    ensures Millis(a) == Millis(b) <==> a == b
  {
    hide DayOfYear, Leap, MonthStart, MonthLength, DayOf, TimeOfDay;
    if Earlier(a, b) { EarlierIncreases(a, b); }
    else if Earlier(b, a) { EarlierIncreases(b, a); }
  }

  // ---- text

  function Clock(c: Civil): string
    requires Real(c)
  {
    Digits(c.hour, 2) + (":" + (Digits(c.minute, 2) + (":" + (Digits(c.second, 2) + ("." + (Digits(c.milli, 3) + "Z"))))))
  }

  function MonthAndLater(c: Civil): string
    requires Real(c)
  {
    Digits(c.month, 2) + ("-" + (Digits(c.day, 2) + ("T" + Clock(c))))
  }

  /** The stored text of an accepted timestamp: YYYY-MM-DDTHH:mm:ss.sssZ. */
  function Text(c: Civil): string
    requires Valid(c)
  {
    Digits(c.year, 4) + ("-" + MonthAndLater(c))
  }

  /** A field and a separator decide before what follows. */
  lemma FieldOrder(m: nat, n: nat, width: nat, separator: string, rest: string, other: string)
    requires m < Power(width) && n < Power(width)
    ensures Less(Digits(m, width) + (separator + rest), Digits(n, width) + (separator + other))
       <==> m < n || (m == n && Less(rest, other))
    ensures Digits(m, width) + (separator + rest) == Digits(n, width) + (separator + other) <==> m == n && rest == other
  {
    hide Digits, Power;
    DigitsOrder(m, n, width);
    LessConcat(Digits(m, width), separator + rest, Digits(n, width), separator + other);
    LessConcat(separator, rest, separator, other);
    LessIrreflexive(separator);
    var x, y := Digits(m, width) + (separator + rest), Digits(n, width) + (separator + other);
    if x == y {
      assert x[..width] == Digits(m, width) && y[..width] == Digits(n, width);
      var skip := width + |separator|;
      assert x[skip..] == rest && y[skip..] == other;
    }
  }

  lemma ClockOrder(a: Civil, b: Civil)
    requires Real(a) && Real(b)
    ensures Less(Clock(a), Clock(b)) <==>
              || a.hour < b.hour
              || (a.hour == b.hour && (a.minute < b.minute
              || (a.minute == b.minute && (a.second < b.second || (a.second == b.second && a.milli < b.milli)))))
    ensures Clock(a) == Clock(b) <==>
              a.hour == b.hour && a.minute == b.minute && a.second == b.second && a.milli == b.milli
  {
    assert Power(2) == 100 && Power(3) == 1000;
    hide Digits, Less, Power;
    var za, zb := Digits(a.milli, 3) + "Z", Digits(b.milli, 3) + "Z";
    assert "Z" + "" == "Z";
    FieldOrder(a.milli, b.milli, 3, "Z", "", "");
    LessIrreflexive("");
    var sa, sb := Digits(a.second, 2) + ("." + za), Digits(b.second, 2) + ("." + zb);
    FieldOrder(a.second, b.second, 2, ".", za, zb);
    var ma, mb := Digits(a.minute, 2) + (":" + sa), Digits(b.minute, 2) + (":" + sb);
    FieldOrder(a.minute, b.minute, 2, ":", sa, sb);
    FieldOrder(a.hour, b.hour, 2, ":", ma, mb);
  }

  /** Text order is civil order. */
  lemma TextIsCivilOrder(a: Civil, b: Civil)
    requires Valid(a) && Valid(b)
    ensures Less(Text(a), Text(b)) <==> Earlier(a, b)
    ensures Text(a) == Text(b) <==> a == b
  {
    assert Power(2) == 100 && Power(4) == 10000;
    hide Digits, Less, Power, Leap, MonthStart, Clock;
    ClockOrder(a, b);
    FieldOrder(a.day, b.day, 2, "T", Clock(a), Clock(b));
    var da, db := Digits(a.day, 2) + ("T" + Clock(a)), Digits(b.day, 2) + ("T" + Clock(b));
    FieldOrder(a.month, b.month, 2, "-", da, db);
    FieldOrder(a.year, b.year, 4, "-", MonthAndLater(a), MonthAndLater(b));
  }

  /** For every two accepted timestamps, comparing the text and comparing parsed milliseconds agree. */
  lemma TextOrderIsTimeOrder(a: Civil, b: Civil)
    requires Valid(a) && Valid(b)
    ensures Less(Text(a), Text(b)) <==> Millis(a) < Millis(b)
    ensures Text(a) == Text(b) <==> Millis(a) == Millis(b)
  {
    hide Text, Less, Millis, Earlier;
    TextIsCivilOrder(a, b);
    MillisOrder(a, b);
  }

  // ---- reading text back

  predicate IsDigit(ch: char) { '0' <= ch <= '9' }

  predicate AllDigits(s: string) { forall i :: 0 <= i < |s| ==> IsDigit(s[i]) }

  function Value(s: string): nat
    requires AllDigits(s)
  {
    if |s| == 0 then 0 else Value(s[..|s| - 1]) * 10 + (s[|s| - 1] as int - '0' as int)
  }

  lemma {:induction false} DigitsOfValue(s: string)
    requires AllDigits(s)
    ensures Value(s) < Power(|s|) && Digits(Value(s), |s|) == s
  {
    if |s| > 0 {
      DigitsOfValue(s[..|s| - 1]);
      assert s == s[..|s| - 1] + [s[|s| - 1]];
    }
  }

  lemma {:induction false} ValueOfDigits(n: nat, width: nat)
    requires n < Power(width)
    ensures AllDigits(Digits(n, width)) && Value(Digits(n, width)) == n
  {
    if width > 0 {
      var s := Digits(n, width);
      ValueOfDigits(n / 10, width - 1);
      assert s[..width - 1] == Digits(n / 10, width - 1);
      forall i | 0 <= i < width ensures IsDigit(s[i]) {
        if i < width - 1 { assert s[i] == Digits(n / 10, width - 1)[i]; }
      }
    }
  }

  predicate Separated(s: string) {
    && |s| == 24 && s[4] == '-' && s[7] == '-' && s[10] == 'T' && s[13] == ':' && s[16] == ':' && s[19] == '.'
    && s[23] == 'Z'
  }

  /** The fixed layout: digits everywhere but at the separators. */
  predicate Shaped(s: string) {
    && Separated(s)
    && AllDigits(s[0..4]) && AllDigits(s[5..7]) && AllDigits(s[8..10]) && AllDigits(s[11..13]) && AllDigits(s[14..16])
    && AllDigits(s[17..19]) && AllDigits(s[20..23])
  }

  function Fields(s: string): Civil
    requires Shaped(s)
  {
    Civil(Value(s[0..4]), Value(s[5..7]), Value(s[8..10]), Value(s[11..13]), Value(s[14..16]), Value(s[17..19]), Value(s[20..23]))
  }

  /** The timestamp schema: the layout, and a date and time that exist. */
  function Parse(s: string): Option<Civil> {
    if Shaped(s) && Valid(Fields(s)) then Some(Fields(s)) else None
  }

  lemma ClockLayout(c: Civil)
    requires Valid(c)
    ensures var s := Clock(c);
            && |s| == 13 && s[2] == ':' && s[5] == ':' && s[8] == '.' && s[12] == 'Z'
            && s[0..2] == Digits(c.hour, 2) && s[3..5] == Digits(c.minute, 2) && s[6..8] == Digits(c.second, 2)
            && s[9..12] == Digits(c.milli, 3)
  {
    hide Digits, Leap, MonthStart;
  }

  lemma DateLayout(c: Civil)
    requires Valid(c)
    ensures var s := MonthAndLater(c);
            && |s| == 19 && s[2] == '-' && s[5] == 'T'
            && s[0..2] == Digits(c.month, 2) && s[3..5] == Digits(c.day, 2) && s[6..19] == Clock(c)
  {
    hide Digits, Leap, MonthStart, Clock;
    ClockLayout(c);
  }

  /** Where each field stands in the text. */
  lemma Layout(c: Civil)
    requires Valid(c)
    ensures var s := Text(c);
            && Separated(s)
            && s[0..4] == Digits(c.year, 4) && s[5..7] == Digits(c.month, 2) && s[8..10] == Digits(c.day, 2)
            && s[11..13] == Digits(c.hour, 2) && s[14..16] == Digits(c.minute, 2) && s[17..19] == Digits(c.second, 2)
            && s[20..23] == Digits(c.milli, 3)
  {
    hide Digits, Leap, MonthStart, Clock, MonthAndLater;
    ClockLayout(c);
    DateLayout(c);
    var s, later, clock := Text(c), MonthAndLater(c), Clock(c);
    assert s[5..24] == later;
    assert s[11..24] == later[6..19];
    assert forall i :: 5 <= i < 24 ==> s[i] == later[i - 5];
    assert forall i :: 11 <= i < 24 ==> s[i] == clock[i - 11];
    assert s[5..7] == later[0..2] && s[8..10] == later[3..5];
    assert s[11..13] == clock[0..2] && s[14..16] == clock[3..5] && s[17..19] == clock[6..8] && s[20..23] == clock[9..12];
  }

  lemma FieldsFit(c: Civil)
    requires Valid(c)
    ensures 0 <= c.year < Power(4) && 0 <= c.month < Power(2) && 0 <= c.day < Power(2) && 0 <= c.hour < Power(2)
            && 0 <= c.minute < Power(2) && 0 <= c.second < Power(2) && 0 <= c.milli < Power(3)
  {
    hide Leap;
    assert Power(2) == 100 && Power(3) == 1000 && Power(4) == 10000;
  }

  /** Every accepted text is the text of exactly the date and time it is read as. */
  lemma ParseText(c: Civil)
    requires Valid(c)
    ensures Parse(Text(c)) == Some(c)
  {
    hide Text, Digits, Value, Power, Valid, AllDigits, Separated;
    Layout(c);
    FieldsFit(c);
    ValueOfDigits(c.year, 4);
    ValueOfDigits(c.month, 2);
    ValueOfDigits(c.day, 2);
    ValueOfDigits(c.hour, 2);
    ValueOfDigits(c.minute, 2);
    ValueOfDigits(c.second, 2);
    ValueOfDigits(c.milli, 3);
  }

  lemma TextParse(s: string)
    requires Parse(s).Some?
    ensures Text(Parse(s).value) == s
  {
    hide Text, Digits, Value, Power, Leap, MonthStart;
    Layout(Fields(s));
    DigitsOfValue(s[0..4]);
    DigitsOfValue(s[5..7]);
    DigitsOfValue(s[8..10]);
    DigitsOfValue(s[11..13]);
    DigitsOfValue(s[14..16]);
    DigitsOfValue(s[17..19]);
    DigitsOfValue(s[20..23]);
    SameFields(s, Text(Fields(s)));
  }

  lemma SameFields(s: string, t: string)
    requires Shaped(s) && Shaped(t)
    requires s[0..4] == t[0..4] && s[5..7] == t[5..7] && s[8..10] == t[8..10] && s[11..13] == t[11..13]
    requires s[14..16] == t[14..16] && s[17..19] == t[17..19] && s[20..23] == t[20..23]
    ensures s == t
  {
    assert s == s[0..4] + [s[4]] + s[5..7] + [s[7]] + s[8..10] + [s[10]] + s[11..13] + [s[13]] + s[14..16] + [s[16]]
                + s[17..19] + [s[19]] + s[20..23] + [s[23]];
    assert t == t[0..4] + [t[4]] + t[5..7] + [t[7]] + t[8..10] + [t[10]] + t[11..13] + [t[13]] + t[14..16] + [t[16]]
                + t[17..19] + [t[19]] + t[20..23] + [t[23]];
  }

  // ---- toISOString

  lemma {:induction false} FindYear(day: int, guess: int) returns (year: int)
    ensures DayOfYear(year) <= day < DayOfYear(year + 1)
    decreases if day < DayOfYear(guess) then DayOfYear(guess) - day else day - DayOfYear(guess)
  {
    YearsIncrease(guess - 1, guess);
    YearsIncrease(guess, guess + 1);
    if day < DayOfYear(guess) {
      if DayOfYear(guess - 1) <= day { year := guess - 1; } else { year := FindYear(day, guess - 1); }
    } else if day < DayOfYear(guess + 1) {
      year := guess;
    } else {
      year := FindYear(day, guess + 1);
    }
  }

  lemma FindMonth(leap: bool, day: int) returns (month: int)
    requires 0 <= day < MonthStart(leap, 13)
    ensures 1 <= month <= 12 && MonthStart(leap, month) <= day < MonthStart(leap, month + 1)
  {
    month := 1;
    while month < 12 && MonthStart(leap, month + 1) <= day
      invariant 1 <= month <= 12 && MonthStart(leap, month) <= day
    {
      month := month + 1;
    }
  }

  /** Every instant has a civil date and time. */
  lemma CivilExists(ms: int) returns (c: Civil)
    ensures Real(c) && Millis(c) == ms
  {
    var day, time := ms / DAY, ms % DAY;
    var year := FindYear(day, 1970);
    YearLength(year);
    var month := FindMonth(Leap(year), day - DayOfYear(year));
    var dayOfMonth := day - DayOfYear(year) - MonthStart(Leap(year), month) + 1;
    var seconds := time / 1000;
    var minutes := seconds / 60;
    c := Civil(year, month, dayOfMonth, minutes / 60, minutes % 60, seconds % 60, time % 1000);
    assert TimeOfDay(c) == time;
  }

  ghost function CivilOf(ms: int): (c: Civil)
    ensures Real(c) && Millis(c) == ms
  {
    assert exists c :: Real(c) && Millis(c) == ms by { var c := CivilExists(ms); }
    var c :| Real(c) && Millis(c) == ms;
    c
  }

  /** Outside the four-digit years the text carries a sign and six digits. */
  ghost function IsoText(ms: int): string {
    var c := CivilOf(ms);
    if 0 <= c.year <= 9999 then Text(c)
    else if c.year < 0 then "-" + (Digits(-c.year, 6) + ("-" + MonthAndLater(c)))
    else "+" + (Digits(c.year, 6) + ("-" + MonthAndLater(c)))
  }

  /** Formatting the parsed value of an accepted timestamp gives the timestamp back. */
  lemma IsoOfMillis(c: Civil)
    requires Valid(c)
    ensures IsoText(Millis(c)) == Text(c)
  {
    hide Text, Millis;
    MillisOrder(CivilOf(Millis(c)), c);
  }

  /** The text of a year before 0000 starts with a hyphen, which sorts before every digit. */
  lemma NegativeSortsFirst(ms: int, e: Civil)
    requires Valid(e) && CivilOf(ms).year < 0
    ensures Less(IsoText(ms), Text(e)) && ms < Millis(e)
  {
    hide Digits, Leap, MonthStart, Millis, MonthAndLater;
    MillisOrder(CivilOf(ms), e);
    Layout(e);
    ValueOfDigits(e.year, 4);
    assert Text(e)[0] == Text(e)[0..4][0];
    assert IsoText(ms)[0] == '-';
    assert IsDigit(Digits(e.year, 4)[0]);
  }

  /**
   * The closed window of the violation count: its text bounds select an accepted timestamp exactly when
   * its parsed value lies between the parsed bounds, even when the window starts before the year 0000.
   */
  lemma WindowByText(now: Civil, e: Civil, width: nat)
    requires Valid(now) && Valid(e)
    ensures !Less(Text(e), IsoText(Millis(now) - width)) && !Less(Text(now), Text(e))
       <==> Millis(now) - width <= Millis(e) <= Millis(now)
  {
    hide Text, Millis, Less, IsoText, MonthLength, Leap;
    var from := CivilOf(Millis(now) - width);
    TextOrderIsTimeOrder(now, e);
    MillisOrder(from, now);
    if from.year < 0 {
      NegativeSortsFirst(Millis(now) - width, e);
      LessAsymmetric(IsoText(Millis(now) - width), Text(e));
    } else {
      IsoOfMillis(from);
      TextOrderIsTimeOrder(e, from);
    }
  }

  lemma {:induction false} LessAsymmetric(s: string, t: string)
    requires Less(s, t)
    ensures !Less(t, s)
  {
    if |s| > 0 && s[0] == t[0] { LessAsymmetric(s[1..], t[1..]); }
  }
}
