/** UTC instants as the texts the send times are stored and compared as: 2024-05-01T16:00:00Z. */
module TimeText {
  import opened TextOrder

  const DAY := 86_400
  const EPOCH_DAY := 719_163          // 1970-01-01, counting 0001-01-01 as day 1

  // The proleptic Gregorian calendar

  predicate Leap(y: int) { y % 4 == 0 && (y % 100 != 0 || y % 400 == 0) }

  function YearLength(y: int): int { if Leap(y) then 366 else 365 }

  /** Days before the first of January of year y. */
  function DaysBefore(y: int): int { 365 * (y - 1) + (y - 1) / 4 - (y - 1) / 100 + (y - 1) / 400 }

  lemma YearStep(y: int)
    ensures DaysBefore(y + 1) == DaysBefore(y) + YearLength(y)
  {
    Quarters(y);
    Centuries(y);
    LeapCenturies(y);
    Multiples(y);
  }

  lemma Quarters(y: int)
    ensures y / 4 == (y - 1) / 4 + if y % 4 == 0 then 1 else 0
  {
  }

  lemma Centuries(y: int)
    ensures y / 100 == (y - 1) / 100 + if y % 100 == 0 then 1 else 0
  {
  }

  lemma LeapCenturies(y: int)
    ensures y / 400 == (y - 1) / 400 + if y % 400 == 0 then 1 else 0
  {
  }

  lemma Multiples(y: int)
    ensures y % 400 == 0 ==> y % 100 == 0
    ensures y % 100 == 0 ==> y % 4 == 0
  {
  }

  lemma {:induction false} YearsAscend(y: int, z: int)
    requires y <= z
    ensures DaysBefore(y) + 365 * (z - y) <= DaysBefore(z)
    decreases z - y
  {
    if y < z {
      YearStep(z - 1);
      YearsAscend(y, z - 1);
    }
  }

  function YearFrom(day: int, y: nat): (r: nat)
    requires DaysBefore(y) < day
    ensures DaysBefore(r) < day <= DaysBefore(r + 1)
    decreases day - DaysBefore(y)
  {
    YearStep(y);
    if day <= DaysBefore(y + 1) then y else YearFrom(day, y + 1)
  }

  /** Days of the year before month m. */
  function MonthStart(leap: bool, m: nat): int
    requires 1 <= m <= 13
  {
    [0, 31, 59, 90, 120, 151, 181, 212, 243, 273, 304, 334, 365][m - 1] + if leap && m > 2 then 1 else 0
  }

  function MonthFrom(leap: bool, dayOfYear: int, m: nat): (r: nat)
    requires 1 <= m <= 12 && MonthStart(leap, m) < dayOfYear <= MonthStart(leap, 13)
    ensures m <= r <= 12 && MonthStart(leap, r) < dayOfYear <= MonthStart(leap, r + 1)
    decreases 13 - m
  {
    if dayOfYear <= MonthStart(leap, m + 1) then m else MonthFrom(leap, dayOfYear, m + 1)
  }

  lemma {:induction false} MonthsAscend(leap: bool, m: nat, n: nat)
    requires 1 <= m <= n <= 13
    ensures MonthStart(leap, m) <= MonthStart(leap, n)
    decreases n - m
  {
    if m < n { MonthsAscend(leap, m, n - 1); }
  }

  datatype Date = Date(year: nat, month: nat, day: nat)

  lemma DayOfYearFits(y: nat, day: int)
    requires DaysBefore(y) < day <= DaysBefore(y + 1)
    ensures MonthStart(Leap(y), 1) < day - DaysBefore(y) <= MonthStart(Leap(y), 13)
  {
    YearStep(y);
  }

  lemma MonthsAreShort(leap: bool, m: nat)
    requires 1 <= m <= 12
    ensures MonthStart(leap, m + 1) <= MonthStart(leap, m) + 31
  {
  }

  function DateInYear(y: nat, dayOfYear: int): (d: Date)
    requires 0 < dayOfYear <= MonthStart(Leap(y), 13)
    ensures d.year == y && 1 <= d.month <= 12 && 1 <= d.day <= 31
    ensures MonthStart(Leap(y), d.month) < dayOfYear <= MonthStart(Leap(y), d.month + 1)
    ensures MonthStart(Leap(y), d.month) + d.day == dayOfYear
  {
    var m := MonthFrom(Leap(y), dayOfYear, 1);
    MonthsAreShort(Leap(y), m);
    Date(y, m, dayOfYear - MonthStart(Leap(y), m))
  }

  function DateOf(day: int): (d: Date)
    requires day >= 1
    ensures 1 <= d.month <= 12 && 1 <= d.day <= 31
    ensures DaysBefore(d.year) + MonthStart(Leap(d.year), d.month) + d.day == day
    ensures DaysBefore(d.year) < day <= DaysBefore(d.year + 1)
    ensures MonthStart(Leap(d.year), d.month) < day - DaysBefore(d.year) <= MonthStart(Leap(d.year), d.month + 1)
  {
    var y := YearFrom(day, 1);
    DayOfYearFits(y, day);
    DateInYear(y, day - DaysBefore(y))
  }

  /** Dates compare field by field as their days do. */
  lemma DateOrder(m: int, n: int)
    requires m >= 1 && n >= 1
    ensures var a, b := DateOf(m), DateOf(n);
      m < n <==> a.year < b.year || (a.year == b.year && (a.month < b.month || (a.month == b.month && a.day < b.day)))
  {
    var a, b := DateOf(m), DateOf(n);
    if a.year < b.year {
      EarlierYear(m, n);
    } else if b.year < a.year {
      EarlierYear(n, m);
    } else if a.month < b.month {
      EarlierMonth(m, n);
    } else if b.month < a.month {
      EarlierMonth(n, m);
    }
  }

  lemma EarlierYear(m: int, n: int)
    requires m >= 1 && n >= 1 && DateOf(m).year < DateOf(n).year
    ensures m < n
  {
    YearsAscend(DateOf(m).year + 1, DateOf(n).year);
  }

  lemma EarlierMonth(m: int, n: int)
    requires m >= 1 && n >= 1 && DateOf(m).year == DateOf(n).year && DateOf(m).month < DateOf(n).month
    ensures m < n
  {
    MonthsAscend(Leap(DateOf(m).year), DateOf(m).month + 1, DateOf(n).month);
  }

  // The text

  /** Days since 0001, for seconds since 1970. */
  function DayOf(t: int): int { t / DAY + EPOCH_DAY }

  /** The instant falls in a year of four digits. */
  predicate FourDigitYear(t: int) { DayOf(t) >= 1 && 1000 <= DateOf(DayOf(t)).year <= 9999 }

  function Clock(s: nat): string
    requires s < DAY
  {
    Fixed(2, s / 3600) + ":" + (Fixed(2, s / 60 % 60) + ":" + (Fixed(2, s % 60) + "Z"))
  }

  function Text(t: int): string
    requires FourDigitYear(t)
  {
    var d := DateOf(DayOf(t));
    Fixed(4, d.year) + "-" + (Fixed(2, d.month) + "-" + (Fixed(2, d.day) + "T" + Clock(t % DAY)))
  }

  lemma {:induction false} LessAppend(a: string, x: string, b: string, y: string)
    requires |a| == |b|
    ensures Less(a + x, b + y) <==> Less(a, b) || (a == b && Less(x, y))
  {
    if a == [] {
      assert a + x == x && b + y == y;
    } else {
      assert (a + x)[1..] == a[1..] + x && (b + y)[1..] == b[1..] + y;
      LessAppend(a[1..], x, b[1..], y);
      assert a == [a[0]] + a[1..] && b == [b[0]] + b[1..];
    }
  }

  /** A leading field of fixed width decides, and a tie is left to what follows. */
  lemma FieldOrder(w: nat, m: nat, n: nat, sep: string, x: string, y: string)
    requires m < Pow10(w) && n < Pow10(w)
    ensures Less(Fixed(w, m) + sep + x, Fixed(w, n) + sep + y) <==> m < n || (m == n && Less(x, y))
  {
    FixedOrder(w, m, n);
    LessAppend(Fixed(w, m) + sep, x, Fixed(w, n) + sep, y);
    LessAppend(Fixed(w, m), sep, Fixed(w, n), sep);
    LessIrreflexive(sep);
    if Fixed(w, m) + sep == Fixed(w, n) + sep {
      assert (Fixed(w, m) + sep)[..w] == Fixed(w, m) && (Fixed(w, n) + sep)[..w] == Fixed(w, n);
    }
  }

  lemma ClockOrder(s: nat, u: nat)
    requires s < DAY && u < DAY
    ensures Less(Clock(s), Clock(u)) <==> s < u
  {
    ClockDigits(s);
    ClockDigits(u);
    SecondsOrder(s % 60, u % 60);
    TwoFields(s / 3600, s / 60 % 60, Fixed(2, s % 60) + "Z", u / 3600, u / 60 % 60, Fixed(2, u % 60) + "Z");
  }

  lemma ClockDigits(s: nat)
    ensures s == 3600 * (s / 3600) + 60 * (s / 60 % 60) + s % 60
    ensures 0 <= s / 60 % 60 < 60 && 0 <= s % 60 < 60
  {
    assert s / 3600 == s / 60 / 60;
  }

  lemma SecondsOrder(s: nat, s': nat)
    requires s < 60 && s' < 60
    ensures Less(Fixed(2, s) + "Z", Fixed(2, s') + "Z") <==> s < s'
  {
    assert Pow10(2) == 100;
    FieldOrder(2, s, s', "Z", "", "");
    assert Fixed(2, s) + "Z" + "" == Fixed(2, s) + "Z" && Fixed(2, s') + "Z" + "" == Fixed(2, s') + "Z";
  }

  lemma TwoFields(h: nat, m: nat, x: string, h': nat, m': nat, y: string)
    requires h < 100 && m < 60 && h' < 100 && m' < 60
    ensures Less(Fixed(2, h) + ":" + (Fixed(2, m) + ":" + x), Fixed(2, h') + ":" + (Fixed(2, m') + ":" + y))
      <==> h < h' || (h == h' && (m < m' || (m == m' && Less(x, y))))
  {
    assert Pow10(2) == 100;
    FieldOrder(2, m, m', ":", x, y);
    FieldOrder(2, h, h', ":", Fixed(2, m) + ":" + x, Fixed(2, m') + ":" + y);
  }

  lemma TextOrderOfDates(a: Date, b: Date, x: string, y: string)
    requires a.year < 10000 && b.year < 10000 && a.month < 100 && b.month < 100 && a.day < 100 && b.day < 100
    ensures Less(Fixed(4, a.year) + "-" + (Fixed(2, a.month) + "-" + (Fixed(2, a.day) + "T" + x)),
                 Fixed(4, b.year) + "-" + (Fixed(2, b.month) + "-" + (Fixed(2, b.day) + "T" + y)))
      <==> a.year < b.year || (a.year == b.year && (a.month < b.month || (a.month == b.month
             && (a.day < b.day || (a.day == b.day && Less(x, y))))))
  {
    assert Pow10(2) == 100 && Pow10(4) == 10000;
    FieldOrder(2, a.day, b.day, "T", x, y);
    var x1, y1 := Fixed(2, a.day) + "T" + x, Fixed(2, b.day) + "T" + y;
    FieldOrder(2, a.month, b.month, "-", x1, y1);
    FieldOrder(4, a.year, b.year, "-", Fixed(2, a.month) + "-" + x1, Fixed(2, b.month) + "-" + y1);
  }

  /** In four-digit years the texts are ordered as the instants are, so they also tell instants apart. */
  lemma TextOrderIsTimeOrder(t: int, u: int)
    requires FourDigitYear(t) && FourDigitYear(u)
    ensures Less(Text(t), Text(u)) <==> t < u
    ensures Text(t) == Text(u) <==> t == u
  {
    TextFollowsTime(t, u);
    TextFollowsTime(u, t);
    LessIrreflexive(Text(t));
  }

  lemma TextFollowsTime(t: int, u: int)
    requires FourDigitYear(t) && FourDigitYear(u)
    ensures Less(Text(t), Text(u)) <==> t < u
  {
    var m, n := DayOf(t), DayOf(u);
    DateOrder(m, n);
    DateOrder(n, m);
    TextOrderOfDates(DateOf(m), DateOf(n), Clock(t % DAY), Clock(u % DAY));
    ClockOrder(t % DAY, u % DAY);
  }

  // Lists of texts

  predicate TextsAscend(s: seq<string>) { forall i, j :: 0 <= i < j < |s| ==> !Less(s[j], s[i]) }

  function InsertText(s: seq<string>, x: string): seq<string> {
    if s == [] || !Less(x, s[|s| - 1]) then s + [x] else InsertText(s[..|s| - 1], x) + [s[|s| - 1]]
  }

  function SortTexts(s: seq<string>): seq<string> { if s == [] then [] else InsertText(SortTexts(s[..|s| - 1]), s[|s| - 1]) }

  /** The final sort of texts leaves a list that is in order as it is. */
  lemma {:induction false} SortTextsIsIdentity(s: seq<string>)
    requires TextsAscend(s)
    ensures SortTexts(s) == s
  {
    if s != [] {
      var rest, x := s[..|s| - 1], s[|s| - 1];
      SortTextsIsIdentity(rest);
      assert rest == [] || !Less(x, rest[|rest| - 1]);
      assert s == rest + [x];
    }
  }

  predicate Printable(ts: seq<int>) { forall i :: 0 <= i < |ts| ==> FourDigitYear(ts[i]) }

  function Texts(ts: seq<int>): (s: seq<string>)
    requires Printable(ts)
    ensures |s| == |ts| && forall i :: 0 <= i < |ts| ==> s[i] == Text(ts[i])
  {
    seq(|ts|, i requires 0 <= i < |ts| => Text(ts[i]))
  }

  /** The texts of a list are in order exactly when its instants are. */
  lemma TextsAscendExactly(ts: seq<int>)
    requires Printable(ts)
    ensures TextsAscend(Texts(ts)) <==> forall i, j :: 0 <= i < j < |ts| ==> ts[i] <= ts[j]
  {
    forall i, j | 0 <= i < j < |ts| ensures !Less(Texts(ts)[j], Texts(ts)[i]) <==> ts[i] <= ts[j] {
      TextOrderIsTimeOrder(ts[j], ts[i]);
    }
  }

  lemma YearUnique(y: nat, z: nat, day: int)
    requires DaysBefore(y) < day <= DaysBefore(y + 1) && DaysBefore(z) < day <= DaysBefore(z + 1)
    ensures y == z
  {
    if y < z {
      YearsAscend(y + 1, z);
    } else if z < y {
      YearsAscend(z + 1, y);
    }
  }

  lemma MonthUnique(leap: bool, m: nat, n: nat, dayOfYear: int)
    requires 1 <= m <= 12 && MonthStart(leap, m) < dayOfYear <= MonthStart(leap, m + 1)
    requires 1 <= n <= 12 && MonthStart(leap, n) < dayOfYear <= MonthStart(leap, n + 1)
    ensures m == n
  {
    if m < n {
      MonthsAscend(leap, m + 1, n);
    } else if n < m {
      MonthsAscend(leap, n + 1, m);
    }
  }

  /** A day that lies in a month of a year by the calendar's tables has that date, and no other. */
  lemma DateIs(day: int, d: Date)
    requires day >= 1 && 1 <= d.month <= 12 && DaysBefore(d.year) < day <= DaysBefore(d.year + 1)
    requires MonthStart(Leap(d.year), d.month) < day - DaysBefore(d.year) <= MonthStart(Leap(d.year), d.month + 1)
    requires d.day == day - DaysBefore(d.year) - MonthStart(Leap(d.year), d.month)
    ensures DateOf(day) == d
  {
    YearUnique(DateOf(day).year, d.year, day);
    MonthUnique(Leap(d.year), DateOf(day).month, d.month, day - DaysBefore(d.year));
  }

  /** The epoch's day is the first of January 1970. */
  lemma EpochDate(day: int)
    requires day == EPOCH_DAY
    ensures DateOf(day) == Date(1970, 1, 1)
  {
    DateIs(day, Date(1970, 1, 1));
  }
}
