/** Timestamp text: timestampLayout and formatTS in pkg/work/sqlite/store.go, and the RFC 3339 form that
    time.Parse reads back. An instant counts nanoseconds from 0000-01-01T00:00:00Z. */
module Timestamps {
  import opened Values
  import opened Text
  import opened Digits

  const NANOS: nat := 1_000_000_000
  const DAY: nat := 86_400 * NANOS

  // ---------- the calendar ----------

  predicate Leap(y: nat) {
    y % 4 == 0 && (y % 100 != 0 || y % 400 == 0)
  }

  function DaysInYear(y: nat): nat {
    if Leap(y) then 366 else 365
  }

  function DaysIn(y: nat, m: nat): (d: nat)
    requires 1 <= m <= 12
    ensures 28 <= d <= 31
  {
    if m == 2 then (if Leap(y) then 29 else 28)
    else if m == 4 || m == 6 || m == 9 || m == 11 then 30
    else 31
  }

  function DaysBeforeYear(y: nat): nat {
    if y == 0 then 0 else DaysBeforeYear(y - 1) + DaysInYear(y - 1)
  }

  function DaysBeforeMonth(y: nat, m: nat): nat
    requires 1 <= m <= 13
  {
    if m == 1 then 0 else DaysBeforeMonth(y, m - 1) + DaysIn(y, m - 1)
  }

  datatype Civil = Civil(year: nat, month: nat, day: nat, hour: nat, minute: nat, second: nat, nanos: nat)

  predicate ValidDate(y: nat, m: nat, d: nat) {
    1 <= m <= 12 && 1 <= d <= DaysIn(y, m)
  }

  predicate Valid(c: Civil) {
    ValidDate(c.year, c.month, c.day) && c.hour < 24 && c.minute < 60 && c.second < 60 && c.nanos < NANOS
  }

  function DayNumber(y: nat, m: nat, d: nat): nat
    requires ValidDate(y, m, d)
  {
    DaysBeforeYear(y) + DaysBeforeMonth(y, m) + d - 1
  }

  function TimeOfDay(c: Civil): nat {
    ((c.hour * 60 + c.minute) * 60 + c.second) * 1_000_000_000 + c.nanos
  }

  /** The instant a UTC date and time names. */
  function InstantOf(c: Civil): nat
    requires Valid(c)
  {
    DayNumber(c.year, c.month, c.day) * 86_400_000_000_000 + TimeOfDay(c)
  }

  lemma YearLength(y: nat)
    ensures DaysBeforeMonth(y, 13) == DaysInYear(y)
  {
    assert DaysBeforeMonth(y, 2) == 31;
    assert DaysBeforeMonth(y, 3) == 31 + DaysIn(y, 2);
    assert DaysBeforeMonth(y, 4) == DaysBeforeMonth(y, 3) + 31;
    assert DaysBeforeMonth(y, 5) == DaysBeforeMonth(y, 4) + 30;
    assert DaysBeforeMonth(y, 6) == DaysBeforeMonth(y, 5) + 31;
    assert DaysBeforeMonth(y, 7) == DaysBeforeMonth(y, 6) + 30;
    assert DaysBeforeMonth(y, 8) == DaysBeforeMonth(y, 7) + 31;
    assert DaysBeforeMonth(y, 9) == DaysBeforeMonth(y, 8) + 31;
    assert DaysBeforeMonth(y, 10) == DaysBeforeMonth(y, 9) + 30;
    assert DaysBeforeMonth(y, 11) == DaysBeforeMonth(y, 10) + 31;
    assert DaysBeforeMonth(y, 12) == DaysBeforeMonth(y, 11) + 30;
  }

  lemma {:induction false} MonthsGrow(y: nat, m: nat, n: nat)
    requires 1 <= m < n <= 13
    ensures DaysBeforeMonth(y, m) + DaysIn(y, m) <= DaysBeforeMonth(y, n)
    decreases n
  {
    if m + 1 < n {
      MonthsGrow(y, m, n - 1);
    }
  }

  lemma {:induction false} YearsGrow(y: nat, z: nat)
    requires y < z
    ensures DaysBeforeYear(y) + DaysInYear(y) <= DaysBeforeYear(z)
    decreases z
  {
    if y + 1 < z {
      YearsGrow(y, z - 1);
    }
  }

  predicate DateBefore(a: Civil, b: Civil) {
    a.year < b.year || (a.year == b.year && (a.month < b.month || (a.month == b.month && a.day < b.day)))
  }

  predicate TimeBefore(a: Civil, b: Civil) {
    || a.hour < b.hour
    || (a.hour == b.hour
        && (|| a.minute < b.minute
            || (a.minute == b.minute && (a.second < b.second || (a.second == b.second && a.nanos < b.nanos)))))
  }

  predicate SameDate(a: Civil, b: Civil) {
    a.year == b.year && a.month == b.month && a.day == b.day
  }

  /** Field by field order of dates and times. */
  predicate CivilBefore(a: Civil, b: Civil) {
    DateBefore(a, b) || (SameDate(a, b) && TimeBefore(a, b))
  }

  lemma DateOrder(a: Civil, b: Civil)
    requires Valid(a) && Valid(b) && DateBefore(a, b)
    ensures DayNumber(a.year, a.month, a.day) < DayNumber(b.year, b.month, b.day)
  {
    if a.year < b.year {
      YearsGrow(a.year, b.year);
      MonthsGrow(a.year, a.month, 13);
      YearLength(a.year);
    } else if a.month < b.month {
      MonthsGrow(a.year, a.month, b.month);
    }
  }

  /** The calendar is order-preserving: dates and times compare as the instants they name. */
  lemma CivilOrder(a: Civil, b: Civil)
    requires Valid(a) && Valid(b)
    ensures CivilBefore(a, b) <==> InstantOf(a) < InstantOf(b)
    ensures a == b <==> InstantOf(a) == InstantOf(b)
  {
    assert TimeOfDay(a) < 86_400_000_000_000 && TimeOfDay(b) < 86_400_000_000_000;
    if DateBefore(a, b) {
      DateOrder(a, b);
      DaysDecide(a, b);
    } else if DateBefore(b, a) {
      DateOrder(b, a);
      DaysDecide(b, a);
    } else {
      TimeOrder(a, b);
    }
  }

  lemma DaysDecide(a: Civil, b: Civil)
    requires Valid(a) && Valid(b)
    requires DayNumber(a.year, a.month, a.day) < DayNumber(b.year, b.month, b.day)
    ensures InstantOf(a) < InstantOf(b)
  {
    var m, n := DayNumber(a.year, a.month, a.day), DayNumber(b.year, b.month, b.day);
    assert m * 86_400_000_000_000 + 86_400_000_000_000 <= n * 86_400_000_000_000;
    assert TimeOfDay(a) < 86_400_000_000_000;
  }

  lemma TimeOrder(a: Civil, b: Civil)
    requires Valid(a) && Valid(b) && SameDate(a, b)
    ensures TimeBefore(a, b) <==> InstantOf(a) < InstantOf(b)
    ensures a == b <==> InstantOf(a) == InstantOf(b)
  {
    var s, t := (a.hour * 60 + a.minute) * 60 + a.second, (b.hour * 60 + b.minute) * 60 + b.second;
    if s < t {
      assert s * 1_000_000_000 + 1_000_000_000 <= t * 1_000_000_000;
    } else if t < s {
      assert t * 1_000_000_000 + 1_000_000_000 <= s * 1_000_000_000;
    }
  }

  // ---------- from an instant to its date ----------

  /** The year that contains day `d` counted from the start of year `y`. */
  function YearFrom(y: nat, d: nat): (r: nat)
    ensures r >= y
    ensures DaysBeforeYear(r) <= DaysBeforeYear(y) + d < DaysBeforeYear(r) + DaysInYear(r)
    decreases d
  {
    if d < DaysInYear(y) then y else YearFrom(y + 1, d - DaysInYear(y))
  }

  function MonthFrom(y: nat, m: nat, d: nat): (r: nat)
    requires 1 <= m <= 12 && DaysBeforeMonth(y, m) <= d < DaysBeforeMonth(y, 13)
    ensures 1 <= r <= 12 && DaysBeforeMonth(y, r) <= d < DaysBeforeMonth(y, r) + DaysIn(y, r)
    decreases 12 - m
  {
    if d < DaysBeforeMonth(y, m + 1) then m else MonthFrom(y, m + 1, d)
  }

  function CivilOf(t: nat): (c: Civil)
    ensures Valid(c)
  {
    var year := YearFrom(0, t / 86_400_000_000_000);
    var day := t / 86_400_000_000_000 - DaysBeforeYear(year);
    YearLength(year);
    var month := MonthFrom(year, 1, day);
    var second := t % 86_400_000_000_000 / 1_000_000_000;
    Civil(year, month, day - DaysBeforeMonth(year, month) + 1, second / 3600, second / 60 % 60, second % 60,
          t % 1_000_000_000)
  }

  /** Every instant has exactly one date and time. */
  lemma CivilOfIsInverse(t: nat)
    ensures InstantOf(CivilOf(t)) == t
  {
    var c := CivilOf(t);
    assert DayNumber(c.year, c.month, c.day) == t / 86_400_000_000_000;
    var second := t % 86_400_000_000_000 / 1_000_000_000;
    assert second == (c.hour * 60 + c.minute) * 60 + c.second;
    assert t % 86_400_000_000_000 % 1_000_000_000 == t % 1_000_000_000 by {
      assert t == t / 86_400_000_000_000 * 86_400_000_000_000 + t % 86_400_000_000_000;
      assert t / 86_400_000_000_000 * 86_400_000_000_000 == (t / 86_400_000_000_000 * 86_400) * 1_000_000_000;
    }
  }

  lemma MultiplesApart(p: int, q: int, d: nat)
    requires p < q
    ensures p * d + d <= q * d
  {
    assert q * d == p * d + d + (q - p - 1) * d;
  }

  lemma QuotientIsUnique(p: int, r: nat, q: int, s: nat, d: nat)
    requires r < d && s < d && p * d + r == q * d + s
    ensures p == q && r == s
  {
    if p < q {
      MultiplesApart(p, q, d);
    } else if q < p {
      MultiplesApart(q, p, d);
    }
  }

  lemma DivideUnique(x: int, d: nat, q: int, r: nat)
    requires d > 0 && x == q * d + r && r < d
    ensures x / d == q && x % d == r
  {
    QuotientIsUnique(q, r, x / d, x % d, d);
  }

  /** How many multiples of d lie below y. */
  function Multiples(y: nat, d: nat): nat
    requires d > 0
  {
    (y + d - 1) / d
  }

  lemma MultiplesStep(y: nat, d: nat)
    requires d > 0
    ensures Multiples(y + 1, d) == Multiples(y, d) + if y % d == 0 then 1 else 0
  {
    var q, r := y / d, y % d;
    assert y == q * d + r;
    assert (q + 1) * d == q * d + d;
    DivideUnique(y + d, d, q + 1, r);
    if r == 0 {
      DivideUnique(y + d - 1, d, q, d - 1);
    } else {
      DivideUnique(y + d - 1, d, q + 1, r - 1);
    }
  }

  lemma LeapByMultiples(y: nat)
    ensures DaysInYear(y)
         == 365 + (if y % 4 == 0 then 1 else 0) - (if y % 100 == 0 then 1 else 0) + (if y % 400 == 0 then 1 else 0)
  {
    if y % 400 == 0 {
      DivideUnique(y, 100, 4 * (y / 400), 0);
      DivideUnique(y, 4, 100 * (y / 400), 0);
    } else if y % 100 == 0 {
      DivideUnique(y, 4, 25 * (y / 100), 0);
    }
  }

  /** Days before a year by counting leap years. */
  lemma {:induction false} DaysBeforeYearClosed(y: nat)
    ensures DaysBeforeYear(y) == 365 * y + Multiples(y, 4) - Multiples(y, 100) + Multiples(y, 400)
  {
    if y > 0 {
      DaysBeforeYearClosed(y - 1);
      LeapByMultiples(y - 1);
      MultiplesStep(y - 1, 4);
      MultiplesStep(y - 1, 100);
      MultiplesStep(y - 1, 400);
    }
  }

  // ---------- the text of an instant ----------

  /** Four hundred Gregorian years. */
  const CYCLE: nat := 146_097 * DAY

  /** The first instant of year 10000. */
  const END: nat := 3_652_425 * DAY

  /** Go's appendInt(year, 4): a sign, then at least four digits. */
  function YearText(y: int): string
    decreases y < 0
  {
    if y < 0 then "-" + YearText(-y)
    else if y < 10_000 then Padded(y, 4)
    else Decimal(y)
  }

  /** All nine fractional digits and the UTC zone. */
  function FixedTail(nanos: nat): string {
    "." + (Padded(nanos, 9) + "Z")
  }

  function ClockText(c: Civil, tail: string): string {
    Padded(c.hour, 2) + (":" + (Padded(c.minute, 2) + (":" + (Padded(c.second, 2) + tail))))
  }

  /** Everything after the year; `tail` is the fraction and the zone. */
  function RestText(c: Civil, tail: string): string {
    "-" + (Padded(c.month, 2) + ("-" + (Padded(c.day, 2) + ("T" + ClockText(c, tail)))))
  }

  /** The text of a date whose year is counted from year `base`. */
  function DateText(c: Civil, base: int): string {
    YearText(base + c.year) + RestText(c, FixedTail(c.nanos))
  }

  /** The start of the 400-year cycle that holds a negative instant, as a number of cycles before year 0. */
  function Lift(t: int): (k: nat)
    requires t < 0
    ensures k >= 1 && 0 <= t + k * 12_622_780_800_000_000_000 < 12_622_780_800_000_000_000
  {
    (-t + 12_622_780_800_000_000_000 - 1) / 12_622_780_800_000_000_000
  }

  /** formatTS for every instant, in the proleptic calendar. */
  function FormatTS(t: int): string {
    if t >= 0 then DateText(CivilOf(t), 0)
    else
      var k := Lift(t);
      DateText(CivilOf(t + k * 12_622_780_800_000_000_000), -400 * k)
  }

  /** The date and time behind the text of an instant that has a four-digit year. */
  lemma Named(t: int) returns (c: Civil)
    requires 0 <= t < END
    ensures Valid(c) && c.year < 10_000 && InstantOf(c) == t
    ensures FormatTS(t) == Padded(c.year, 4) + RestText(c, FixedTail(c.nanos))
  {
    c := CivilOf(t);
    CivilOfIsInverse(t);
    YearRange(t);
  }

  /** The four-digit years are exactly the instants from 0 up to END. */
  lemma YearRange(t: nat)
    ensures CivilOf(t).year < 10_000 <==> t < END
    ensures CivilOf(t).year < 400 <==> t < CYCLE
  {
    var y := CivilOf(t).year;
    YearBound(t, 10_000);
    YearBound(t, 400);
    DaysBeforeYearClosed(10_000);
    DaysBeforeYearClosed(400);
  }

  lemma QuotientBound(t: nat, d: nat, n: nat)
    requires d > 0
    ensures t / d < n <==> t < n * d
  {
    var q, r := t / d, t % d;
    assert t == q * d + r && r < d;
    if q < n {
      MultiplesApart(q, n, d);
    } else if n < q {
      MultiplesApart(n, q, d);
    }
  }

  lemma YearBound(t: nat, y: nat)
    requires y > 0
    ensures CivilOf(t).year < y <==> t < DaysBeforeYear(y) * 86_400_000_000_000
  {
    var year := CivilOf(t).year;
    if year < y {
      YearsGrow(year, y);
    } else if y < year {
      YearsGrow(y, year);
    }
    QuotientBound(t, 86_400_000_000_000, DaysBeforeYear(y));
  }

  lemma WidthsSuffice()
    ensures Pow10(2) == 100 && Pow10(4) == 10_000 && Pow10(9) == NANOS
  {
    assert Pow10(3) == 1000;
    assert Pow10(5) == 100_000;
    assert Pow10(7) == 10_000_000;
  }

  lemma ClockTextOrder(a: Civil, b: Civil)
    requires Valid(a) && Valid(b)
    ensures Before(ClockText(a, FixedTail(a.nanos)), ClockText(b, FixedTail(b.nanos))) <==> TimeBefore(a, b)
  {
    WidthsSuffice();
    var a3, b3 := FixedTail(a.nanos), FixedTail(b.nanos);
    FieldDecides(a.nanos, b.nanos, 9, "Z", "Z");
    BeforeIsTotal("Z", "Z");
    BeforeSharedPrefix(".", Padded(a.nanos, 9) + "Z", Padded(b.nanos, 9) + "Z");
    var a2, b2 := Padded(a.second, 2) + a3, Padded(b.second, 2) + b3;
    FieldDecides(a.second, b.second, 2, a3, b3);
    BeforeSharedPrefix(":", a2, b2);
    var a1, b1 := Padded(a.minute, 2) + (":" + a2), Padded(b.minute, 2) + (":" + b2);
    FieldDecides(a.minute, b.minute, 2, ":" + a2, ":" + b2);
    BeforeSharedPrefix(":", a1, b1);
    FieldDecides(a.hour, b.hour, 2, ":" + a1, ":" + b1);
  }

  lemma CivilTextOrder(a: Civil, b: Civil)
    requires Valid(a) && Valid(b) && a.year < 10_000 && b.year < 10_000
    ensures Before(Padded(a.year, 4) + RestText(a, FixedTail(a.nanos)),
                   Padded(b.year, 4) + RestText(b, FixedTail(b.nanos)))
       <==> CivilBefore(a, b)
  {
    WidthsSuffice();
    ClockTextOrder(a, b);
    var a3, b3 := ClockText(a, FixedTail(a.nanos)), ClockText(b, FixedTail(b.nanos));
    BeforeSharedPrefix("T", a3, b3);
    var a2, b2 := Padded(a.day, 2) + ("T" + a3), Padded(b.day, 2) + ("T" + b3);
    FieldDecides(a.day, b.day, 2, "T" + a3, "T" + b3);
    BeforeSharedPrefix("-", a2, b2);
    var a1, b1 := Padded(a.month, 2) + ("-" + a2), Padded(b.month, 2) + ("-" + b2);
    FieldDecides(a.month, b.month, 2, "-" + a2, "-" + b2);
    BeforeSharedPrefix("-", a1, b1);
    FieldDecides(a.year, b.year, 4, "-" + a1, "-" + b1);
  }

  /** Byte order of the text is time order, for every pair of instants of the years 0 to 9999. */
  lemma TextOrderIsTimeOrder(t: int, u: int)
    requires 0 <= t < END && 0 <= u < END
    ensures Before(FormatTS(t), FormatTS(u)) <==> t < u
    ensures FormatTS(t) == FormatTS(u) <==> t == u
  {
    var a := Named(t);
    var b := Named(u);
    CivilTextOrder(a, b);
    CivilTextOrder(b, a);
    CivilOrder(a, b);
    CivilOrder(b, a);
    BeforeIsTotal(FormatTS(t), FormatTS(u));
  }

  // ---------- reading it back ----------

  predicate DigitsAt(s: string, i: nat, n: nat) {
    i + n <= |s| && forall k :: i <= k < i + n ==> IsDigit(s[k])
  }

  /** The number written in the n digits of s from index i on. */
  function NumberAt(s: string, i: nat, n: nat): nat
    requires DigitsAt(s, i, n)
  {
    if n == 0 then 0 else 10 * NumberAt(s, i, n - 1) + (s[i + n - 1] - '0') as nat
  }

  /** How many digits s has from index i on. */
  function DigitRun(s: string, i: nat): (n: nat)
    requires i <= |s|
    ensures DigitsAt(s, i, n)
    ensures i + n < |s| ==> !IsDigit(s[i + n])
    decreases |s| - i
  {
    if i < |s| && IsDigit(s[i]) then 1 + DigitRun(s, i + 1) else 0
  }

  /** The length of an optional fraction: a period or comma and at least one digit. */
  function FractionLength(s: string): (n: nat)
    ensures n <= |s|
  {
    if s != [] && (s[0] == '.' || s[0] == ',') && DigitRun(s, 1) > 0 then 1 + DigitRun(s, 1) else 0
  }

  const ZEROS: string := "000000000"

  /** Nine digits: shorter fractions are scaled up, later digits dropped. */
  function NineDigits(digits: string): (r: string)
    requires AllDigits(digits)
    ensures |r| == 9 && AllDigits(r)
  {
    (digits + ZEROS)[..9]
  }

  function Nanoseconds(s: string): nat {
    if FractionLength(s) == 0 then 0 else Value(NineDigits(s[1..FractionLength(s)]))
  }

  /** The zone: Z, or a signed offset of at most 24 hours and 60 minutes. */
  function ZoneOffset(z: string): (o: Option<int>)
    ensures o.Some? ==> -25 * 3600 * 1_000_000_000 <= o.value <= 25 * 3600 * 1_000_000_000
  {
    if z == "Z" then Some(0)
    else if |z| == 6 && (z[0] == '+' || z[0] == '-') && DigitsAt(z, 1, 2) && z[3] == ':' && DigitsAt(z, 4, 2)
            && NumberAt(z, 1, 2) <= 24 && NumberAt(z, 4, 2) <= 60 then
      var magnitude := (NumberAt(z, 1, 2) * 60 + NumberAt(z, 4, 2)) * 60 * 1_000_000_000;
      Some(if z[0] == '+' then magnitude else -magnitude)
    else None
  }

  /** What stands before the fraction, and the text left to read. */
  datatype Head = Head(date: Civil, rest: string)

  /** What stands after the seconds. */
  datatype Tail = Tail(nanos: nat, offset: int)

  /** The fields up to the seconds. The hour alone may have one digit. */
  function ParseHead(s: string): Option<Head> {
    if !(|s| >= 12 && DigitsAt(s, 0, 4) && s[4] == '-' && DigitsAt(s, 5, 2) && s[7] == '-' && DigitsAt(s, 8, 2)
         && s[10] == 'T' && IsDigit(s[11])) then None
    else
      var o := if |s| > 12 && IsDigit(s[12]) then 13 else 12;
      if !(|s| >= o + 6 && s[o] == ':' && DigitsAt(s, o + 1, 2) && s[o + 3] == ':' && DigitsAt(s, o + 4, 2)) then None
      else
        Some(Head(Civil(NumberAt(s, 0, 4), NumberAt(s, 5, 2), NumberAt(s, 8, 2),
                        NumberAt(s, 11, o - 11), NumberAt(s, o + 1, 2), NumberAt(s, o + 4, 2), 0), s[o + 6..]))
  }

  function ParseTail(f: string): Option<Tail> {
    var zone := ZoneOffset(f[FractionLength(f)..]);
    if zone.Some? then Some(Tail(Nanoseconds(f), zone.value)) else None
  }

  function Combine(head: Option<Head>, tail: Option<Tail>): Option<int> {
    if head.None? || tail.None? then None
    else
      var c := head.value.date.(nanos := tail.value.nanos);
      if Valid(c) then Some(InstantOf(c) - tail.value.offset) else None
  }

  /** time.Parse with the RFC 3339 layout. */
  function Parse(s: string): Option<int> {
    var head := ParseHead(s);
    if head.None? then None else Combine(head, ParseTail(head.value.rest))
  }

  lemma {:induction false} FieldAt(s: string, i: nat, n: nat, k: nat)
    requires n < Pow10(k) && i + k <= |s| && s[i..i + k] == Padded(n, k)
    ensures DigitsAt(s, i, k) && NumberAt(s, i, k) == n
  {
    if k > 0 {
      assert forall j :: i <= j < i + k ==> s[j] == Padded(n, k)[j - i];
      assert s[i..i + (k - 1)] == s[i..i + k][..k - 1] == Padded(n / 10, k - 1);
      FieldAt(s, i, n / 10, k - 1);
    }
  }

  lemma {:induction false} RunStops(s: string, i: nat, n: nat)
    requires DigitsAt(s, i, n) && i + n < |s| && !IsDigit(s[i + n])
    ensures DigitRun(s, i) == n
    decreases n
  {
    if n > 0 {
      RunStops(s, i + 1, n - 1);
    }
  }

  /** A fraction followed by something else. */
  lemma FractionReads(digits: string, zone: string)
    requires digits != [] && AllDigits(digits) && zone != [] && !IsDigit(zone[0])
    ensures var f := "." + (digits + zone);
      && FractionLength(f) == 1 + |digits| && f[1 + |digits|..] == zone
      && Nanoseconds(f) == Value(NineDigits(digits))
  {
    var f := "." + (digits + zone);
    assert f[1..1 + |digits|] == digits;
    assert f[1 + |digits|] == zone[0];
    RunStops(f, 1, |digits|);
  }

  lemma FixedTailReads(n: nat)
    requires n < NANOS
    ensures ParseTail(FixedTail(n)) == Some(Tail(n, 0))
  {
    WidthsSuffice();
    FractionReads(Padded(n, 9), "Z");
    assert NineDigits(Padded(n, 9)) == Padded(n, 9);
    ValueOfPadded(n, 9);
  }

  /** Where the fields of a text stand. */
  lemma DateStands(year: string, month: string, day: string, clock: string)
    requires |year| == 4 && |month| == 2 && |day| == 2
    ensures var s := year + ("-" + (month + ("-" + (day + ("T" + clock)))));
      && |s| == 11 + |clock| && s[4] == '-' && s[7] == '-' && s[10] == 'T'
      && s[0..4] == year && s[5..7] == month && s[8..10] == day && s[11..] == clock
  {
  }

  lemma ClockStands(hour: string, minute: string, second: string, tail: string)
    requires |hour| == 2 && |minute| == 2 && |second| == 2
    ensures var s := hour + (":" + (minute + (":" + (second + tail))));
      && |s| == 8 + |tail| && s[2] == ':' && s[5] == ':'
      && s[0..2] == hour && s[3..5] == minute && s[6..8] == second && s[8..] == tail
  {
  }

  lemma FieldsStand(c: Civil, tail: string)
    ensures var s := Padded(c.year, 4) + RestText(c, tail);
      && |s| >= 19 && s[4] == '-' && s[7] == '-' && s[10] == 'T' && s[13] == ':' && s[16] == ':'
      && s[0..4] == Padded(c.year, 4) && s[5..7] == Padded(c.month, 2) && s[8..10] == Padded(c.day, 2)
      && s[11..13] == Padded(c.hour, 2) && s[14..16] == Padded(c.minute, 2) && s[17..19] == Padded(c.second, 2)
      && s[19..] == tail
  {
    DateStands(Padded(c.year, 4), Padded(c.month, 2), Padded(c.day, 2), ClockText(c, tail));
    ClockStands(Padded(c.hour, 2), Padded(c.minute, 2), Padded(c.second, 2), tail);
    Shift(Padded(c.year, 4) + RestText(c, tail), ClockText(c, tail));
  }

  lemma Shift(s: string, clock: string)
    requires |s| >= 11 && s[11..] == clock && |clock| >= 8
    ensures s[13] == clock[2] && s[16] == clock[5]
    ensures s[11..13] == clock[0..2] && s[14..16] == clock[3..5] && s[17..19] == clock[6..8] && s[19..] == clock[8..]
  {
  }

  lemma HeadReads(c: Civil, tail: string)
    requires Valid(c) && c.year < 10_000
    ensures ParseHead(Padded(c.year, 4) + RestText(c, tail)) == Some(Head(c.(nanos := 0), tail))
  {
    FieldsStand(c, tail);
    FieldsRead(Padded(c.year, 4) + RestText(c, tail), c);
  }

  lemma FieldsRead(s: string, c: Civil)
    requires Valid(c) && c.year < 10_000
    requires |s| >= 19 && s[4] == '-' && s[7] == '-' && s[10] == 'T' && s[13] == ':' && s[16] == ':'
    requires s[0..4] == Padded(c.year, 4) && s[5..7] == Padded(c.month, 2) && s[8..10] == Padded(c.day, 2)
    requires s[11..13] == Padded(c.hour, 2) && s[14..16] == Padded(c.minute, 2) && s[17..19] == Padded(c.second, 2)
    ensures ParseHead(s) == Some(Head(c.(nanos := 0), s[19..]))
  {
    WidthsSuffice();
    FieldAt(s, 0, c.year, 4);
    FieldAt(s, 5, c.month, 2);
    FieldAt(s, 8, c.day, 2);
    FieldAt(s, 11, c.hour, 2);
    FieldAt(s, 14, c.minute, 2);
    FieldAt(s, 17, c.second, 2);
    assert s[11] == s[11..13][0] && s[12] == s[11..13][1];
  }

  lemma PartsCombine(s: string, c: Civil, tail: string, offset: int, t: int)
    requires Valid(c) && t == InstantOf(c) - offset
    requires ParseHead(s) == Some(Head(c.(nanos := 0), tail))
    requires ParseTail(tail) == Some(Tail(c.nanos, offset))
    ensures Parse(s) == Some(t)
  {
    assert c.(nanos := 0).(nanos := c.nanos) == c;
  }

  lemma NegativeYearText(t: int)
    requires t < 0
    ensures |FormatTS(t)| >= 1 && FormatTS(t)[0] == '-'
  {
    YearRange(t + Lift(t) * 12_622_780_800_000_000_000);
  }

  lemma LongYearText(t: int)
    requires t >= END
    ensures |FormatTS(t)| > 4 && IsDigit(FormatTS(t)[4])
  {
    YearRange(t);
    WidthsSuffice();
    var y := CivilOf(t).year;
    DecimalLength(y, 4);
    assert FormatTS(t)[4] == Decimal(y)[4];
  }

  /** Parse wants four digits and then a hyphen. */
  lemma OddYearIsRefused(s: string)
    requires |s| >= 1 && (s[0] == '-' || (|s| > 4 && IsDigit(s[4])))
    ensures Parse(s).None?
  {
    if |s| >= 4 {
      assert s[0..4][0] == s[0];
    }
  }

  lemma PartsOfText(t: int) returns (c: Civil, tail: string)
    requires 0 <= t < END
    ensures Valid(c) && InstantOf(c) == t
    ensures ParseHead(FormatTS(t)) == Some(Head(c.(nanos := 0), tail))
    ensures ParseTail(tail) == Some(Tail(c.nanos, 0))
  {
    c := Named(t);
    tail := FixedTail(c.nanos);
    HeadReads(c, tail);
    FixedTailReads(c.nanos);
  }

  lemma FourDigitYearIsRead(t: int)
    requires 0 <= t < END
    ensures Parse(FormatTS(t)) == Some(t)
  {
    var c, tail := PartsOfText(t);
    PartsCombine(FormatTS(t), c, tail, 0, t);
  }

  /** What formatTS writes, time.Parse reads back as the same instant exactly for the four-digit years, and refuses
      for every other. */
  lemma ParseInvertsFormat(t: int)
    ensures Parse(FormatTS(t)) == if 0 <= t < END then Some(t) else None
  {
    if t < 0 {
      NegativeYearText(t);
      OddYearIsRefused(FormatTS(t));
    } else if t >= END {
      LongYearText(t);
      OddYearIsRefused(FormatTS(t));
    } else {
      FourDigitYearIsRead(t);
    }
  }

  // ---------- text written by earlier binaries ----------

  function TrimZeros(s: string): (r: string)
    ensures |r| <= |s| && r == s[..|r|]
    ensures forall i :: |r| <= i < |s| ==> s[i] == '0'
  {
    if s != [] && s[|s| - 1] == '0' then TrimZeros(s[..|s| - 1]) else s
  }

  /** RFC3339Nano's fraction: trailing zeros dropped, and the period with them. */
  function TrimmedFraction(nanos: nat): string {
    if nanos == 0 then "" else "." + TrimZeros(Padded(nanos, 9))
  }

  lemma ZoneIsNoFraction(zone: string)
    requires ZoneOffset(zone).Some?
    ensures zone != [] && !IsDigit(zone[0]) && FractionLength(zone) == 0
  {
  }

  lemma TrimmedTailParts(n: nat, zone: string)
    requires n < NANOS && zone != [] && !IsDigit(zone[0]) && FractionLength(zone) == 0
    ensures var tail := TrimmedFraction(n) + zone;
      Nanoseconds(tail) == n && tail[FractionLength(tail)..] == zone
  {
    if n == 0 {
      assert TrimmedFraction(0) + zone == zone;
    } else {
      TrimmedDigits(n);
      FractionParts(TrimZeros(Padded(n, 9)), zone, n);
    }
  }

  lemma FractionParts(digits: string, zone: string, n: nat)
    requires digits != [] && AllDigits(digits) && zone != [] && !IsDigit(zone[0]) && Value(NineDigits(digits)) == n
    ensures var tail := "." + digits + zone;
      Nanoseconds(tail) == n && tail[FractionLength(tail)..] == zone
  {
    FractionReads(digits, zone);
    assert "." + digits + zone == "." + (digits + zone);
  }

  lemma TrimmedTailReads(n: nat, zone: string, offset: int)
    requires n < NANOS && ZoneOffset(zone) == Some(offset)
    ensures ParseTail(TrimmedFraction(n) + zone) == Some(Tail(n, offset))
  {
    ZoneIsNoFraction(zone);
    TrimmedTailParts(n, zone);
    TailFrom(TrimmedFraction(n) + zone, n, zone, offset);
  }

  lemma TailFrom(tail: string, n: nat, zone: string, offset: int)
    requires Nanoseconds(tail) == n && tail[FractionLength(tail)..] == zone && ZoneOffset(zone) == Some(offset)
    ensures ParseTail(tail) == Some(Tail(n, offset))
  {
  }

  lemma TrimmedDigits(n: nat)
    requires 0 < n < NANOS
    ensures var digits := TrimZeros(Padded(n, 9));
      digits != [] && AllDigits(digits) && Value(NineDigits(digits)) == n
  {
    var s := Padded(n, 9);
    WidthsSuffice();
    ValueOfPadded(n, 9);
    assert NineDigits(TrimZeros(s)) == s;
    if TrimZeros(s) == [] {
      ZerosAreZero(s);
    }
  }

  lemma {:induction false} ZerosAreZero(s: string)
    requires forall i :: 0 <= i < |s| ==> s[i] == '0'
    ensures AllDigits(s) && Value(s) == 0
  {
    if s != [] {
      ZerosAreZero(s[..|s| - 1]);
    }
  }

  /** What an earlier binary wrote for a local date and time. */
  function TrimmedText(c: Civil, zone: string): string {
    YearText(c.year) + RestText(c, TrimmedFraction(c.nanos) + zone)
  }

  lemma PartsOfTrimmedText(c: Civil, zone: string, offset: int) returns (tail: string)
    requires Valid(c) && c.year < 10_000 && ZoneOffset(zone) == Some(offset)
    ensures ParseHead(TrimmedText(c, zone)) == Some(Head(c.(nanos := 0), tail))
    ensures ParseTail(tail) == Some(Tail(c.nanos, offset))
  {
    tail := TrimmedFraction(c.nanos) + zone;
    HeadReads(c, tail);
    TrimmedTailReads(c.nanos, zone, offset);
  }

  /** The trimmed form, at any zone offset, is read as the instant that its date, time and offset name. */
  lemma TrimmedTextIsRead(c: Civil, zone: string, offset: int, t: int)
    requires Valid(c) && c.year < 10_000 && ZoneOffset(zone) == Some(offset) && t == InstantOf(c) - offset
    ensures Parse(TrimmedText(c, zone)) == Some(t)
  {
    var tail := PartsOfTrimmedText(c, zone, offset);
    PartsCombine(TrimmedText(c, zone), c, tail, offset, t);
  }
}
