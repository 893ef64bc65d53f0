// ISO timestamps as written: the fields, the printed string, its order, and the instant it denotes.
module Timestamps {
  import opened CaveatValues

  // ---------- The calendar ----------

  // The days of the years 1 to 9999, which is what a datetime holds.
  const DAYS := 3652059

  const DAY_SECONDS := 86400

  type DayNumber = d: nat | d < DAYS

  type WallSeconds = n: nat | n < DAYS * DAY_SECONDS

  // Days from 0001-01-01 to the first day of a year.
  function DaysBeforeYear(y: nat): int
    requires y >= 1
  {
    365 * (y - 1) + (y - 1) / 4 - (y - 1) / 100 + (y - 1) / 400
  }

  predicate Leap(y: nat) {
    y % 4 == 0 && (y % 100 != 0 || y % 400 == 0)
  }

  lemma {:induction false} QuotientSteps(n: nat, d: nat)
    requires d == 4 || d == 100 || d == 400
    ensures (n + 1) / d == n / d + (if (n + 1) % d == 0 then 1 else 0)
  {
    if d == 4 {
    } else if d == 100 {
    } else {
    }
  }

  lemma {:induction false} CenturiesAreFourths(y: nat)
    ensures y % 400 == 0 ==> y % 100 == 0
    ensures y % 100 == 0 ==> y % 4 == 0
  {
    if y % 400 == 0 { assert y == 100 * (4 * (y / 400)); }
    if y % 100 == 0 { assert y == 4 * (25 * (y / 100)); }
  }

  lemma {:induction false} YearLength(y: nat)
    requires y >= 1
    ensures DaysBeforeYear(y + 1) == DaysBeforeYear(y) + (if Leap(y) then 366 else 365)
  {
    QuotientSteps(y - 1, 4);
    QuotientSteps(y - 1, 100);
    QuotientSteps(y - 1, 400);
    CenturiesAreFourths(y);
  }

  function YearFrom(d: DayNumber, y: nat): (r: nat)
    requires 1 <= y <= 9999 && DaysBeforeYear(y) <= d
    ensures y <= r <= 9999 && DaysBeforeYear(r) <= d < DaysBeforeYear(r + 1)
    decreases 9999 - y
  {
    if d < DaysBeforeYear(y + 1) then y
    else YearFrom(d, y + 1)
  }

  lemma {:induction false} YearsAscend(a: nat, b: nat)
    requires 1 <= a <= b
    ensures DaysBeforeYear(a) <= DaysBeforeYear(b)
    decreases b
  {
    if a < b {
      YearsAscend(a, b - 1);
      YearLength(b - 1);
    }
  }

  function DaysBeforeMonth(m: nat, leap: bool): nat
    requires 1 <= m <= 13
  {
    [0, 31, 59, 90, 120, 151, 181, 212, 243, 273, 304, 334, 365][m - 1] + if m > 2 && leap then 1 else 0
  }

  function MonthFrom(r: nat, leap: bool, m: nat): (k: nat)
    requires 1 <= m <= 12 && DaysBeforeMonth(m, leap) <= r < DaysBeforeMonth(13, leap)
    ensures m <= k <= 12 && DaysBeforeMonth(k, leap) <= r < DaysBeforeMonth(k + 1, leap)
    decreases 12 - m
  {
    if r < DaysBeforeMonth(m + 1, leap) then m else MonthFrom(r, leap, m + 1)
  }

  lemma {:induction false} MonthsAscend(a: nat, b: nat, leap: bool)
    requires 1 <= a <= b <= 13
    ensures DaysBeforeMonth(a, leap) <= DaysBeforeMonth(b, leap)
    ensures a < b ==> DaysBeforeMonth(a + 1, leap) <= DaysBeforeMonth(b, leap)
    ensures a < 13 ==> DaysBeforeMonth(a + 1, leap) <= DaysBeforeMonth(a, leap) + 31
  {
  }

  // ---------- Text order ----------

  // Strings that start with equally long parts are ordered by those parts first.
  lemma {:induction false} OrderByParts(a: string, b: string, s: string, t: string)
    requires |a| == |b|
    ensures StringLe(a + s, b + t) <==> (if a == b then StringLe(s, t) else StringLe(a, b))
  {
    if a == [] {
      assert a + s == s && b + t == t;
    } else {
      OrderByParts(a[1..], b[1..], s, t);
      assert (a + s)[1..] == a[1..] + s && (b + t)[1..] == b[1..] + t;
      assert a == [a[0]] + a[1..] && b == [b[0]] + b[1..];
    }
  }

  function Pow10(w: nat): (r: nat)
    ensures r >= 1
  {
    if w == 0 then 1 else 10 * Pow10(w - 1)
  }

  function DigitChar(d: Digit): char {
    ('0' as int + d) as char
  }

  // The last `w` decimal digits of `n`, zeros in front.
  function Digits(n: nat, w: nat): (s: string)
    ensures |s| == w
  {
    if w == 0 then "" else Digits(n / 10, w - 1) + [DigitChar(n % 10)]
  }

  lemma {:induction false} DigitsOrder(m: nat, n: nat, w: nat)
    requires m < Pow10(w) && n < Pow10(w)
    ensures StringLe(Digits(m, w), Digits(n, w)) <==> m <= n
    ensures Digits(m, w) == Digits(n, w) <==> m == n
  {
    if w > 0 {
      DigitsOrder(m / 10, n / 10, w - 1);
      OrderByParts(Digits(m / 10, w - 1), Digits(n / 10, w - 1), [DigitChar(m % 10)], [DigitChar(n % 10)]);
      assert Digits(m, w)[..w - 1] == Digits(m / 10, w - 1) && Digits(n, w)[..w - 1] == Digits(n / 10, w - 1);
      assert Digits(m, w)[w - 1] == DigitChar(m % 10) && Digits(n, w)[w - 1] == DigitChar(n % 10);
    }
  }

  // ---------- Timestamps ----------

  type Digit = d: nat | d < 10

  // The suffix: Z, or a sign and an offset of less than a day, in minutes.
  datatype Zone = Zulu | Numeric(minus: bool, minutes: Minutes)

  type Minutes = m: nat | m < 1440

  const UTC := Numeric(false, 0)

  // A timestamp as written: wall-clock seconds since 0001-01-01, the digits after the decimal point,
  // the character between date and time, and the suffix.
  datatype IsoTime = IsoTime(local: WallSeconds, fraction: seq<Digit>, sep: char, zone: Zone)

  function OffsetOf(z: Zone): int {
    match z
    case Zulu => 0
    case Numeric(minus, m) => if minus then 0 - m else m
  }

  // The first `k` digits after the decimal point as a number; the rest are dropped.
  function Scaled(f: seq<Digit>, k: nat): (r: nat)
    ensures r < Pow10(k)
  {
    if f == [] || k == 0 then 0
    else
      assert f[0] * Pow10(k - 1) <= 9 * Pow10(k - 1);
      f[0] * Pow10(k - 1) + Scaled(f[1..], k - 1)
  }

  const MICROS := 1000000

  // Microseconds since 0001-01-01 in UTC.
  function Instant(t: IsoTime): int {
    MICROS * (t.local - 60 * OffsetOf(t.zone)) + Scaled(t.fraction, 6)
  }

  function YearOf(d: DayNumber): (y: nat)
    ensures 1 <= y <= 9999 && DaysBeforeYear(y) <= d < DaysBeforeYear(y) + if Leap(y) then 366 else 365
  {
    var y := YearFrom(d, 1);
    YearLength(y);
    y
  }

  function MonthOf(d: DayNumber): (m: nat)
    ensures var y := YearOf(d);
      1 <= m <= 12 && DaysBeforeMonth(m, Leap(y)) <= d - DaysBeforeYear(y) < DaysBeforeMonth(m + 1, Leap(y))
  {
    MonthFrom(d - DaysBeforeYear(YearOf(d)), Leap(YearOf(d)), 1)
  }

  function DomOf(d: DayNumber): (i: nat)
    ensures 1 <= i <= 31
  {
    MonthsAscend(MonthOf(d), MonthOf(d), Leap(YearOf(d)));
    d - DaysBeforeYear(YearOf(d)) - DaysBeforeMonth(MonthOf(d), Leap(YearOf(d))) + 1
  }

  // Three numbers, fixed-width, with a mark between them.
  function Fields(y: nat, w: nat, m: nat, i: nat, mark: char): (s: string)
    ensures |s| == w + 6
  {
    Digits(y, w) + ([mark] + (Digits(m, 2) + ([mark] + Digits(i, 2))))
  }

  function DateText(d: DayNumber): string {
    Fields(YearOf(d), 4, MonthOf(d), DomOf(d), '-')
  }

  function ClockText(s: nat): string {
    Fields(s / 60 / 60, 2, s / 60 % 60, s % 60, ':')
  }

  function ZoneText(z: Zone): (s: string)
    ensures s != [] && s[0] == match z case Zulu => 'Z' case Numeric(minus, _) => if minus then '-' else '+'
  {
    match z
    case Zulu => ['Z']
    case Numeric(minus, m) => [if minus then '-' else '+'] + Digits(m / 60, 2) + [':'] + Digits(m % 60, 2)
  }

  function FractionText(f: seq<Digit>): (s: string)
    ensures |s| == |f|
  {
    if f == [] then [] else [DigitChar(f[0])] + FractionText(f[1..])
  }

  // What follows the seconds.
  function Tail(t: IsoTime): string {
    (if t.fraction == [] then [] else ['.'] + FractionText(t.fraction)) + ZoneText(t.zone)
  }

  function DayOf(t: IsoTime): DayNumber {
    t.local / DAY_SECONDS
  }

  function SecondOf(t: IsoTime): nat {
    t.local % DAY_SECONDS
  }

  // YYYY-MM-DD, the separator, HH:MM:SS, the fraction if any, and the suffix.
  function Print(t: IsoTime): string {
    DateText(DayOf(t)) + ([t.sep] + (ClockText(SecondOf(t)) + Tail(t)))
  }

  // How `attenuate` compares two expiries.
  predicate TextLe(a: IsoTime, b: IsoTime) {
    StringLe(Print(a), Print(b))
  }

  lemma {:induction false} FieldOrder(y: nat, z: nat, w: nat, m: nat, n: nat, i: nat, j: nat, mark: char)
    requires y < Pow10(w) && z < Pow10(w) && m < 100 && n < 100 && i < 100 && j < 100
    ensures StringLe(Fields(y, w, m, i, mark), Fields(z, w, n, j, mark)) <==> y < z || (y == z && (m < n || (m == n && i <= j)))
  {
    assert Pow10(2) == 100;
    DigitsOrder(y, z, w);
    DigitsOrder(m, n, 2);
    DigitsOrder(i, j, 2);
    var d, e := [mark] + Digits(i, 2), [mark] + Digits(j, 2);
    OrderByParts([mark], [mark], Digits(i, 2), Digits(j, 2));
    OrderByParts(Digits(m, 2), Digits(n, 2), d, e);
    OrderByParts([mark], [mark], Digits(m, 2) + d, Digits(n, 2) + e);
    OrderByParts(Digits(y, w), Digits(z, w), [mark] + (Digits(m, 2) + d), [mark] + (Digits(n, 2) + e));
  }

  // Later days have later years, months and days of the month.
  lemma {:induction false} CivilOrder(c: DayNumber, d: DayNumber)
    ensures c <= d <==> YearOf(c) < YearOf(d) || (YearOf(c) == YearOf(d)
                         && (MonthOf(c) < MonthOf(d) || (MonthOf(c) == MonthOf(d) && DomOf(c) <= DomOf(d))))
  {
    var y, z := YearOf(c), YearOf(d);
    if y < z {
      YearLength(y);
      YearsAscend(y + 1, z);
    } else if z < y {
      YearLength(z);
      YearsAscend(z + 1, y);
    } else if MonthOf(c) < MonthOf(d) {
      MonthsAscend(MonthOf(c), MonthOf(d), Leap(y));
    } else if MonthOf(d) < MonthOf(c) {
      MonthsAscend(MonthOf(d), MonthOf(c), Leap(y));
    }
  }

  lemma {:induction false} DateOrder(c: DayNumber, d: DayNumber)
    ensures StringLe(DateText(c), DateText(d)) <==> c <= d
  {
    assert Pow10(4) == 10000;
    FieldOrder(YearOf(c), YearOf(d), 4, MonthOf(c), MonthOf(d), DomOf(c), DomOf(d), '-');
    CivilOrder(c, d);
  }

  lemma {:induction false} ClockOrder(r: nat, s: nat)
    requires r < DAY_SECONDS && s < DAY_SECONDS
    ensures StringLe(ClockText(r), ClockText(s)) <==> r <= s
  {
    assert Pow10(2) == 100;
    var p, q := r / 60, s / 60;
    FieldOrder(p / 60, q / 60, 2, p % 60, q % 60, r % 60, s % 60, ':');
    assert r <= s <==> p < q || (p == q && r % 60 <= s % 60);
    assert p <= q <==> p / 60 < q / 60 || (p / 60 == q / 60 && p % 60 <= q % 60);
  }

  // The order of printed timestamps: date, separator, time of day, then what follows the seconds.
  predicate FieldsLe(a: IsoTime, b: IsoTime) {
    || DayOf(a) < DayOf(b)
    || (DayOf(a) == DayOf(b)
        && (a.sep < b.sep
            || (a.sep == b.sep
                && (SecondOf(a) < SecondOf(b) || (SecondOf(a) == SecondOf(b) && StringLe(Tail(a), Tail(b)))))))
  }

  lemma {:induction false} TextOrderIsFieldOrder(a: IsoTime, b: IsoTime)
    ensures TextLe(a, b) <==> FieldsLe(a, b)
  {
    var c, d := ClockText(SecondOf(a)), ClockText(SecondOf(b));
    var s, t := DateText(DayOf(a)), DateText(DayOf(b));
    DateOrder(DayOf(a), DayOf(b));
    DateOrder(DayOf(b), DayOf(a));
    ClockOrder(SecondOf(a), SecondOf(b));
    ClockOrder(SecondOf(b), SecondOf(a));
    StringLeTotalOrder(s, t, []);
    StringLeTotalOrder(c, d, []);
    OrderByParts(c, d, Tail(a), Tail(b));
    OrderByParts([a.sep], [b.sep], c + Tail(a), d + Tail(b));
    OrderByParts(s, t, [a.sep] + (c + Tail(a)), [b.sep] + (d + Tail(b)));
  }

  lemma {:induction false} FractionInjective(f: seq<Digit>, g: seq<Digit>, s: string, t: string)
    requires FractionText(f) + s == FractionText(g) + t
    requires s != [] && t != [] && !('0' <= s[0] <= '9') && !('0' <= t[0] <= '9')
    ensures f == g && s == t
  {
    var x, y := FractionText(f) + s, FractionText(g) + t;
    assert x[0] == if f == [] then s[0] else DigitChar(f[0]);
    assert y[0] == if g == [] then t[0] else DigitChar(g[0]);
    if f != [] {
      assert x[1..] == FractionText(f[1..]) + s && y[1..] == FractionText(g[1..]) + t;
      FractionInjective(f[1..], g[1..], s, t);
      assert f == [f[0]] + f[1..] && g == [g[0]] + g[1..];
    } else {
      assert x == s && y == t;
    }
  }

  lemma {:induction false} ZoneInjective(z: Zone, y: Zone)
    requires ZoneText(z) == ZoneText(y)
    ensures z == y
  {
    if z.Numeric? {
      assert Pow10(2) == 100;
      assert ZoneText(z)[1..3] == Digits(z.minutes / 60, 2) && ZoneText(y)[1..3] == Digits(y.minutes / 60, 2);
      assert ZoneText(z)[4..6] == Digits(z.minutes % 60, 2) && ZoneText(y)[4..6] == Digits(y.minutes % 60, 2);
      DigitsOrder(z.minutes / 60, y.minutes / 60, 2);
      DigitsOrder(z.minutes % 60, y.minutes % 60, 2);
    }
  }

  lemma {:induction false} TailInjective(a: IsoTime, b: IsoTime)
    requires Tail(a) == Tail(b)
    ensures a.fraction == b.fraction && a.zone == b.zone
  {
    assert Tail(a)[0] == if a.fraction == [] then ZoneText(a.zone)[0] else '.';
    assert Tail(b)[0] == if b.fraction == [] then ZoneText(b.zone)[0] else '.';
    if a.fraction != [] {
      assert Tail(a)[1..] == FractionText(a.fraction) + ZoneText(a.zone);
      assert Tail(b)[1..] == FractionText(b.fraction) + ZoneText(b.zone);
      FractionInjective(a.fraction, b.fraction, ZoneText(a.zone), ZoneText(b.zone));
    } else {
      assert Tail(a) == ZoneText(a.zone) && Tail(b) == ZoneText(b.zone);
    }
    ZoneInjective(a.zone, b.zone);
  }

  // A timestamp is its printed string: different timestamps print differently, and the string order is total on them.
  lemma {:induction false} PrintInjective(a: IsoTime, b: IsoTime)
    ensures Print(a) == Print(b) <==> a == b
  {
    if Print(a) == Print(b) {
      StringLeTotalOrder(Print(a), Print(b), []);
      TextOrderIsFieldOrder(a, b);
      TextOrderIsFieldOrder(b, a);
      StringLeTotalOrder(Tail(a), Tail(b), []);
      TailInjective(a, b);
    }
  }

  // ---------- When text order means time order ----------

  // The spelling of a timestamp: its separator, its suffix, and how many digits follow the seconds.
  datatype Spelling = Spelling(sep: char, zone: Zone, digits: nat)

  function SpellingOf(t: IsoTime): Spelling {
    Spelling(t.sep, t.zone, |t.fraction|)
  }

  // Same separator and offset, `p` ends in Z, and `n` carries more digits, at least one of them not dropped.
  predicate FractionSlips(n: Spelling, p: Spelling) {
    n.sep == p.sep && OffsetOf(n.zone) == OffsetOf(p.zone) && p.zone.Zulu? && n.digits > p.digits && p.digits < 6
  }

  // Timestamps of spelling `n` whose text is not after one of spelling `p` are never later instants.
  predicate OrderSafe(n: Spelling, p: Spelling) {
    || OffsetOf(n.zone) - OffsetOf(p.zone) >= 1440
    || (n.sep >= p.sep && OffsetOf(n.zone) >= OffsetOf(p.zone) && !FractionSlips(n, p))
  }

  lemma {:induction false} SmallerFirstDigit(f: seq<Digit>, g: seq<Digit>, k: nat)
    requires f != [] && g != [] && k > 0 && f[0] < g[0]
    ensures Scaled(f, k) <= Scaled(g, k)
  {
    var u := Pow10(k - 1);
    assert (f[0] + 1) * u <= g[0] * u;
  }

  lemma {:induction false} FirstDigits(f: seq<Digit>, g: seq<Digit>, s: string, t: string)
    requires f != [] && g != [] && StringLe(FractionText(f) + s, FractionText(g) + t)
    ensures f[0] < g[0] || (f[0] == g[0] && StringLe(FractionText(f[1..]) + s, FractionText(g[1..]) + t))
  {
    OrderByParts([DigitChar(f[0])], [DigitChar(g[0])], FractionText(f[1..]) + s, FractionText(g[1..]) + t);
    assert FractionText(f) + s == [DigitChar(f[0])] + (FractionText(f[1..]) + s);
    assert FractionText(g) + t == [DigitChar(g[0])] + (FractionText(g[1..]) + t);
  }

  // Digits followed by more text: in text order, the first is not the larger fraction, unless the
  // second ends early before a character that sorts after the digits.
  lemma {:induction false} FractionOrder(f: seq<Digit>, g: seq<Digit>, s: string, t: string, k: nat)
    requires StringLe(FractionText(f) + s, FractionText(g) + t)
    requires t != [] && (t[0] < '0' || |f| <= |g| || k <= |g|)
    ensures Scaled(f, k) <= Scaled(g, k)
    decreases |f|
  {
    if f != [] && g != [] && k > 0 {
      FirstDigits(f, g, s, t);
      if f[0] == g[0] {
        FractionOrder(f[1..], g[1..], s, t, k - 1);
      } else {
        SmallerFirstDigit(f, g, k);
      }
    }
  }

  lemma {:induction false} TailOrder(n: IsoTime, p: IsoTime)
    requires StringLe(Tail(n), Tail(p))
    requires !(p.zone.Zulu? && |n.fraction| > |p.fraction| && |p.fraction| < 6)
    ensures Scaled(n.fraction, 6) <= Scaled(p.fraction, 6)
  {
    var s, t := FractionText(n.fraction) + ZoneText(n.zone), FractionText(p.fraction) + ZoneText(p.zone);
    if n.fraction != [] && p.fraction != [] {
      assert Tail(n) == ['.'] + s && Tail(p) == ['.'] + t;
      OrderByParts(['.'], ['.'], s, t);
      FractionOrder(n.fraction, p.fraction, ZoneText(n.zone), ZoneText(p.zone), 6);
    }
  }

  lemma {:induction false} SafeSpellingsAgree(n: IsoTime, p: IsoTime)
    requires OrderSafe(SpellingOf(n), SpellingOf(p)) && FieldsLe(n, p)
    ensures Instant(n) <= Instant(p)
  {
    assert Pow10(6) == MICROS;
    if DayOf(n) == DayOf(p) && SecondOf(n) == SecondOf(p) && n.sep == p.sep && OffsetOf(n.zone) == OffsetOf(p.zone) {
      TailOrder(n, p);
    }
  }

  function Ones(k: nat): (f: seq<Digit>)
    ensures |f| == k
  {
    if k == 0 then [] else [1] + Ones(k - 1)
  }

  lemma {:induction false} MoreOnes(a: nat, b: nat, k: nat)
    requires a > b && b < k
    ensures Scaled(Ones(a), k) > Scaled(Ones(b), k)
    decreases b
  {
    assert Ones(a)[1..] == Ones(a - 1);
    if b > 0 {
      assert Ones(b)[1..] == Ones(b - 1);
      MoreOnes(a - 1, b - 1, k - 1);
    }
  }

  lemma {:induction false} MoreOnesSortFirst(a: nat, b: nat, s: string, t: string)
    requires a > b && t != [] && t[0] > '9'
    ensures StringLe(FractionText(Ones(a)) + s, FractionText(Ones(b)) + t)
    decreases b
  {
    assert Ones(a)[1..] == Ones(a - 1);
    if b > 0 {
      assert Ones(b)[1..] == Ones(b - 1);
      MoreOnesSortFirst(a - 1, b - 1, s, t);
      assert (FractionText(Ones(a)) + s)[1..] == FractionText(Ones(a - 1)) + s;
      assert (FractionText(Ones(b)) + t)[1..] == FractionText(Ones(b - 1)) + t;
    }
  }

  // At one wall-clock second, more digits sort before a Z and are later.
  lemma {:induction false} FractionSlip(n: Spelling, p: Spelling, a: IsoTime, b: IsoTime)
    requires FractionSlips(n, p) && SpellingOf(a) == n && SpellingOf(b) == p && a.local == b.local
    requires a.fraction == Ones(n.digits) && b.fraction == Ones(p.digits)
    ensures FieldsLe(a, b) && Instant(a) > Instant(b)
  {
    MoreOnes(n.digits, p.digits, 6);
    var s, t := FractionText(a.fraction) + ZoneText(n.zone), FractionText(b.fraction) + ZoneText(p.zone);
    assert Tail(a) == ['.'] + s;
    if b.fraction != [] {
      MoreOnesSortFirst(n.digits, p.digits, ZoneText(n.zone), ZoneText(p.zone));
      OrderByParts(['.'], ['.'], s, t);
      assert Tail(b) == ['.'] + t;
    }
    assert StringLe(Tail(a), Tail(b));
  }

  // A pair of timestamps, spelt as given, in text order and against time order.
  lemma {:induction false} UnsafeSpellingsDisagree(n: Spelling, p: Spelling) returns (a: IsoTime, b: IsoTime)
    requires !OrderSafe(n, p)
    ensures SpellingOf(a) == n && SpellingOf(b) == p && FieldsLe(a, b) && Instant(a) > Instant(b)
  {
    assert Pow10(6) == MICROS;
    a := IsoTime(DAY_SECONDS - 1, Ones(n.digits), n.sep, n.zone);
    b := IsoTime(if n.sep < p.sep then 0 else DAY_SECONDS, Ones(p.digits), p.sep, p.zone);
    if FractionSlips(n, p) {
      b := b.(local := DAY_SECONDS - 1);
      FractionSlip(n, p, a, b);
    }
  }

  // Text order implies time order, over all timestamps of two spellings, exactly for the safe pairs.
  lemma {:induction false} TextOrderMeetsTimeOrder(n: Spelling, p: Spelling)
    ensures (forall a, b :: SpellingOf(a) == n && SpellingOf(b) == p && TextLe(a, b) ==> Instant(a) <= Instant(b)) <==> OrderSafe(n, p)
  {
    if OrderSafe(n, p) {
      forall a, b | SpellingOf(a) == n && SpellingOf(b) == p && TextLe(a, b) ensures Instant(a) <= Instant(b) {
        TextOrderIsFieldOrder(a, b);
        SafeSpellingsAgree(a, b);
      }
    } else {
      var a, b := UnsafeSpellingsDisagree(n, p);
      TextOrderIsFieldOrder(a, b);
    }
  }

  // Three pairs on any day: an earlier wall clock in an earlier offset, a space against a T, a fraction against a bare Z.
  lemma {:induction false} LaterButNotAfter(d: DayNumber, at: IsoTime, late: IsoTime)
    requires
      || (at == IsoTime(d * DAY_SECONDS + 3600, [], 'T', UTC) && late == IsoTime(d * DAY_SECONDS + 3599, [], 'T', Numeric(true, 60)))
      || (at == IsoTime(d * DAY_SECONDS, [], 'T', UTC) && late == IsoTime(d * DAY_SECONDS + 86399, [], ' ', UTC))
      || (at == IsoTime(d * DAY_SECONDS, [], 'T', Zulu) && late == IsoTime(d * DAY_SECONDS, [5], 'T', Zulu))
    ensures Instant(late) > Instant(at) && FieldsLe(late, at)
  {
    assert Pow10(6) == MICROS;
    if at.zone.Zulu? {
      assert Tail(late)[0] == '.' && Tail(at) == ['Z'];
    }
  }
}
