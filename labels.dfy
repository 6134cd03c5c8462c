/**
 * The fixed text of the report labels: zero-padded two-digit numbers,
 * Vietnamese weekday names, bucket labels for months, days and hours,
 * group labels, and the code-point order in which strings are compared.
 */
module Labels {
  import opened Domain

  function Digit(d: int): char
    requires 0 <= d <= 9
  {
    (48 + d) as char
  }

  /** A number below 100 written with two digits, zero-padded. */
  function TwoDigits(n: int): string
    requires 0 <= n <= 99
  {
    [Digit(n / 10), Digit(n % 10)]
  }

  /** The value of a string of decimal digits. */
  function DigitsValue(s: string): int {
    if s == [] then 0 else DigitsValue(s[..|s| - 1]) * 10 + (s[|s| - 1] as int - 48)
  }

  /** Reading a two-digit label back gives the number again. */
  lemma TwoDigitsRoundTrip(n: int)
    requires 0 <= n <= 99
    ensures |TwoDigits(n)| == 2 && DigitsValue(TwoDigits(n)) == n
  {
    var s, hi, lo := TwoDigits(n), n / 10, n % 10;
    assert n == 10 * hi + lo;
    assert s[..1] == [Digit(hi)] && s[..1][..0] == [];
    assert DigitsValue(s[..1]) == hi;
    assert DigitsValue(s) == DigitsValue(s[..1]) * 10 + lo;
  }

  lemma TwoDigitsInjective(m: int, n: int)
    requires 0 <= m <= 99 && 0 <= n <= 99
    ensures TwoDigits(m) == TwoDigits(n) <==> m == n
  {
    TwoDigitsRoundTrip(m);
    TwoDigitsRoundTrip(n);
  }

  /** Month label of the monthly report: `MM`. */
  function MonthLabel(m: Month): string {
    TwoDigits(m)
  }

  /** Month label of the month-and-group report: `Tháng MM`. */
  function MonthTitle(m: Month): string {
    "Tháng " + TwoDigits(m)
  }

  /** Day-of-month label: `Ngày NN`. */
  function DayLabel(d: Day): string {
    "Ngày " + TwoDigits(d)
  }

  /** Hour label: `HH:00-HH:59`. */
  function HourLabel(h: Hour): string {
    TwoDigits(h) + ":00-" + TwoDigits(h) + ":59"
  }

  /** The second space-separated word of a day label reads back as the day. */
  lemma DayLabelKey(d: Day)
    ensures |DayLabel(d)| == 7 && DayLabel(d)[4] == ' ' && DigitsValue(DayLabel(d)[5..]) == d
  {
    TwoDigitsRoundTrip(d);
    assert DayLabel(d)[5..] == TwoDigits(d);
  }

  /** The text before the first colon of an hour label reads back as the hour. */
  lemma HourLabelKey(h: Hour)
    ensures |HourLabel(h)| == 11 && HourLabel(h)[2] == ':' && DigitsValue(HourLabel(h)[..2]) == h
  {
    TwoDigitsRoundTrip(h);
    assert HourLabel(h)[..2] == TwoDigits(h);
  }

  /** Weekday names indexed by the database's week-day number minus one (Sunday first). */
  const WeekdayNames: seq<string> :=
    ["Chủ Nhật", "Thứ Hai", "Thứ Ba", "Thứ Tư", "Thứ Năm", "Thứ Sáu", "Thứ Bảy"]

  /** The order of the weekday report, Monday to Sunday. */
  const WeekdaysOrder: seq<string> :=
    ["Thứ Hai", "Thứ Ba", "Thứ Tư", "Thứ Năm", "Thứ Sáu", "Thứ Bảy", "Chủ Nhật"]

  function WeekdayName(w: Weekday): string {
    WeekdayNames[w - 1]
  }

  /** The position of a name in the Monday-to-Sunday order; 7 when it is not a weekday name. */
  function WeekdayRank(name: string): nat {
    if name == WeekdaysOrder[0] then 0
    else if name == WeekdaysOrder[1] then 1
    else if name == WeekdaysOrder[2] then 2
    else if name == WeekdaysOrder[3] then 3
    else if name == WeekdaysOrder[4] then 4
    else if name == WeekdaysOrder[5] then 5
    else if name == WeekdaysOrder[6] then 6
    else 7
  }

  /**
   * Monday (week day 2) ranks first and Sunday (week day 1) last, and
   * distinct week days have distinct names.
   */
  lemma WeekdayNameRank(w: Weekday, v: Weekday)
    ensures WeekdaysOrder[WeekdayRank(WeekdayName(w))] == WeekdayName(w)
    ensures WeekdayRank(WeekdayName(w)) == (w + 5) % 7
    ensures WeekdayName(w) == WeekdayName(v) <==> w == v
  {
  }

  /** Group label: `[code] name`. */
  function GroupLabel(code: string, name: string): string {
    "[" + code + "] " + name
  }

  /** String order by code points, a proper prefix coming first. */
  predicate LexLess(a: string, b: string)
    decreases |a|
  {
    if a == [] then b != []
    else if b == [] then false
    else if a[0] != b[0] then a[0] < b[0]
    else LexLess(a[1..], b[1..])
  }

  /** Any two distinct strings are ordered one way round. */
  lemma {:induction false} LexTotal(a: string, b: string)
    ensures a == b || LexLess(a, b) || LexLess(b, a)
    decreases |a|
  {
    if a != [] && b != [] && a[0] == b[0] {
      LexTotal(a[1..], b[1..]);
      assert a == [a[0]] + a[1..] && b == [b[0]] + b[1..];
    }
  }

  lemma {:induction false} LexCommonPrefix(p: string, x: string, y: string)
    ensures LexLess(p + x, p + y) <==> LexLess(x, y)
    decreases |p|
  {
    if p != [] {
      assert (p + x)[1..] == p[1..] + x && (p + y)[1..] == p[1..] + y;
      LexCommonPrefix(p[1..], x, y);
    } else {
      assert p + x == x && p + y == y;
    }
  }

  /** Two-digit labels compare as strings the way their numbers compare. */
  lemma TwoDigitsOrder(m: int, n: int)
    requires 0 <= m <= 99 && 0 <= n <= 99
    ensures LexLess(TwoDigits(m), TwoDigits(n)) <==> m < n
  {
    var x, y := TwoDigits(m), TwoDigits(n);
    assert m == 10 * (m / 10) + m % 10 && n == 10 * (n / 10) + n % 10;
    assert x[1..] == [x[1]] && y[1..] == [y[1]];
    assert [x[1]][1..] == [] && [y[1]][1..] == [];
    assert LexLess([x[1]], [y[1]]) <==> m % 10 < n % 10;
    assert LexLess(x, y) <==> m / 10 < n / 10 || (m / 10 == n / 10 && m % 10 < n % 10);
  }

  /** Comparing month labels as strings orders them by month. */
  lemma MonthTitleOrder(m: Month, n: Month)
    ensures LexLess(MonthTitle(m), MonthTitle(n)) <==> m < n
  {
    LexCommonPrefix("Tháng ", TwoDigits(m), TwoDigits(n));
    TwoDigitsOrder(m, n);
  }
}
