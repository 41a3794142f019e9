/**
 * Display labels derived from a point's timestamp. The timestamp arrives
 * already decomposed into the fields PHP's `DateTime::format` reads:
 * 'H' (hour), 'd' (day of month), 'w' (weekday, 0 = Sunday) and 'M'
 * (month abbreviation).
 */
module Labels {

  type Hour = h: int | 0 <= h < 24
  type Day = d: int | 1 <= d <= 31 witness 1
  type Weekday = w: int | 0 <= w < 7
  type Month = m: int | 1 <= m <= 12 witness 1

  datatype DateTime = DateTime(hour: Hour, day: Day, weekday: Weekday, month: Month)

  /** The plugin's Sunday-first Spanish weekday table. */
  const Weekdays: seq<string> := ["Dom", "Lun", "Mar", "Mi\U{E9}", "Jue", "Vie", "S\U{E1}b"]

  /** What `format('M')` prints: English three-letter month names. */
  const Months: seq<string> :=
    ["Jan", "Feb", "Mar", "Apr", "May", "Jun", "Jul", "Aug", "Sep", "Oct", "Nov", "Dec"]

  predicate IsDigit(c: char) { '0' <= c <= '9' }

  predicate AllDigits(s: string) { forall i :: 0 <= i < |s| ==> IsDigit(s[i]) }

  /** The number a string of decimal digits denotes. */
  function DecimalValue(s: string): nat
    requires AllDigits(s)
  {
    if |s| == 0 then 0
    else DecimalValue(s[..|s| - 1]) * 10 + (s[|s| - 1] as int - '0' as int)
  }

  function Digit(d: int): char
    requires 0 <= d < 10
  {
    ('0' as int + d) as char
  }

  /** A two-digit, zero-padded number, as `format('H')` and `format('d')` print it. */
  function TwoDigits(n: nat): (s: string)
    requires n < 100
    ensures |s| == 2 && AllDigits(s)
    ensures DecimalValue(s) == n
    ensures s[0] == '0' <==> n < 10
  {
    var s := [Digit(n / 10), Digit(n % 10)];
    assert s[..1] == [Digit(n / 10)];
    assert DecimalValue(s[..1]) == n / 10 by {
      assert s[..1][..0] == [];
    }
    assert DecimalValue(s) == (n / 10) * 10 + n % 10;
    s
  }

  /** The label of one point, for the range kind `rango` ('dias', 'meses', anything else for hours). */
  function PointLabel(dt: DateTime, rango: string): string
  {
    if rango == "dias" then Weekdays[dt.weekday] + " " + TwoDigits(dt.day)
    else if rango == "meses" then Months[dt.month - 1]
    else TwoDigits(dt.hour) + "h"
  }

  /** The timestamp fields a label of range kind `rango` shows. */
  predicate SameSlot(a: DateTime, b: DateTime, rango: string)
  {
    if rango == "dias" then a.weekday == b.weekday && a.day == b.day
    else if rango == "meses" then a.month == b.month
    else a.hour == b.hour
  }

  lemma WeekdayNames(i: Weekday, j: Weekday)
    ensures |Weekdays[i]| == 3
    ensures Weekdays[i] == Weekdays[j] ==> i == j
  {
  }

  lemma MonthNames(i: Month, j: Month)
    ensures |Months[i - 1]| == 3
    ensures Months[i - 1] == Months[j - 1] ==> i == j
  {
  }

  lemma TwoDigitsInjective(m: nat, n: nat)
    requires m < 100 && n < 100
    ensures TwoDigits(m) == TwoDigits(n) ==> m == n
  {
  }

  /**
   * Two points get the same label exactly when they agree on the fields the
   * range kind shows: equal timestamps always give equal labels, and a label
   * pins down its hour, its weekday and day, or its month.
   */
  lemma {:induction false} LabelIdentifiesSlot(a: DateTime, b: DateTime, rango: string)
    ensures PointLabel(a, rango) == PointLabel(b, rango) <==> SameSlot(a, b, rango)
  {
    var la, lb := PointLabel(a, rango), PointLabel(b, rango);
    if rango == "dias" {
      WeekdayNames(a.weekday, b.weekday);
      WeekdayNames(b.weekday, a.weekday);
      if la == lb {
        assert la[..3] == Weekdays[a.weekday];
        assert lb[..3] == Weekdays[b.weekday];
        assert la[4..] == TwoDigits(a.day);
        assert lb[4..] == TwoDigits(b.day);
        TwoDigitsInjective(a.day, b.day);
      }
    } else if rango == "meses" {
      MonthNames(a.month, b.month);
    } else if la == lb {
      assert la[..2] == TwoDigits(a.hour);
      assert lb[..2] == TwoDigits(b.hour);
      TwoDigitsInjective(a.hour, b.hour);
    }
  }

  /** An hour label is the zero-padded hour followed by 'h', and reads back as that hour. */
  lemma HourLabelReadsBack(dt: DateTime, rango: string)
    requires rango != "dias" && rango != "meses"
    ensures var l := PointLabel(dt, rango);
      |l| == 3 && l[2] == 'h' && AllDigits(l[..2]) && DecimalValue(l[..2]) == dt.hour
  {
    assert PointLabel(dt, rango)[..2] == TwoDigits(dt.hour);
  }
}
