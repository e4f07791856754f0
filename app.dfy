/** The template filter of the blog's start-up script (app.py): the
    relative time shown beside a post or a comment. */
module App {
  import opened Common

  const MinutesAgo: string := "分钟前"
  const HoursAgo: string := "小时前"
  const DaysAgo: string := "天前"

  /** `datetime_filter(t)`, given `delta = int(time.time() - t)`, the
      whole seconds elapsed since `t` (app.py:38-47). `None` stands for
      the calendar date the filter shows for a week or more, which this
      model does not compute. */
  function DatetimeFilter(delta: int): (r: Option<string>)
    ensures r.None? <==> delta >= 604800
  {
    if delta < 60 then Some("1" + MinutesAgo)
    else if delta < 3600 then Some(Decimal(delta / 60) + MinutesAgo)
    else if delta < 86400 then Some(Decimal(delta / 3600) + HoursAgo)
    else if delta < 604800 then Some(Decimal(delta / 86400) + DaysAgo)
    else None
  }

  /** Each range of elapsed time falls in exactly one bucket, and the
      count shown is the number of whole units elapsed: 1 to 59 minutes
      (anything under a minute, including a time in the future, shows as
      one minute), 1 to 23 hours, or 1 to 6 days. */
  lemma Buckets(delta: int)
    ensures delta < 60 ==> DatetimeFilter(delta) == Some(Decimal(1) + MinutesAgo)
    ensures 60 <= delta < 3600 ==> var n := delta / 60;
      1 <= n <= 59 && 60 * n <= delta < 60 * (n + 1) && DatetimeFilter(delta) == Some(Decimal(n) + MinutesAgo)
    ensures 3600 <= delta < 86400 ==> var n := delta / 3600;
      1 <= n <= 23 && 3600 * n <= delta < 3600 * (n + 1) && DatetimeFilter(delta) == Some(Decimal(n) + HoursAgo)
    ensures 86400 <= delta < 604800 ==> var n := delta / 86400;
      1 <= n <= 6 && 86400 * n <= delta < 86400 * (n + 1) && DatetimeFilter(delta) == Some(Decimal(n) + DaysAgo)
  {
    assert Decimal(1) == "1";
  }

  /** The units a shown text counts in, and their suffixes. */
  datatype Unit = Minutes | Hours | Days

  function Suffix(u: Unit): string
  {
    match u
    case Minutes => MinutesAgo
    case Hours => HoursAgo
    case Days => DaysAgo
  }

  /** The shown text tells the reader the unit and the count: two elapsed
      times under a week that show alike lie in the same unit's range and
      hold the same number of whole units. */
  lemma SameTextSameTime(d1: int, d2: int)
    requires DatetimeFilter(d1).Some? && DatetimeFilter(d1) == DatetimeFilter(d2)
    ensures (d1 < 3600 && d2 < 3600 && (if d1 < 60 then 1 else d1 / 60) == (if d2 < 60 then 1 else d2 / 60))
         || (3600 <= d1 < 86400 && 3600 <= d2 < 86400 && d1 / 3600 == d2 / 3600)
         || (86400 <= d1 && 86400 <= d2 && d1 / 86400 == d2 / 86400)
  {
    var n1, u1 := Reading(d1);
    var n2, u2 := Reading(d2);
    TextInjective(n1, u1, n2, u2);
  }

  /** The count and unit `DatetimeFilter` shows for an elapsed time under
      a week. */
  lemma Reading(delta: int) returns (n: nat, u: Unit)
    requires delta < 604800
    ensures DatetimeFilter(delta) == Some(Decimal(n) + Suffix(u))
    ensures u == Minutes <==> delta < 3600
    ensures u == Hours <==> 3600 <= delta < 86400
    ensures u == Minutes ==> n == if delta < 60 then 1 else delta / 60
    ensures u == Hours ==> n == delta / 3600
    ensures u == Days ==> n == delta / 86400
  {
    if delta < 60 {
      assert Decimal(1) == "1";
      n, u := 1, Minutes;
    } else if delta < 3600 {
      n, u := delta / 60, Minutes;
    } else if delta < 86400 {
      n, u := delta / 3600, Hours;
    } else {
      n, u := delta / 86400, Days;
    }
  }

  /** Distinct counts or units print distinct texts. */
  lemma TextInjective(n1: nat, u1: Unit, n2: nat, u2: Unit)
    requires Decimal(n1) + Suffix(u1) == Decimal(n2) + Suffix(u2)
    ensures n1 == n2 && u1 == u2
  {
    var t := Decimal(n1) + Suffix(u1);
    var a, b := |Decimal(n1)|, |Decimal(n2)|;
    DigitsThenSuffix(n1, u1);
    DigitsThenSuffix(n2, u2);
    assert a == b;
    assert Decimal(n1) == t[..a] == Decimal(n2);
    assert Suffix(u1) == t[a..] == Suffix(u2);
    DecimalInjective(n1, n2);
    SuffixesDistinct(u1, u2);
  }

  /** A shown text is the count's digits up to its first non-digit. */
  lemma DigitsThenSuffix(n: nat, u: Unit)
    ensures var t := Decimal(n) + Suffix(u);
      |t| > |Decimal(n)| && !('0' <= t[|Decimal(n)|] <= '9') &&
      forall i :: 0 <= i < |Decimal(n)| ==> '0' <= t[i] <= '9'
  {
  }

  lemma SuffixesDistinct(u1: Unit, u2: Unit)
    requires Suffix(u1) == Suffix(u2)
    ensures u1 == u2
  {
    assert MinutesAgo[0] != HoursAgo[0] && MinutesAgo[0] != DaysAgo[0] && HoursAgo[0] != DaysAgo[0];
  }

  /** `'%s' % n` prints distinct naturals differently. */
  lemma {:induction false} DecimalInjective(a: nat, b: nat)
    requires Decimal(a) == Decimal(b)
    ensures a == b
  {
    assert |Decimal(a)| == 1 <==> a < 10;
    assert |Decimal(b)| == 1 <==> b < 10;
    if a < 10 {
      DigitValue(a);
      DigitValue(b);
    } else {
      var da, db := Decimal(a), Decimal(b);
      assert da[..|da| - 1] == Decimal(a / 10) && db[..|db| - 1] == Decimal(b / 10);
      DecimalInjective(a / 10, b / 10);
      DigitValue(a % 10);
      DigitValue(b % 10);
    }
  }

  lemma DigitValue(d: nat)
    requires d < 10
    ensures Digit(d) as int == '0' as int + d
  {
  }
}
