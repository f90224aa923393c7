/** Months as instants: where each begins, and that together they cover every instant once. */
module Calendar {
  import opened Prelude

  const DAY_SEC: Time := 86400.0
  const MAX_YEAR: int := 9999

  predicate IsLeap(year: int) {
    year % 4 == 0 && (year % 100 != 0 || year % 400 == 0)
  }

  function DaysInMonth(year: int, month: int): (n: int)
    ensures 28 <= n <= 31
  {
    if month == 2 then (if IsLeap(year) then 29 else 28)
    else if month == 4 || month == 6 || month == 9 || month == 11 then 30
    else 31
  }

  /** Months counted from January of year 1. */
  function YearOf(i: nat): int { i / 12 + 1 }

  function MonthOf(i: nat): int { i % 12 + 1 }

  function IndexOf(year: int, month: int): int { (year - 1) * 12 + month - 1 }

  /** The day number of the first of a month. */
  function FirstDay(i: nat): (d: nat)
    ensures d >= i
  {
    if i == 0 then 0 else FirstDay(i - 1) + DaysInMonth(YearOf(i - 1), MonthOf(i - 1))
  }

  function Midnight(day: int): Time {
    day as real * DAY_SEC
  }

  function DayOf(t: Time): int {
    (t / DAY_SEC).Floor
  }

  lemma DayOfIff(t: Time, day: int)
    ensures DayOf(t) == day <==> Midnight(day) <= t < Midnight(day + 1)
    ensures Midnight(day) == day as real * 86400.0
  {
    var q := t / DAY_SEC;
    assert q * DAY_SEC == t;
  }

  /** Days of the year before the first of a month, in a year that is not leap. */
  const DAYS_BEFORE: seq<int> := [0, 31, 59, 90, 120, 151, 181, 212, 243, 273, 304, 334, 365]

  function DaysBefore(leap: bool, m: nat): int
    requires m <= 12
  {
    DAYS_BEFORE[m] + if leap && m > 1 then 1 else 0
  }

  lemma MonthLength(year: nat, m: nat)
    requires 0 < m <= 12
    ensures var leap := year % 4 == 0 && (year % 100 != 0 || year % 400 == 0);
            DaysBefore(leap, m) == DaysBefore(leap, m - 1) + DaysInMonth(year, m)
  {
  }

  lemma NextMonth(y: nat, m: nat)
    requires 0 < m <= 12
    ensures FirstDay(12 * y + m) == FirstDay(12 * y + (m - 1)) + DaysInMonth(y + 1, m)
  {
    var i := 12 * y + (m - 1);
    assert YearOf(i) == y + 1 && MonthOf(i) == m;
  }

  /** The twelve months of a year, from its first to the first of the next. */
  lemma {:induction false} YearLayout(y: nat, m: nat)
    requires m <= 12
    ensures var year := y + 1;
            var leap := year % 4 == 0 && (year % 100 != 0 || year % 400 == 0);
            FirstDay(12 * y + m) == FirstDay(12 * y) + DAYS_BEFORE[m] + if leap && m > 1 then 1 else 0
    decreases m
  {
    if m > 0 {
      YearLayout(y, m - 1);
      NextMonth(y, m);
      MonthLength(y + 1, m);
    }
  }

  lemma OneMoreMultiple(y: nat)
    requires y > 0
    ensures y / 4 == (y - 1) / 4 + if y % 4 == 0 then 1 else 0
    ensures y / 100 == (y - 1) / 100 + if y % 100 == 0 then 1 else 0
    ensures y / 400 == (y - 1) / 400 + if y % 400 == 0 then 1 else 0
    ensures (y % 400 == 0 ==> y % 100 == 0) && (y % 100 == 0 ==> y % 4 == 0)
  {
  }

  /** Leap years up to and with a year. */
  function Leaps(y: nat): int {
    y / 4 - y / 100 + y / 400
  }

  lemma OneMoreLeap(y: nat)
    requires y > 0
    ensures Leaps(y) == Leaps(y - 1) + if y % 4 == 0 && (y % 100 != 0 || y % 400 == 0) then 1 else 0
  {
    OneMoreMultiple(y);
  }

  lemma YearLength(y: nat)
    requires y > 0
    ensures FirstDay(12 * y) == FirstDay(12 * (y - 1)) + 365 + if y % 4 == 0 && (y % 100 != 0 || y % 400 == 0) then 1 else 0
  {
    YearLayout(y - 1, 12);
    assert 12 * (y - 1) + 12 == 12 * y;
  }

  /** The Gregorian calendar in closed form: where a year and each of its months begin. */
  lemma {:induction false} YearBegins(y: nat)
    ensures FirstDay(12 * y) == 365 * y + Leaps(y)
    ensures Leaps(y) == y / 4 - y / 100 + y / 400
  {
    if y > 0 {
      YearBegins(y - 1);
      YearLength(y);
      OneMoreLeap(y);
    }
  }

  predicate ValidMonth(year: int, month: int) {
    1 <= year <= MAX_YEAR && 1 <= month <= 12
  }

  /** `datetime(year, month, 1)`; None is its ValueError. */
  function FirstOf(year: int, month: int): Option<Time> {
    if ValidMonth(year, month) then Some(Midnight(FirstDay(IndexOf(year, month)))) else None
  }

  function MonthBounds(year: int, month: int): Option<(Time, Time)> {
    var start := FirstOf(year, month);
    var end := if month == 12 then FirstOf(year + 1, 1) else FirstOf(year, month + 1);
    if start.Some? && end.Some? then Some((start.value, end.value)) else None
  }

  lemma IndexInverts(year: int, month: int)
    requires ValidMonth(year, month)
    ensures IndexOf(year, month) >= 0
    ensures YearOf(IndexOf(year, month)) == year && MonthOf(IndexOf(year, month)) == month
    ensures IndexOf(year, month) + 1 == if month == 12 then IndexOf(year + 1, 1) else IndexOf(year, month + 1)
  {
  }

  /** The bounds are those of consecutive months; only December 9999 has none, as its end has no date. */
  lemma BoundsAbut(year: int, month: int)
    ensures MonthBounds(year, month).Some? <==> ValidMonth(year, month) && (year, month) != (MAX_YEAR, 12)
    ensures MonthBounds(year, month).Some? ==>
              var i := IndexOf(year, month);
              i >= 0 && MonthBounds(year, month).value == (Midnight(FirstDay(i)), Midnight(FirstDay(i + 1)))
  {
    if ValidMonth(year, month) {
      IndexInverts(year, month);
    }
  }

  ghost predicate InMonth(t: Time, i: nat) {
    Midnight(FirstDay(i)) <= t < Midnight(FirstDay(i + 1))
  }

  lemma {:induction false} MonthsIncrease(i: nat, j: nat)
    requires i <= j
    ensures FirstDay(i) <= FirstDay(j)
  {
    if i < j {
      MonthsIncrease(i, j - 1);
    }
  }

  lemma MonthsAreDisjoint(t: Time, i: nat, j: nat)
    requires InMonth(t, i) && i < j
    ensures !InMonth(t, j)
  {
    MonthsIncrease(i + 1, j);
  }

  lemma {:induction false} MonthsCoverTime(t: Time, n: nat) returns (i: nat)
    requires 0.0 <= t < Midnight(FirstDay(n))
    ensures i < n && InMonth(t, i)
  {
    if t >= Midnight(FirstDay(n - 1)) {
      i := n - 1;
    } else {
      i := MonthsCoverTime(t, n - 1);
    }
  }

  ghost predicate BoundsContain(year: int, month: int, t: Time) {
    MonthBounds(year, month).Some? && MonthBounds(year, month).value.0 <= t < MonthBounds(year, month).value.1
  }

  lemma BoundsContainIff(year: int, month: int, t: Time)
    ensures BoundsContain(year, month, t) <==>
              ValidMonth(year, month) && (year, month) != (MAX_YEAR, 12)
              && IndexOf(year, month) >= 0 && InMonth(t, IndexOf(year, month))
  {
    BoundsAbut(year, month);
  }

  /** The bounds of exactly one month contain an instant, up to the month that has no bounds. */
  lemma EveryInstantHasOneMonth(t: Time) returns (year: int, month: int)
    requires 0.0 <= t < Midnight(FirstDay(119987))
    ensures BoundsContain(year, month, t)
    ensures forall y, m :: BoundsContain(y, m, t) ==> y == year && m == month
  {
    var i := MonthsCoverTime(t, 119987);
    year, month := YearOf(i), MonthOf(i);
    assert IndexOf(year, month) == i;
    BoundsContainIff(year, month, t);
    forall y, m | BoundsContain(y, m, t) ensures y == year && m == month {
      BoundsContainIff(y, m, t);
      OnlyMonthIs(t, i, IndexOf(y, m));
      IndexInverts(y, m);
    }
  }

  lemma OnlyMonthIs(t: Time, i: nat, j: nat)
    requires InMonth(t, i) && InMonth(t, j)
    ensures i == j
  {
    if i < j { MonthsAreDisjoint(t, i, j); }
    if j < i { MonthsAreDisjoint(t, j, i); }
  }
}

/** Reporting realised profit by day and by month, in cents. */
module Performance {
  import opened Prelude
  import opened Money
  import opened TradeLedger
  import opened Calendar

  function TradeCashflow(row: Execution): Option<int> {
    if row.status != Filled then None else row.pnl
  }

  /** A user's realised profit from filled rows created in an interval. */
  function CashIn(rows: seq<Execution>, user: UserId, from: Time, to: Time): int {
    if rows == [] then 0
    else CashIn(rows[..|rows| - 1], user, from, to) + CashOfRow(rows[|rows| - 1], user, from, to)
  }

  function CashOfRow(row: Execution, user: UserId, from: Time, to: Time): int {
    if row.user == user && from <= row.created < to then TradeCashflow(row).GetOr(0) else 0
  }

  /** The same without an end. */
  function CashSince(rows: seq<Execution>, user: UserId, from: Time): int {
    if rows == [] then 0
    else CashSince(rows[..|rows| - 1], user, from) +
         var row := rows[|rows| - 1];
         if row.user == user && from <= row.created then TradeCashflow(row).GetOr(0) else 0
  }

  function TotalCash(rows: seq<Execution>, user: UserId): int {
    if rows == [] then 0
    else TotalCash(rows[..|rows| - 1], user) +
         var row := rows[|rows| - 1];
         if row.user == user then TradeCashflow(row).GetOr(0) else 0
  }

  lemma {:induction false} IntervalsAdd(rows: seq<Execution>, user: UserId, from: Time, mid: Time, to: Time)
    requires from <= mid <= to
    ensures CashIn(rows, user, from, to) == CashIn(rows, user, from, mid) + CashIn(rows, user, mid, to)
  {
    if rows != [] {
      IntervalsAdd(rows[..|rows| - 1], user, from, mid, to);
    }
  }

  lemma {:induction false} SinceSplits(rows: seq<Execution>, user: UserId, from: Time, mid: Time)
    requires from <= mid
    ensures CashSince(rows, user, from) == CashIn(rows, user, from, mid) + CashSince(rows, user, mid)
  {
    if rows != [] {
      SinceSplits(rows[..|rows| - 1], user, from, mid);
    }
  }

  // ----- daily profit -----

  ghost predicate HasCashOn(rows: seq<Execution>, user: UserId, day: int) {
    exists i :: 0 <= i < |rows| && rows[i].user == user && DayOf(rows[i].created) == day && TradeCashflow(rows[i]).Some?
  }

  /** What the days of a month show: exactly the days with a realised trade, each with its sum. */
  ghost predicate DaysOf(rows: seq<Execution>, user: UserId, first: int, last: int, byDay: map<int, int>) {
    forall day :: && (day in byDay <==> first <= day < last && HasCashOn(rows, user, day))
                  && (first <= day < last ==>
                        (if day in byDay then byDay[day] else 0) == CashIn(rows, user, Midnight(day), Midnight(day + 1)))
  }

  method DailyPnl(rows: seq<Execution>, user: UserId, year: int, month: int) returns (report: Option<map<int, int>>)
    ensures report.Some? <==> MonthBounds(year, month).Some?
    ensures report.Some? ==>
              var i := IndexOf(year, month);
              i >= 0 && DaysOf(rows, user, FirstDay(i), FirstDay(i + 1), report.value)
  {
    var bounds := MonthBounds(year, month);
    BoundsAbut(year, month);
    if bounds.None? {
      return None;
    }
    var (start, end) := bounds.value;
    ghost var i := IndexOf(year, month);
    var byDay := map[];
    for k := 0 to |rows|
      invariant DaysOf(rows[..k], user, FirstDay(i), FirstDay(i + 1), byDay)
    {
      var row := rows[k];
      var day := DayOf(row.created);
      assert rows[..k + 1] == rows[..k] + [row];
      OneMoreRow(rows[..k], row, user, FirstDay(i), FirstDay(i + 1), byDay);
      if row.user == user && start <= row.created < end && row.status == Filled {
        var cash := TradeCashflow(row);
        if cash.Some? {
          var sum := (if day in byDay then byDay[day] else 0) + cash.value;
          WholeCentsStay(sum);
          byDay := byDay[day := RoundHalfEven(sum as real)];
        }
      }
    }
    assert rows[..|rows|] == rows;
    report := Some(byDay);
  }

  lemma DayInRange(t: Time, first: int, last: int)
    ensures first <= DayOf(t) < last <==> Midnight(first) <= t < Midnight(last)
  {
    DayOfIff(t, DayOf(t));
  }

  lemma OneMoreRow(rows: seq<Execution>, row: Execution, user: UserId, first: int, last: int, byDay: map<int, int>)
    requires DaysOf(rows, user, first, last, byDay)
    ensures var day := DayOf(row.created);
            DaysOf(rows + [row], user, first, last,
                   if row.user == user && Midnight(first) <= row.created < Midnight(last) && TradeCashflow(row).Some?
                   then byDay[day := (if day in byDay then byDay[day] else 0) + TradeCashflow(row).value] else byDay)
  {
    DayInRange(row.created, first, last);
    forall day
      ensures HasCashOn(rows + [row], user, day) <==>
                HasCashOn(rows, user, day) || (row.user == user && DayOf(row.created) == day && TradeCashflow(row).Some?)
      ensures CashIn(rows + [row], user, Midnight(day), Midnight(day + 1)) ==
                CashIn(rows, user, Midnight(day), Midnight(day + 1))
                + if row.user == user && DayOf(row.created) == day then TradeCashflow(row).GetOr(0) else 0
    {
      OneMoreOnDay(rows, row, user, day);
    }
  }

  lemma OneMoreOnDay(rows: seq<Execution>, row: Execution, user: UserId, day: int)
    ensures HasCashOn(rows + [row], user, day) <==>
              HasCashOn(rows, user, day) || (row.user == user && DayOf(row.created) == day && TradeCashflow(row).Some?)
    ensures CashIn(rows + [row], user, Midnight(day), Midnight(day + 1)) ==
              CashIn(rows, user, Midnight(day), Midnight(day + 1))
              + if row.user == user && DayOf(row.created) == day then TradeCashflow(row).GetOr(0) else 0
  {
    DayOfIff(row.created, day);
    assert (rows + [row])[..|rows|] == rows;
    assert forall i :: 0 <= i < |rows| ==> (rows + [row])[i] == rows[i];
    assert (rows + [row])[|rows|] == row;
  }

  // ----- the summary -----

  /** Amounts in cents, the win rate in hundredths of a percent. */
  datatype Summary = Summary(totalTrades: nat, totalPnl: int, mtdPnl: int, winRate: int)

  function WinRate(wins: nat, realized: nat): (rate: int)
    ensures realized == 0 ==> rate == 0
  {
    if realized == 0 then 0 else RoundHalfEven(wins as real / realized as real * 10000.0)
  }

  predicate IsFilled(row: Execution, user: UserId) {
    row.user == user && row.status == Filled
  }

  function CountFilled(rows: seq<Execution>, user: UserId): nat {
    if rows == [] then 0
    else CountFilled(rows[..|rows| - 1], user) + if IsFilled(rows[|rows| - 1], user) then 1 else 0
  }

  function CountAbove(rows: seq<Execution>, user: UserId, low: Option<int>): nat {
    if rows == [] then 0
    else CountAbove(rows[..|rows| - 1], user, low) +
         var row := rows[|rows| - 1];
         if IsFilled(row, user) && row.pnl.Some? && (low.Some? ==> row.pnl.value > low.value) then 1 else 0
  }

  /** `monthStart`: the first of the current month. */
  method PerformanceSummary(rows: seq<Execution>, user: UserId, monthStart: Time) returns (s: Summary)
    ensures s.totalPnl == TotalCash(rows, user) && s.mtdPnl == CashSince(rows, user, monthStart)
    ensures s.totalTrades == CountFilled(rows, user)
    ensures s.winRate == WinRate(CountAbove(rows, user, Some(0)), CountAbove(rows, user, None))
    ensures 0 <= s.winRate <= 10000
  {
    var trades, total, mtd, wins, realized := 0, 0, 0, 0, 0;
    for k := 0 to |rows|
      invariant total == TotalCash(rows[..k], user) && mtd == CashSince(rows[..k], user, monthStart)
      invariant trades == CountFilled(rows[..k], user)
      invariant wins == CountAbove(rows[..k], user, Some(0)) && realized == CountAbove(rows[..k], user, None)
      invariant wins <= realized <= trades
    {
      var row := rows[k];
      assert rows[..k + 1][..k] == rows[..k];
      if row.user == user && row.status == Filled {
        trades := trades + 1;
        var cash := TradeCashflow(row);
        if cash.Some? {
          total := total + cash.value;
          realized := realized + 1;
          if row.pnl.value > 0 {
            wins := wins + 1;
          }
          if row.created >= monthStart {
            mtd := mtd + cash.value;
          }
        }
      }
    }
    assert rows[..|rows|] == rows;
    WholeCentsStay(total);
    WholeCentsStay(mtd);
    WinRateIsAPercentage(wins, realized);
    s := Summary(trades, RoundHalfEven(total as real), RoundHalfEven(mtd as real), WinRate(wins, realized));
  }

  /** The rate is the share of wins among what was realised, to the nearest hundredth of a percent. */
  lemma WinRateIsShare(wins: nat, realized: nat) returns (share: real)
    requires realized > 0
    ensures share * realized as real == wins as real
    ensures -0.5 <= WinRate(wins, realized) as real - 10000.0 * share <= 0.5
  {
    share := wins as real / realized as real;
  }

  lemma WinRateIsAPercentage(wins: nat, realized: nat)
    requires wins <= realized
    ensures 0 <= WinRate(wins, realized) <= 10000
  {
    if realized > 0 {
      var whole := realized as real;
      var share := wins as real / whole;
      assert share * whole == wins as real;
      ScaleKeepsOrder(share, 1.0, whole);
      ScaleKeepsOrder(0.0, share, whole);
      RoundingKeepsBounds(share * 10000.0, 0, 10000);
    }
  }

  // ----- conservation -----

  function SumOfDays(byDay: map<int, int>, first: int, last: int): int
    decreases last - first
  {
    if last <= first then 0
    else SumOfDays(byDay, first, last - 1) + if last - 1 in byDay then byDay[last - 1] else 0
  }

  /** The values of a daily report add up to the profit realised in its month. */
  lemma {:induction false} DaysSumToMonth(rows: seq<Execution>, user: UserId, first: int, mid: int, last: int, byDay: map<int, int>)
    requires DaysOf(rows, user, first, last, byDay) && first <= mid <= last
    ensures SumOfDays(byDay, first, mid) == CashIn(rows, user, Midnight(first), Midnight(mid))
    decreases mid - first
  {
    if first == mid {
      EmptyInterval(rows, user, Midnight(first));
    } else {
      DaysSumToMonth(rows, user, first, mid - 1, last, byDay);
      IntervalsAdd(rows, user, Midnight(first), Midnight(mid - 1), Midnight(mid));
    }
  }

  lemma {:induction false} EmptyInterval(rows: seq<Execution>, user: UserId, t: Time)
    ensures CashIn(rows, user, t, t) == 0
  {
    if rows != [] {
      EmptyInterval(rows[..|rows| - 1], user, t);
    }
  }

  function SumOfMonths(rows: seq<Execution>, user: UserId, n: nat): int {
    if n == 0 then 0
    else SumOfMonths(rows, user, n - 1) + CashIn(rows, user, Midnight(FirstDay(n - 1)), Midnight(FirstDay(n)))
  }

  lemma {:induction false} MonthsSumToInterval(rows: seq<Execution>, user: UserId, n: nat)
    ensures SumOfMonths(rows, user, n) == CashIn(rows, user, Midnight(0), Midnight(FirstDay(n)))
  {
    if n == 0 {
      EmptyInterval(rows, user, Midnight(0));
    } else {
      MonthsSumToInterval(rows, user, n - 1);
      MonthsIncrease(n - 1, n);
      IntervalsAdd(rows, user, Midnight(0), Midnight(FirstDay(n - 1)), Midnight(FirstDay(n)));
    }
  }

  lemma {:induction false} TotalIsInterval(rows: seq<Execution>, user: UserId, from: Time, to: Time)
    requires forall i :: 0 <= i < |rows| ==> from <= rows[i].created < to
    ensures TotalCash(rows, user) == CashIn(rows, user, from, to)
  {
    if rows != [] {
      TotalIsInterval(rows[..|rows| - 1], user, from, to);
    }
  }

  /** Month after month, nothing realised is lost or counted twice: the months add up to the total. */
  lemma MonthsSumToTotal(rows: seq<Execution>, user: UserId, n: nat)
    requires forall i :: 0 <= i < |rows| ==> Midnight(0) <= rows[i].created < Midnight(FirstDay(n))
    ensures SumOfMonths(rows, user, n) == TotalCash(rows, user)
  {
    MonthsSumToInterval(rows, user, n);
    TotalIsInterval(rows, user, Midnight(0), Midnight(FirstDay(n)));
  }

  /**
   * Month-to-date has no upper end, so it is the current month's daily sum exactly when
   * what is dated after the month adds up to nothing.
   */
  lemma MonthToDateIff(rows: seq<Execution>, user: UserId, year: int, month: int, byDay: map<int, int>)
    requires MonthBounds(year, month).Some?
    requires IndexOf(year, month) >= 0 && DaysOf(rows, user, FirstDay(IndexOf(year, month)), FirstDay(IndexOf(year, month) + 1), byDay)
    ensures var i := IndexOf(year, month);
            var sum := SumOfDays(byDay, FirstDay(i), FirstDay(i + 1));
            var (start, end) := MonthBounds(year, month).value;
            && sum == CashIn(rows, user, start, end)
            && (CashSince(rows, user, start) == sum <==> CashSince(rows, user, end) == 0)
            && ((forall k :: 0 <= k < |rows| ==> rows[k].created < end) ==> CashSince(rows, user, start) == sum)
  {
    BoundsAbut(year, month);
    var i := IndexOf(year, month);
    MonthsIncrease(i, i + 1);
    DaysSumToMonth(rows, user, FirstDay(i), FirstDay(i + 1), FirstDay(i + 1), byDay);
    SinceSplits(rows, user, Midnight(FirstDay(i)), Midnight(FirstDay(i + 1)));
    NothingSince(rows, user, Midnight(FirstDay(i + 1)));
  }

  lemma {:induction false} NothingSince(rows: seq<Execution>, user: UserId, t: Time)
    ensures (forall k :: 0 <= k < |rows| ==> rows[k].created < t) ==> CashSince(rows, user, t) == 0
  {
    if rows != [] {
      NothingSince(rows[..|rows| - 1], user, t);
    }
  }

  /** A profit dated on the first of the next month: in month-to-date, but on no day of the month. */
  lemma LaterProfitIsMonthToDate(row: Execution, year: int, month: int)
    requires MonthBounds(year, month).Some? && row.created == MonthBounds(year, month).value.1
    requires row.status == Filled && row.pnl == Some(100)
    ensures CashSince([row], row.user, MonthBounds(year, month).value.0) == 100
    ensures CashIn([row], row.user, MonthBounds(year, month).value.0, MonthBounds(year, month).value.1) == 0
  {
    BoundsAbut(year, month);
    var i := IndexOf(year, month);
    MonthsIncrease(i, i + 1);
    assert [row][..0] == [];
  }
}
