/** src/services/AnalyticsService.ts: spending filters, monthly sums, insights,
    the month-end projection and the week-over-week trend. "Now" is a parameter. */
module AnalyticsService {
  import opened Wrappers
  import opened Types

  /** `transactions.filter(keep)`: the records that pass, in their original order. */
  function Where(ts: seq<Transaction>, keep: Transaction -> bool): (r: seq<Transaction>)
    ensures |r| <= |ts|
    ensures forall t :: t in r <==> t in ts && keep(t)
  {
    if ts == [] then []
    else (if keep(ts[0]) then [ts[0]] else []) + Where(ts[1..], keep)
  }

  /** `reduce((sum, tx) => sum + tx.amount, 0)`. */
  function Sum(ts: seq<Transaction>): real {
    if ts == [] then 0.0 else ts[0].amount + Sum(ts[1..])
  }

  lemma {:induction false} SumAppend(a: seq<Transaction>, b: seq<Transaction>)
    ensures Sum(a + b) == Sum(a) + Sum(b)
    decreases |a|
  {
    if a != [] {
      assert (a + b)[0] == a[0];
      assert (a + b)[1..] == a[1..] + b;
      SumAppend(a[1..], b);
    } else {
      assert a + b == b;
    }
  }

  lemma {:induction false} WhereAppend(a: seq<Transaction>, b: seq<Transaction>, keep: Transaction -> bool)
    ensures Where(a + b, keep) == Where(a, keep) + Where(b, keep)
    decreases |a|
  {
    if a != [] {
      assert (a + b)[0] == a[0];
      assert (a + b)[1..] == a[1..] + b;
      WhereAppend(a[1..], b, keep);
      var head := if keep(a[0]) then [a[0]] else [];
      assert Where(a + b, keep) == head + (Where(a[1..], keep) + Where(b, keep));
      assert head + (Where(a[1..], keep) + Where(b, keep)) == (head + Where(a[1..], keep)) + Where(b, keep);
    } else {
      assert a + b == b;
    }
  }

  lemma SumOfOne(t: Transaction, keep: Transaction -> bool)
    ensures Sum(Where([t], keep)) == if keep(t) then t.amount else 0.0
  {
    assert Where([t], keep) == (if keep(t) then [t] else []) + Where([], keep);
  }

  /** With non-negative amounts a filtered sum is at most the whole sum. */
  lemma {:induction false} SumWhereAtMost(ts: seq<Transaction>, keep: Transaction -> bool)
    requires forall t :: t in ts ==> t.amount >= 0.0
    ensures 0.0 <= Sum(Where(ts, keep)) <= Sum(ts)
  {
    if ts != [] {
      assert forall t :: t in ts[1..] ==> t in ts;
      SumWhereAtMost(ts[1..], keep);
      SumAppend(if keep(ts[0]) then [ts[0]] else [], Where(ts[1..], keep));
    }
  }

  /** Amounts that are all non-negative have a non-negative sum. */
  lemma {:induction false} SumNonNegative(ts: seq<Transaction>)
    requires forall t :: t in ts ==> t.amount >= 0.0
    ensures Sum(ts) >= 0.0
  {
    if ts != [] {
      SumNonNegative(ts[1..]);
    }
  }

  /** Two filters that never both keep a record split the sum of their union. */
  lemma {:induction false} SumWhereDisjointUnion(
    ts: seq<Transaction>, p: Transaction -> bool, q: Transaction -> bool, either: Transaction -> bool)
    requires forall t :: either(t) == (p(t) || q(t))
    requires forall t :: !(p(t) && q(t))
    ensures Sum(Where(ts, either)) == Sum(Where(ts, p)) + Sum(Where(ts, q))
  {
    if ts != [] {
      SumWhereDisjointUnion(ts[1..], p, q, either);
      SumAppend(if either(ts[0]) then [ts[0]] else [], Where(ts[1..], either));
      SumAppend(if p(ts[0]) then [ts[0]] else [], Where(ts[1..], p));
      SumAppend(if q(ts[0]) then [ts[0]] else [], Where(ts[1..], q));
    }
  }

  /** Spending is a confirmed `send` or `bank_transfer`. */
  predicate IsSpending(t: Transaction) {
    (t.kind == Send || t.kind == BankTransfer) && t.status == Confirmed
  }

  /** The `spendingTx` filter. */
  function Spending(ts: seq<Transaction>): (r: seq<Transaction>)
    ensures forall t :: t in r <==> t in ts && IsSpending(t)
  {
    Where(ts, IsSpending)
  }

  predicate InMonth(t: Transaction, ym: YearMonth) {
    t.timestamp.ym == ym
  }

  function MonthFilter(ym: YearMonth): Transaction -> bool {
    t => InMonth(t, ym)
  }

  /** The sum of the records dated in one calendar month. */
  function MonthSpending(ts: seq<Transaction>, ym: YearMonth): real {
    Sum(Where(ts, MonthFilter(ym)))
  }

  /** Month totals add up over concatenated lists. */
  lemma MonthSpendingAppend(a: seq<Transaction>, b: seq<Transaction>, ym: YearMonth)
    ensures MonthSpending(a + b, ym) == MonthSpending(a, ym) + MonthSpending(b, ym)
  {
    WhereAppend(a, b, MonthFilter(ym));
    SumAppend(Where(a, MonthFilter(ym)), Where(b, MonthFilter(ym)));
  }

  /** A list with no record in the month has a zero month total. */
  lemma {:induction false} MonthSpendingOutsideMonth(ts: seq<Transaction>, ym: YearMonth)
    requires forall t :: t in ts ==> t.timestamp.ym != ym
    ensures MonthSpending(ts, ym) == 0.0
  {
    if ts != [] {
      MonthSpendingOutsideMonth(ts[1..], ym);
    }
  }

  /** The month before: January (0) goes to December (11) of the previous year. */
  function PrevMonth(ym: YearMonth): (r: YearMonth)
    requires ValidMonth(ym)
    ensures ValidMonth(r)
    ensures ym.month == 0 ==> r == YearMonth(ym.year - 1, 11)
    ensures ym.month > 0 ==> r == YearMonth(ym.year, ym.month - 1)
  {
    if ym.month == 0 then YearMonth(ym.year - 1, 11) else YearMonth(ym.year, ym.month - 1)
  }

  /** `new Date(year, month + k, 1)`: the month `k` months away, normalised the way
      JavaScript's Date normalises an out-of-range month. */
  function ShiftMonth(ym: YearMonth, k: int): (r: YearMonth)
    ensures ValidMonth(r)
    ensures r.year * 12 + r.month == ym.year * 12 + ym.month + k
  {
    var total := ym.year * 12 + ym.month + k;
    YearMonth(total / 12, total % 12)
  }

  /** The two definitions of "last month" agree. */
  lemma PrevMonthIsShift(ym: YearMonth)
    requires ValidMonth(ym)
    ensures PrevMonth(ym) == ShiftMonth(ym, -1)
  {
    var s := ShiftMonth(ym, -1);
    var p := PrevMonth(ym);
    assert p.year * 12 + p.month == s.year * 12 + s.month;
    MonthIndexInjective(p, s);
  }

  lemma MonthIndexInjective(a: YearMonth, b: YearMonth)
    requires ValidMonth(a) && ValidMonth(b)
    requires a.year * 12 + a.month == b.year * 12 + b.month
    ensures a == b
  {
  }

  /** No record has a negative amount. */
  predicate NoNegativeAmount(ts: seq<Transaction>) {
    forall t :: t in ts ==> t.amount >= 0.0
  }

  /** No record is dated in the month. */
  predicate NoneInMonth(ts: seq<Transaction>, ym: YearMonth) {
    forall t :: t in ts ==> t.timestamp.ym != ym
  }

  /** A month's total lies between 0 and the whole total when no amount is negative,
      and is 0 when no record falls in the month. */
  lemma MonthSpendingBounds(ts: seq<Transaction>, ym: YearMonth)
    ensures NoNegativeAmount(ts) ==> 0.0 <= MonthSpending(ts, ym) <= Sum(ts)
    ensures NoneInMonth(ts, ym) ==> MonthSpending(ts, ym) == 0.0
  {
    if NoNegativeAmount(ts) {
      SumWhereAtMost(ts, MonthFilter(ym));
    }
    if NoneInMonth(ts, ym) {
      MonthSpendingOutsideMonth(ts, ym);
    }
  }

  /** `getCurrentMonthSpending`. */
  function CurrentMonthSpending(spending: seq<Transaction>, now: YearMonth): real {
    MonthSpending(spending, now)
  }

  /** `getLastMonthSpending`. */
  function LastMonthSpending(spending: seq<Transaction>, now: YearMonth): real
    requires ValidMonth(now)
  {
    MonthSpending(spending, PrevMonth(now))
  }

  /** This month's total is between 0 and the whole total when no amount is negative,
      and 0 when nothing is dated this month. */
  lemma CurrentMonthSpendingBounds(spending: seq<Transaction>, now: YearMonth)
    ensures NoNegativeAmount(spending) ==>
      0.0 <= CurrentMonthSpending(spending, now) <= Sum(spending)
    ensures NoneInMonth(spending, now) ==> CurrentMonthSpending(spending, now) == 0.0
  {
    MonthSpendingBounds(spending, now);
  }

  /** Last month's total is between 0 and the whole total when no amount is negative,
      and 0 when nothing is dated in the month before. */
  lemma LastMonthSpendingBounds(spending: seq<Transaction>, now: YearMonth)
    requires ValidMonth(now)
    ensures NoNegativeAmount(spending) ==>
      0.0 <= LastMonthSpending(spending, now) <= Sum(spending)
    ensures NoneInMonth(spending, PrevMonth(now)) ==> LastMonthSpending(spending, now) == 0.0
  {
    MonthSpendingBounds(spending, PrevMonth(now));
  }

  /** This month and last month are different months, so with non-negative amounts
      their two totals together never exceed the total of all records. */
  lemma TwoMonthsWithinTotal(spending: seq<Transaction>, now: YearMonth)
    requires ValidMonth(now)
    requires NoNegativeAmount(spending)
    ensures CurrentMonthSpending(spending, now) + LastMonthSpending(spending, now) <= Sum(spending)
  {
    var prev := PrevMonth(now);
    var either := (t: Transaction) => InMonth(t, now) || InMonth(t, prev);
    SumWhereDisjointUnion(spending, MonthFilter(now), MonthFilter(prev), either);
    SumWhereAtMost(spending, either);
  }

  /** In January, "last month" is December of the previous year. */
  lemma LastMonthOfJanuary(spending: seq<Transaction>, year: int)
    ensures LastMonthSpending(spending, YearMonth(year, 0)) == MonthSpending(spending, YearMonth(year - 1, 11))
  {
  }

  datatype InsightId = HighSpending | LargeTransactions | CurrencyTip | GoodControl | NoData

  datatype InsightLevel = Warning | Info | Success | Tip

  /** A `SpendingInsight` by its id and type; titles, messages and icons are fixed
      per id, and the rounded percentages in two messages are display text. */
  datatype Insight = Insight(id: InsightId, level: InsightLevel)

  /** The order in which `generateInsights` considers each rule. */
  function Rank(id: InsightId): nat {
    match id
    case HighSpending => 0
    case LargeTransactions => 1
    case CurrencyTip => 2
    case GoodControl => 3
    case NoData => 4
  }

  predicate InRuleOrder(insights: seq<Insight>) {
    forall i, j :: 0 <= i < j < |insights| ==> Rank(insights[i].id) < Rank(insights[j].id)
  }

  predicate HighSpendingRule(thisMonth: real, lastMonth: real) {
    thisMonth > lastMonth * 1.5 && lastMonth > 0.0
  }

  predicate GoodControlRule(thisMonth: real, lastMonth: real) {
    thisMonth < lastMonth && lastMonth > 0.0
  }

  /** A month cannot be both 50% over the last one and under it. */
  lemma HighSpendingExcludesGoodControl(thisMonth: real, lastMonth: real)
    ensures !(HighSpendingRule(thisMonth, lastMonth) && GoodControlRule(thisMonth, lastMonth))
  {
  }

  function Average(spending: seq<Transaction>): real
    requires spending != []
  {
    Sum(spending) / (|spending| as real)
  }

  /** `new Set(spendingTx.map(tx => tx.currency))`. */
  function Currencies(ts: seq<Transaction>): set<Currency> {
    set t | t in ts :: t.currency
  }

  /** One distinct currency means every record shares the first one's currency. */
  lemma SingleCurrency(ts: seq<Transaction>)
    requires ts != []
    ensures |Currencies(ts)| == 1 <==> forall t :: t in ts ==> t.currency == ts[0].currency
  {
    var cs := Currencies(ts);
    assert ts[0].currency in cs;
    if forall t :: t in ts ==> t.currency == ts[0].currency {
      assert cs == {ts[0].currency};
    }
    if |cs| == 1 {
      assert |cs - {ts[0].currency}| == 0;
      assert cs - {ts[0].currency} == {};
      forall t | t in ts
        ensures t.currency == ts[0].currency
      {
        assert t.currency in cs;
      }
    }
  }

  /** The insight for one rule, or none. */
  function Flag(rule: bool, x: Insight): seq<Insight> {
    if rule then [x] else []
  }

  /** The insights of a non-empty spending list, given which rules hold, in rule order. */
  function Assemble(high: bool, large: bool, single: bool, good: bool): seq<Insight> {
    Flag(high, Insight(HighSpending, Warning)) + Flag(large, Insight(LargeTransactions, Info))
      + Flag(single, Insight(CurrencyTip, Tip)) + Flag(good, Insight(GoodControl, Success))
  }

  /** Each insight is present exactly when its rule holds, and nothing else is ('no-data' never). */
  lemma AssembleFacts(high: bool, large: bool, single: bool, good: bool)
    ensures forall x :: x in Assemble(high, large, single, good) <==>
      || (high && x == Insight(HighSpending, Warning))
      || (large && x == Insight(LargeTransactions, Info))
      || (single && x == Insight(CurrencyTip, Tip))
      || (good && x == Insight(GoodControl, Success))
  {
    var s1 := Flag(high, Insight(HighSpending, Warning));
    var s2 := s1 + Flag(large, Insight(LargeTransactions, Info));
    var s3 := s2 + Flag(single, Insight(CurrencyTip, Tip));
    assert forall x :: x in s3 <==> x in s2 || (single && x == Insight(CurrencyTip, Tip));
    assert forall x :: x in s2 <==> x in s1 || (large && x == Insight(LargeTransactions, Info));
  }

  /** The insights come in the order of their rules. */
  lemma AssembleOrder(high: bool, large: bool, single: bool, good: bool)
    ensures InRuleOrder(Assemble(high, large, single, good))
  {
    var s0: seq<Insight> := [];
    var s1 := s0 + Flag(high, Insight(HighSpending, Warning));
    AppendFlag(s0, high, Insight(HighSpending, Warning));
    var s2 := s1 + Flag(large, Insight(LargeTransactions, Info));
    AppendFlag(s1, large, Insight(LargeTransactions, Info));
    var s3 := s2 + Flag(single, Insight(CurrencyTip, Tip));
    AppendFlag(s2, single, Insight(CurrencyTip, Tip));
    AppendFlag(s3, good, Insight(GoodControl, Success));
    assert s0 + Flag(high, Insight(HighSpending, Warning)) == Flag(high, Insight(HighSpending, Warning));
  }

  /** Appending a flagged insight that ranks after everything already there keeps the
      order, and adds that insight exactly when its rule holds. */
  lemma AppendFlag(s: seq<Insight>, rule: bool, x: Insight)
    requires InRuleOrder(s)
    requires forall y :: y in s ==> Rank(y.id) < Rank(x.id)
    ensures InRuleOrder(s + Flag(rule, x))
    ensures forall y :: y in s + Flag(rule, x) <==> y in s || (rule && y == x)
  {
    var r := s + Flag(rule, x);
    if rule {
      forall i, j | 0 <= i < j < |r|
        ensures Rank(r[i].id) < Rank(r[j].id)
      {
        if j == |s| {
          assert r[i] == s[i] && s[i] in s;
        } else {
          assert r[i] == s[i] && r[j] == s[j];
        }
      }
    } else {
      assert r == s;
    }
  }

  /** `generateInsights`: without spending, exactly the 'no-data' insight; otherwise
      each rule adds its insight exactly when its condition holds, in rule order. */
  method GenerateInsights(transactions: seq<Transaction>, now: YearMonth) returns (insights: seq<Insight>)
    requires ValidMonth(now)
    ensures Spending(transactions) == [] ==> insights == [Insight(NoData, Info)]
    ensures Spending(transactions) != [] ==>
      && (Insight(HighSpending, Warning) in insights <==>
            HighSpendingRule(CurrentMonthSpending(Spending(transactions), now),
                             LastMonthSpending(Spending(transactions), now)))
      && (Insight(LargeTransactions, Info) in insights <==> Average(Spending(transactions)) > 500.0)
      && (Insight(CurrencyTip, Tip) in insights <==> |Currencies(Spending(transactions))| == 1)
      && (Insight(GoodControl, Success) in insights <==>
            GoodControlRule(CurrentMonthSpending(Spending(transactions), now),
                            LastMonthSpending(Spending(transactions), now)))
      && (forall x :: x in insights ==> x.id != NoData)
      && (forall x :: x in insights ==>
            || x == Insight(HighSpending, Warning) || x == Insight(LargeTransactions, Info)
            || x == Insight(CurrencyTip, Tip) || x == Insight(GoodControl, Success))
      && InRuleOrder(insights)
  {
    var spending := Spending(transactions);
    if |spending| == 0 {
      return [Insight(NoData, Info)];
    }
    var thisMonth := CurrentMonthSpending(spending, now);
    var lastMonth := LastMonthSpending(spending, now);
    var high, large, single, good :=
      thisMonth > lastMonth * 1.5 && lastMonth > 0.0,
      Sum(spending) / (|spending| as real) > 500.0,
      |Currencies(spending)| == 1,
      thisMonth < lastMonth && lastMonth > 0.0;
    insights := Flag(high, Insight(HighSpending, Warning));
    insights := insights + Flag(large, Insight(LargeTransactions, Info));
    insights := insights + Flag(single, Insight(CurrencyTip, Tip));
    insights := insights + Flag(good, Insight(GoodControl, Success));
    assert insights == Assemble(high, large, single, good);
    AssembleFacts(high, large, single, good);
    AssembleOrder(high, large, single, good);
  }

  /** Whether a year is a leap year in the Gregorian calendar. */
  predicate IsLeapYear(year: int) {
    (year % 4 == 0 && year % 100 != 0) || year % 400 == 0
  }

  /** `new Date(year, month + 1, 0).getDate()`: the length of the month. */
  function DaysInMonth(ym: YearMonth): (d: int)
    requires ValidMonth(ym)
    ensures 28 <= d <= 31
    ensures ym.month == 1 ==> (d == 29 <==> IsLeapYear(ym.year))
    ensures d < 30 <==> ym.month == 1
    ensures d == 30 <==> ym.month == 3 || ym.month == 5 || ym.month == 8 || ym.month == 10
  {
    if ym.month == 1 then (if IsLeapYear(ym.year) then 29 else 28)
    else if ym.month == 3 || ym.month == 5 || ym.month == 8 || ym.month == 10 then 30
    else 31
  }

  /** The days of the months from `month` to December of one year. */
  function DaysFrom(year: int, month: int): int
    requires 0 <= month <= 12
    decreases 12 - month
  {
    if month == 12 then 0 else DaysInMonth(YearMonth(year, month)) + DaysFrom(year, month + 1)
  }

  /** The twelve month lengths add up to the length of the Gregorian year. */
  lemma YearLength(year: int)
    ensures DaysFrom(year, 0) == if IsLeapYear(year) then 366 else 365
  {
  }

  /** A calendar day as `new Date()` gives it: a month and `getDate()`. */
  datatype CalendarDate = CalendarDate(ym: YearMonth, day: int)

  predicate ValidDate(d: CalendarDate) {
    ValidMonth(d.ym) && 1 <= d.day <= DaysInMonth(d.ym)
  }

  /** `predictMonthlySpending`: this month's spending so far, as a daily average
      over the days elapsed, projected over the whole month. */
  function PredictMonthlySpending(transactions: seq<Transaction>, today: CalendarDate): (r: real)
    requires ValidDate(today)
    ensures r * (today.day as real)
         == CurrentMonthSpending(Spending(transactions), today.ym) * (DaysInMonth(today.ym) as real)
  {
    var thisMonthSpending := CurrentMonthSpending(Spending(transactions), today.ym);
    var dailyAverage := thisMonthSpending / (today.day as real);
    dailyAverage * (DaysInMonth(today.ym) as real)
  }

  /** On the last day of the month the projection is what was spent. */
  lemma PredictionOnLastDay(transactions: seq<Transaction>, ym: YearMonth)
    requires ValidMonth(ym)
    ensures PredictMonthlySpending(transactions, CalendarDate(ym, DaysInMonth(ym)))
         == CurrentMonthSpending(Spending(transactions), ym)
  {
  }

  /** With non-negative amounts the projection never falls below the spending so far. */
  lemma PredictionAtLeastSoFar(transactions: seq<Transaction>, today: CalendarDate)
    requires ValidDate(today)
    requires forall t :: t in transactions ==> t.amount >= 0.0
    ensures PredictMonthlySpending(transactions, today) >= CurrentMonthSpending(Spending(transactions), today.ym)
  {
    var spent := Spending(transactions);
    var inMonth := Where(spent, MonthFilter(today.ym));
    assert forall t :: t in inMonth ==> t in transactions;
    SumNonNegative(inMonth);
    var s := CurrentMonthSpending(spent, today.ym);
    assert s >= 0.0;
    ProjectionAtLeast(PredictMonthlySpending(transactions, today), s,
                      today.day as real, DaysInMonth(today.ym) as real);
  }

  /** A non-negative amount scaled up by at least its own factor does not shrink. */
  lemma ProjectionAtLeast(p: real, s: real, day: real, days: real)
    requires 0.0 < day <= days && s >= 0.0 && p * day == s * days
    ensures p >= s
  {
    assert s * days >= s * day;
    assert (p - s) * day >= 0.0;
  }

  datatype Trend = Up | Down | Stable

  const DayMillis: int := 24 * 60 * 60 * 1000

  /** `weekAgo <= date <= now`. */
  predicate InLastWindow(t: Transaction, now: int, days: int) {
    now - days * DayMillis <= t.timestamp.millis <= now
  }

  /** `twoWeeksAgo <= date < weekAgo`. */
  predicate InPreviousWindow(t: Transaction, now: int, days: int) {
    now - days * 2 * DayMillis <= t.timestamp.millis < now - days * DayMillis
  }

  /** `twoWeeksAgo <= date <= now`: both windows together. */
  predicate InBothWindows(t: Transaction, now: int, days: int) {
    now - days * 2 * DayMillis <= t.timestamp.millis <= now
  }

  function LastWindowSpending(ts: seq<Transaction>, now: int, days: int): real {
    Sum(Where(Spending(ts), t => InLastWindow(t, now, days)))
  }

  function PreviousWindowSpending(ts: seq<Transaction>, now: int, days: int): real {
    Sum(Where(Spending(ts), t => InPreviousWindow(t, now, days)))
  }

  function SpanSpending(ts: seq<Transaction>, now: int, days: int): real {
    Sum(Where(Spending(ts), t => InBothWindows(t, now, days)))
  }

  /** `getSpendingTrend(transactions, days)` at instant `now` (milliseconds);
      the source's default window is 7 days. */
  function GetSpendingTrend(ts: seq<Transaction>, now: int, days: int): (r: Trend)
    ensures r == Up <==> LastWindowSpending(ts, now, days) > PreviousWindowSpending(ts, now, days) * 1.1
    ensures r == Down <==>
      && !(LastWindowSpending(ts, now, days) > PreviousWindowSpending(ts, now, days) * 1.1)
      && LastWindowSpending(ts, now, days) < PreviousWindowSpending(ts, now, days) * 0.9
  {
    var lastWeek := LastWindowSpending(ts, now, days);
    var previousWeek := PreviousWindowSpending(ts, now, days);
    if lastWeek > previousWeek * 1.1 then Up
    else if lastWeek < previousWeek * 0.9 then Down
    else Stable
  }

  /** With a non-negative window length the two windows never share a record, so
      together they count the spending of the whole span exactly once. */
  lemma TrendWindowsPartition(ts: seq<Transaction>, now: int, days: int)
    requires days >= 0
    ensures LastWindowSpending(ts, now, days) + PreviousWindowSpending(ts, now, days)
         == SpanSpending(ts, now, days)
  {
    SumWhereDisjointUnion(Spending(ts),
      t => InLastWindow(t, now, days), t => InPreviousWindow(t, now, days),
      t => InBothWindows(t, now, days));
  }

  /** Equal spending in both windows is 'stable' when it is non-negative. */
  lemma EqualWindowsAreStable(ts: seq<Transaction>, now: int, days: int)
    requires LastWindowSpending(ts, now, days) == PreviousWindowSpending(ts, now, days) >= 0.0
    ensures GetSpendingTrend(ts, now, days) == Stable
  {
  }
}
