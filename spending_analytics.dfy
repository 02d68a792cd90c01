/** src/screens/SpendingAnalyticsScreen.tsx: the figures behind the analytics
    screen — the summary record, the six-month trend, the category pie and the
    currency bars. A `Record<string, number>` built by `reduce` is an ordered list
    of entries: JavaScript keeps such keys in order of first insertion. */
module SpendingAnalytics {
  import opened Wrappers
  import opened Types
  import JsNumber
  import opened AnalyticsService

  datatype Entry = Entry(key: string, amount: real)

  function KeysOf(es: seq<Entry>): (ks: seq<string>) {
    seq(|es|, i requires 0 <= i < |es| => es[i].key)
  }

  predicate Distinct(ks: seq<string>) {
    forall i, j :: 0 <= i < j < |ks| ==> ks[i] != ks[j]
  }

  lemma KeysOfTail(es: seq<Entry>)
    requires es != []
    ensures KeysOf(es) == [es[0].key] + KeysOf(es[1..])
  {
  }

  lemma DistinctCons(x: string, ks: seq<string>)
    ensures Distinct([x] + ks) <==> x !in ks && Distinct(ks)
  {
    var l := [x] + ks;
    if x !in ks && Distinct(ks) {
      forall i, j | 0 <= i < j < |l|
        ensures l[i] != l[j]
      {
        if i == 0 {
          assert l[j] == ks[j - 1];
        } else {
          assert l[i] == ks[i - 1] && l[j] == ks[j - 1];
        }
      }
    }
    if Distinct(l) {
      forall i, j | 0 <= i < j < |ks|
        ensures ks[i] != ks[j]
      {
        assert ks[i] == l[i + 1] && ks[j] == l[j + 1];
      }
      forall k | 0 <= k < |ks|
        ensures ks[k] != x
      {
        assert l[0] != l[k + 1];
      }
    }
  }

  /** `acc[key] || 0`. */
  function AmountOf(es: seq<Entry>, key: string): real {
    if es == [] then 0.0
    else if es[0].key == key then es[0].amount
    else AmountOf(es[1..], key)
  }

  /** The sum of all values, `Object.values(acc).reduce(+)`. */
  function EntriesTotal(es: seq<Entry>): real {
    if es == [] then 0.0 else es[0].amount + EntriesTotal(es[1..])
  }

  lemma AmountOfEntry(es: seq<Entry>, i: nat)
    requires i < |es| && Distinct(KeysOf(es))
    ensures AmountOf(es, es[i].key) == es[i].amount
  {
    if i > 0 {
      assert KeysOf(es)[0] != KeysOf(es)[i];
      assert Distinct(KeysOf(es[1..])) by {
        assert forall k :: 0 <= k < |es| - 1 ==> KeysOf(es[1..])[k] == KeysOf(es)[k + 1];
      }
      AmountOfEntry(es[1..], i - 1);
    }
  }

  /** `acc[key] = (acc[key] || 0) + amount`: an existing key keeps its place, a new
      key goes last. */
  function AddTo(es: seq<Entry>, key: string, amount: real): (r: seq<Entry>)
    requires Distinct(KeysOf(es))
    ensures Distinct(KeysOf(r))
    ensures key in KeysOf(es) ==> KeysOf(r) == KeysOf(es)
    ensures key !in KeysOf(es) ==> KeysOf(r) == KeysOf(es) + [key]
    ensures AmountOf(r, key) == AmountOf(es, key) + amount
    ensures forall k :: k != key ==> AmountOf(r, k) == AmountOf(es, k)
    ensures EntriesTotal(r) == EntriesTotal(es) + amount
  {
    if es == [] then [Entry(key, amount)]
    else
      KeysOfTail(es);
      DistinctCons(es[0].key, KeysOf(es[1..]));
      if es[0].key == key then
        var r := [Entry(key, es[0].amount + amount)] + es[1..];
        KeysOfTail(r);
        assert r[1..] == es[1..];
        r
      else
        var rest := AddTo(es[1..], key, amount);
        var r := [es[0]] + rest;
        KeysOfTail(r);
        assert r[1..] == rest;
        DistinctCons(es[0].key, KeysOf(rest));
        r
  }

  /** The key of every record, in list order. */
  function RecordKeys(ts: seq<Transaction>, keyOf: Transaction -> string): seq<string> {
    seq(|ts|, i requires 0 <= i < |ts| => keyOf(ts[i]))
  }

  /** `reduce((acc, tx) => …, {})` keyed by `keyOf`, in list order: one entry per
      distinct key that some record has. */
  function Tally(ts: seq<Transaction>, keyOf: Transaction -> string): (r: seq<Entry>)
    ensures Distinct(KeysOf(r))
    ensures ts == [] <==> r == []
    ensures forall k :: k in KeysOf(r) <==> k in RecordKeys(ts, keyOf)
    decreases |ts|
  {
    if ts == [] then []
    else
      var init, t := ts[..|ts| - 1], ts[|ts| - 1];
      assert RecordKeys(ts, keyOf) == RecordKeys(init, keyOf) + [keyOf(t)];
      var acc := Tally(init, keyOf);
      var r := AddTo(acc, keyOf(t), t.amount);
      assert |KeysOf(r)| > 0;
      r
  }

  function KeyFilter(keyOf: Transaction -> string, key: string): Transaction -> bool {
    t => keyOf(t) == key
  }

  /** Each key's value is the sum of the records with that key; other keys read as 0. */
  lemma {:induction false} TallyIsSum(ts: seq<Transaction>, keyOf: Transaction -> string, key: string)
    ensures AmountOf(Tally(ts, keyOf), key) == Sum(Where(ts, KeyFilter(keyOf, key)))
    decreases |ts|
  {
    if ts != [] {
      var init, t := ts[..|ts| - 1], ts[|ts| - 1];
      assert ts == init + [t];
      TallyIsSum(init, keyOf, key);
      WhereAppend(init, [t], KeyFilter(keyOf, key));
      SumAppend(Where(init, KeyFilter(keyOf, key)), Where([t], KeyFilter(keyOf, key)));
      SumOfOne(t, KeyFilter(keyOf, key));
    }
  }

  /** The values of a tally add up to the sum of all records. */
  lemma {:induction false} TallyTotal(ts: seq<Transaction>, keyOf: Transaction -> string)
    ensures EntriesTotal(Tally(ts, keyOf)) == Sum(ts)
    decreases |ts|
  {
    if ts != [] {
      var init, t := ts[..|ts| - 1], ts[|ts| - 1];
      assert ts == init + [t];
      TallyTotal(init, keyOf);
      SumAppend(init, [t]);
    }
  }

  /** `Object.keys(m).reduce((a, b) => m[a] > m[b] ? a : b, init)`. A running key
      that is not in `m` reads as `undefined`, which is never greater. */
  function Reduce(keys: seq<string>, m: seq<Entry>, init: string): (r: string)
    ensures r == init || r in keys
    ensures keys != [] && r == init ==> init in KeysOf(m) || init in keys
    decreases |keys|
  {
    if keys == [] then init
    else
      var a := Reduce(keys[..|keys| - 1], m, init);
      var b := keys[|keys| - 1];
      if a in KeysOf(m) && AmountOf(m, a) > AmountOf(m, b) then a else b
  }

  /** Splits a non-empty key list into its last key and the rest, which is distinct
      and does not hold that key. */
  lemma SplitLast(keys: seq<string>)
    requires Distinct(keys) && keys != []
    ensures Distinct(keys[..|keys| - 1])
    ensures keys[|keys| - 1] !in keys[..|keys| - 1]
    ensures forall k :: k in keys <==> k in keys[..|keys| - 1] || k == keys[|keys| - 1]
  {
    var prefix, b := keys[..|keys| - 1], keys[|keys| - 1];
    assert keys == prefix + [b];
    forall i | 0 <= i < |prefix|
      ensures prefix[i] != b
    {
      assert keys[i] != keys[|keys| - 1];
    }
  }

  /** The reduction ends on one of the keys, or on `init` when that is a key of `m`. */
  lemma {:induction false} ReduceInKeys(keys: seq<string>, m: seq<Entry>, init: string)
    requires forall k :: k in keys ==> k in KeysOf(m)
    ensures keys == [] ==> Reduce(keys, m, init) == init
    ensures keys != [] ==>
      Reduce(keys, m, init) in keys || (init in KeysOf(m) && Reduce(keys, m, init) == init)
    decreases |keys|
  {
    if keys != [] {
      var prefix, b := keys[..|keys| - 1], keys[|keys| - 1];
      assert keys == prefix + [b];
      ReduceInKeys(prefix, m, init);
    }
  }

  /** No key has a larger amount than the result, and every key has a smaller one when
      the result is `init` from outside the list. */
  lemma {:induction false} ReduceMaximal(keys: seq<string>, m: seq<Entry>, init: string)
    requires Distinct(keys)
    requires forall k :: k in keys ==> k in KeysOf(m)
    ensures keys != [] ==> forall k :: k in keys ==> AmountOf(m, k) <= AmountOf(m, Reduce(keys, m, init))
    ensures keys != [] && Reduce(keys, m, init) !in keys ==>
      forall k :: k in keys ==> AmountOf(m, k) < AmountOf(m, Reduce(keys, m, init))
    decreases |keys|
  {
    if keys != [] {
      var prefix, b := keys[..|keys| - 1], keys[|keys| - 1];
      SplitLast(keys);
      ReduceMaximal(prefix, m, init);
      ReduceInKeys(prefix, m, init);
    }
  }

  /** Ties go to the later key: every key after the result has a smaller amount. */
  lemma {:induction false} ReduceLaterSmaller(keys: seq<string>, m: seq<Entry>, init: string)
    requires Distinct(keys)
    ensures forall i, j :: 0 <= i < j < |keys| && keys[i] == Reduce(keys, m, init) ==>
      AmountOf(m, keys[j]) < AmountOf(m, Reduce(keys, m, init))
    decreases |keys|
  {
    if keys != [] {
      var prefix, b := keys[..|keys| - 1], keys[|keys| - 1];
      SplitLast(keys);
      ReduceLaterSmaller(prefix, m, init);
      var r := Reduce(keys, m, init);
      forall i, j | 0 <= i < j < |keys| && keys[i] == r
        ensures AmountOf(m, keys[j]) < AmountOf(m, r)
      {
        assert keys[i] in prefix;
        assert r != b;
        if j < |keys| - 1 {
          assert prefix[i] == r && prefix[j] == keys[j];
        }
      }
    }
  }

  lemma ReduceInvariant(keys: seq<string>, m: seq<Entry>, init: string)
    requires Distinct(keys)
    requires forall k :: k in keys ==> k in KeysOf(m)
    ensures keys == [] ==> Reduce(keys, m, init) == init
    ensures keys != [] ==>
      Reduce(keys, m, init) in keys || (init in KeysOf(m) && Reduce(keys, m, init) == init)
    ensures keys != [] ==> forall k :: k in keys ==> AmountOf(m, k) <= AmountOf(m, Reduce(keys, m, init))
    ensures forall i, j :: 0 <= i < j < |keys| && keys[i] == Reduce(keys, m, init) ==>
      AmountOf(m, keys[j]) < AmountOf(m, Reduce(keys, m, init))
    ensures keys != [] && Reduce(keys, m, init) !in keys ==>
      forall k :: k in keys ==> AmountOf(m, k) < AmountOf(m, Reduce(keys, m, init))
  {
    ReduceInKeys(keys, m, init);
    ReduceMaximal(keys, m, init);
    ReduceLaterSmaller(keys, m, init);
  }

  /** The key with the largest value, ties going to the later key; `init` when
      there are no keys at all. */
  function TopKey(m: seq<Entry>, init: string): (r: string)
    requires Distinct(KeysOf(m))
    ensures m == [] ==> r == init
    ensures m != [] ==> r in KeysOf(m)
    ensures forall k :: k in KeysOf(m) ==> AmountOf(m, k) <= AmountOf(m, r)
    ensures forall i, j :: 0 <= i < j < |m| && m[i].key == r ==> AmountOf(m, m[j].key) < AmountOf(m, r)
  {
    var keys := KeysOf(m);
    ReduceInvariant(keys, m, init);
    assert forall i :: 0 <= i < |m| ==> keys[i] == m[i].key;
    Reduce(keys, m, init)
  }

  /** `spendingData`. */
  datatype SpendingData = SpendingData(
    totalSpent: real,
    thisMonth: real,
    lastMonth: real,
    monthlyChange: real,
    topCategory: string,
    topCurrency: string,
    transactionCount: nat)

  function KindKey(t: Transaction): string {
    KindName(t.kind)
  }

  function CurrencyKey(t: Transaction): string {
    Symbol(t.currency)
  }

  /** `lastMonth === 0 ? 0 : (thisMonth - lastMonth) / lastMonth * 100`. */
  function MonthlyChange(thisMonth: real, lastMonth: real): (r: real)
    ensures lastMonth == 0.0 ==> r == 0.0
    ensures lastMonth != 0.0 ==> r * lastMonth == (thisMonth - lastMonth) * 100.0
  {
    if lastMonth == 0.0 then 0.0 else ((thisMonth - lastMonth) / lastMonth) * 100.0
  }

  /** The summary figures over the spending records (the same filter and the same
      month rules as the analytics service), with 'send' and 'USDT' as the top
      category and currency when nothing was spent. */
  function ComputeSpendingData(transactions: seq<Transaction>, now: YearMonth): (d: SpendingData)
    requires ValidMonth(now)
    ensures d.totalSpent == Sum(Spending(transactions))
    ensures d.thisMonth == CurrentMonthSpending(Spending(transactions), now)
    ensures d.lastMonth == LastMonthSpending(Spending(transactions), now)
    ensures d.transactionCount == |Spending(transactions)|
    ensures Spending(transactions) == [] ==> d.topCategory == "send" && d.topCurrency == "USDT"
    ensures Spending(transactions) != [] ==> d.topCategory in RecordKeys(Spending(transactions), KindKey)
    ensures Spending(transactions) != [] ==> d.topCurrency in RecordKeys(Spending(transactions), CurrencyKey)
    ensures d.monthlyChange == MonthlyChange(d.thisMonth, d.lastMonth)
    ensures d.topCategory == TopKey(Tally(Spending(transactions), KindKey), "send")
    ensures d.topCurrency == TopKey(Tally(Spending(transactions), CurrencyKey), "USDT")
  {
    var spending := Spending(transactions);
    var thisMonth := CurrentMonthSpending(spending, now);
    var lastMonth := LastMonthSpending(spending, now);
    SpendingData(
      Sum(spending), thisMonth, lastMonth, MonthlyChange(thisMonth, lastMonth),
      TopKey(Tally(spending, KindKey), "send"),
      TopKey(Tally(spending, CurrencyKey), "USDT"),
      |spending|)
  }

  /** The top category has the largest total of any category spent in. */
  lemma TopCategoryIsMaximal(transactions: seq<Transaction>, now: YearMonth, t: Transaction)
    requires ValidMonth(now)
    requires t in Spending(transactions)
    ensures Sum(Where(Spending(transactions), KeyFilter(KindKey, KindKey(t))))
         <= Sum(Where(Spending(transactions), KeyFilter(KindKey, ComputeSpendingData(transactions, now).topCategory)))
  {
    var spending := Spending(transactions);
    var j :| 0 <= j < |spending| && spending[j] == t;
    assert RecordKeys(spending, KindKey)[j] == KindKey(t);
    TallyIsSum(spending, KindKey, KindKey(t));
    TallyIsSum(spending, KindKey, ComputeSpendingData(transactions, now).topCategory);
  }

  /** The top currency has the largest total of any currency spent in. */
  lemma TopCurrencyIsMaximal(transactions: seq<Transaction>, now: YearMonth, t: Transaction)
    requires ValidMonth(now)
    requires t in Spending(transactions)
    ensures Sum(Where(Spending(transactions), KeyFilter(CurrencyKey, CurrencyKey(t))))
         <= Sum(Where(Spending(transactions), KeyFilter(CurrencyKey, ComputeSpendingData(transactions, now).topCurrency)))
  {
    var spending := Spending(transactions);
    var j :| 0 <= j < |spending| && spending[j] == t;
    assert RecordKeys(spending, CurrencyKey)[j] == CurrencyKey(t);
    TallyIsSum(spending, CurrencyKey, CurrencyKey(t));
    TallyIsSum(spending, CurrencyKey, ComputeSpendingData(transactions, now).topCurrency);
  }

  /** The average card: `totalSpent > 0 ? totalSpent / transactionCount : '$0.00'`
      (`None` for the fixed text). A positive total implies a record to divide by. */
  function AverageTransaction(d: SpendingData): (r: Option<real>)
    requires d.totalSpent > 0.0 ==> d.transactionCount > 0
    ensures r.None? <==> d.totalSpent <= 0.0
    ensures r.Some? ==> r.value * (d.transactionCount as real) == d.totalSpent
  {
    if d.totalSpent > 0.0 then Some(d.totalSpent / (d.transactionCount as real)) else None
  }

  /** Any spending data the screen computes can show its average. */
  lemma AverageIsDefined(transactions: seq<Transaction>, now: YearMonth)
    requires ValidMonth(now)
    ensures var d := ComputeSpendingData(transactions, now);
      d.totalSpent > 0.0 ==> d.transactionCount > 0
  {
  }

  /** `toLocaleDateString('en-US', { month: 'short' })`. */
  function ShortMonthName(month: int): string
    requires 0 <= month < 12
  {
    ["Jan", "Feb", "Mar", "Apr", "May", "Jun", "Jul", "Aug", "Sep", "Oct", "Nov", "Dec"][month]
  }

  function MonthIndex(ym: YearMonth): int {
    ym.year * 12 + ym.month
  }

  /** `monthlySpendingData`: the six months ending with the current one, oldest
      first, each with its label and its spending rounded to cents. */
  method MonthlySpendingData(transactions: seq<Transaction>, now: YearMonth)
    returns (months: seq<YearMonth>, labels: seq<string>, data: seq<real>)
    requires ValidMonth(now)
    ensures |months| == 6 && |labels| == 6 && |data| == 6
    ensures months[5] == now
    ensures forall k :: 0 <= k < 6 ==> MonthIndex(months[k]) == MonthIndex(now) - (5 - k)
    ensures forall k :: 0 <= k < 6 ==> ValidMonth(months[k]) && labels[k] == ShortMonthName(months[k].month)
    ensures forall k :: 0 <= k < 6 ==>
      data[k] == JsNumber.RoundCents(MonthSpending(Spending(transactions), months[k]))
    ensures forall k :: 0 <= k < 6 ==>
      MonthSpending(Spending(transactions), months[k]) - 0.005 < data[k]
      <= MonthSpending(Spending(transactions), months[k]) + 0.005
  {
    var spending := Spending(transactions);
    months, labels, data := [], [], [];
    var i := 5;
    while i >= 0
      invariant -1 <= i <= 5
      invariant |months| == 5 - i && |labels| == 5 - i && |data| == 5 - i
      invariant forall k :: 0 <= k < |months| ==> MonthIndex(months[k]) == MonthIndex(now) - (5 - k)
      invariant forall k :: 0 <= k < |months| ==> ValidMonth(months[k]) && labels[k] == ShortMonthName(months[k].month)
      invariant forall k :: 0 <= k < |months| ==> data[k] == JsNumber.RoundCents(MonthSpending(spending, months[k]))
    {
      var date := ShiftMonth(now, -i);
      months := months + [date];
      labels := labels + [ShortMonthName(date.month)];
      data := data + [JsNumber.RoundCents(MonthSpending(spending, date))];
      i := i - 1;
    }
    assert MonthIndex(months[5]) == MonthIndex(now);
    AnalyticsService.MonthIndexInjective(months[5], now);
  }

  /** The pie's palette; `PMAColors.gold` is not defined, so the third colour is `undefined`. */
  const Palette: seq<Option<string>> := [
    Some("#DAA520"), Some("#F5F5F5"), None, Some("#E91E63"), Some("#4ECDC4"), Some("#FF9800"), Some("#9C27B0")
  ]

  /** The pie's name for a record's kind. */
  function CategoryName(t: Transaction): string {
    if t.kind == BankTransfer then "Bank Transfer"
    else if t.kind == Send then "Digital Transfer"
    else KindName(t.kind)
  }

  /** The records a slice counts: bank transfers for 'Bank Transfer', sends for 'Digital Transfer'. */
  function CountFilter(name: string): Transaction -> bool {
    (t: Transaction) => (t.kind == BankTransfer && name == "Bank Transfer") || (t.kind == Send && name == "Digital Transfer")
  }

  datatype CategorySlice = CategorySlice(name: string, amount: real, count: nat, color: Option<string>, population: int)

  /** A slice's population: its amount as a whole percentage of the total, 0 for no total. */
  function Population(amount: real, total: real): int {
    if total > 0.0 then JsNumber.Round((amount / total) * 100.0) else 0
  }

  function Slice(e: Entry, index: nat, spending: seq<Transaction>, total: real): CategorySlice {
    CategorySlice(
      e.key, e.amount, |Where(spending, CountFilter(e.key))|, Palette[index % |Palette|],
      Population(e.amount, total))
  }

  /** Two tests that agree on every record keep the same records. */
  lemma {:induction false} WhereAgree(ts: seq<Transaction>, p: Transaction -> bool, q: Transaction -> bool)
    requires forall t :: t in ts ==> p(t) == q(t)
    ensures Where(ts, p) == Where(ts, q)
    decreases |ts|
  {
    if ts != [] {
      assert forall t :: t in ts[1..] ==> t in ts;
      WhereAgree(ts[1..], p, q);
    }
  }

  /** On spending records, the slice's count test is the test "has this category". */
  lemma CountFilterIsCategory(spending: seq<Transaction>, name: string)
    requires forall t :: t in spending ==> IsSpending(t)
    ensures Where(spending, CountFilter(name)) == Where(spending, KeyFilter(CategoryName, name))
  {
    WhereAgree(spending, CountFilter(name), KeyFilter(CategoryName, name));
  }

  /** `categorySpendingData`: one slice per category in order of first appearance. */
  function CategorySpendingData(transactions: seq<Transaction>): (slices: seq<CategorySlice>)
    ensures |slices| == |Tally(Spending(transactions), CategoryName)|
    ensures forall i :: 0 <= i < |slices| ==>
      slices[i].name == Tally(Spending(transactions), CategoryName)[i].key
      && slices[i].color == Palette[i % 7]
  {
    var spending := Spending(transactions);
    var categories := Tally(spending, CategoryName);
    var total := EntriesTotal(categories);
    seq(|categories|, i requires 0 <= i < |categories| => Slice(categories[i], i, spending, total))
  }

  lemma SliceAt(transactions: seq<Transaction>, i: nat)
    requires i < |CategorySpendingData(transactions)|
    ensures var categories := Tally(Spending(transactions), CategoryName);
      CategorySpendingData(transactions)[i]
        == Slice(categories[i], i, Spending(transactions), EntriesTotal(categories))
  {
  }

  /** Each slice's population is its amount as a rounded percentage of all spending,
      0 when nothing was spent. */
  lemma CategorySliceShare(transactions: seq<Transaction>, i: nat)
    requires i < |CategorySpendingData(transactions)|
    ensures CategorySpendingData(transactions)[i].population ==
      Population(CategorySpendingData(transactions)[i].amount, Sum(Spending(transactions)))
  {
    var spending := Spending(transactions);
    var categories := Tally(spending, CategoryName);
    SliceAt(transactions, i);
    TallyTotal(spending, CategoryName);
    assert EntriesTotal(categories) == Sum(spending);
  }

  /** Each slice counts the spending records of its category. */
  lemma CategorySliceCountIs(transactions: seq<Transaction>, i: nat)
    requires i < |CategorySpendingData(transactions)|
    ensures CategorySpendingData(transactions)[i].count ==
      |Where(Spending(transactions), KeyFilter(CategoryName, CategorySpendingData(transactions)[i].name))|
  {
    var spending := Spending(transactions);
    var name := CategorySpendingData(transactions)[i].name;
    SliceAt(transactions, i);
    assert CategorySpendingData(transactions)[i].count == |Where(spending, CountFilter(name))|;
    CountFilterIsCategory(spending, name);
  }

  /** A share of a positive total, rounded to a whole percent, lies between 0 and 100. */
  lemma PopulationBounds(amount: real, total: real)
    requires 0.0 <= amount <= total
    ensures 0 <= Population(amount, total) <= 100
  {
    if total > 0.0 {
      var q := amount / total;
      assert q * total == amount;
    }
  }

  /** Each slice's amount is the sum of its records. */
  lemma CategorySliceAmount(transactions: seq<Transaction>, i: nat)
    requires i < |CategorySpendingData(transactions)|
    ensures var s := CategorySpendingData(transactions)[i];
      s.amount == Sum(Where(Spending(transactions), KeyFilter(CategoryName, s.name)))
  {
    var categories := Tally(Spending(transactions), CategoryName);
    SliceAt(transactions, i);
    assert KeysOf(categories)[i] == categories[i].key;
    AmountOfEntry(categories, i);
    TallyIsSum(Spending(transactions), CategoryName, categories[i].key);
  }

  /** With non-negative amounts each slice's population is a percentage from 0 to 100. */
  lemma CategorySlicePopulation(transactions: seq<Transaction>, i: nat)
    requires i < |CategorySpendingData(transactions)|
    requires forall t :: t in transactions ==> t.amount >= 0.0
    ensures 0 <= CategorySpendingData(transactions)[i].population <= 100
  {
    var spending := Spending(transactions);
    var categories := Tally(spending, CategoryName);
    var e := categories[i];
    SliceAt(transactions, i);
    CategorySliceAmount(transactions, i);
    TallyTotal(spending, CategoryName);
    assert forall t :: t in spending ==> t.amount >= 0.0;
    SumWhereAtMost(spending, KeyFilter(CategoryName, e.key));
    PopulationBounds(e.amount, EntriesTotal(categories));
  }

  /** Every slice counts at least one record. */
  lemma CategorySliceCount(transactions: seq<Transaction>, i: nat)
    requires i < |CategorySpendingData(transactions)|
    ensures CategorySpendingData(transactions)[i].count >= 1
  {
    var spending := Spending(transactions);
    var categories := Tally(spending, CategoryName);
    SliceAt(transactions, i);
    var name := categories[i].key;
    assert name in KeysOf(categories) by {
      assert KeysOf(categories)[i] == name;
    }
    var j :| 0 <= j < |spending| && RecordKeys(spending, CategoryName)[j] == name;
    var t := spending[j];
    assert t in spending && CategoryName(t) == name;
    assert IsSpending(t);
    assert CountFilter(name)(t);
    assert t in Where(spending, CountFilter(name));
  }

  lemma CurrencyLabel(spending: seq<Transaction>, i: nat)
    requires i < |Tally(spending, CurrencyKey)|
    ensures ParseCurrency(KeysOf(Tally(spending, CurrencyKey))[i]).Some?
    ensures Tally(spending, CurrencyKey)[i].amount
         == Sum(Where(spending, KeyFilter(CurrencyKey, KeysOf(Tally(spending, CurrencyKey))[i])))
  {
    var currencies := Tally(spending, CurrencyKey);
    var name := KeysOf(currencies)[i];
    assert name in KeysOf(currencies);
    AmountOfEntry(currencies, i);
    TallyIsSum(spending, CurrencyKey, name);
    var j :| 0 <= j < |spending| && RecordKeys(spending, CurrencyKey)[j] == name;
    SymbolRoundTrip(spending[j].currency);
  }

  /** `currencyBreakdownData`: the currencies in order of first appearance, each
      with its total rounded to cents. */
  function CurrencyBreakdown(transactions: seq<Transaction>): (r: (seq<string>, seq<real>))
    ensures r.0 == KeysOf(Tally(Spending(transactions), CurrencyKey))
    ensures |r.1| == |r.0|
    ensures forall i :: 0 <= i < |r.0| ==>
      r.1[i] == JsNumber.RoundCents(Sum(Where(Spending(transactions), KeyFilter(CurrencyKey, r.0[i]))))
    ensures forall i :: 0 <= i < |r.0| ==> ParseCurrency(r.0[i]).Some?
  {
    var spending := Spending(transactions);
    var currencies := Tally(spending, CurrencyKey);
    var labels := KeysOf(currencies);
    var data := seq(|currencies|, i requires 0 <= i < |currencies| => JsNumber.RoundCents(currencies[i].amount));
    forall i | 0 <= i < |labels|
      ensures data[i] == JsNumber.RoundCents(Sum(Where(spending, KeyFilter(CurrencyKey, labels[i]))))
      ensures ParseCurrency(labels[i]).Some?
    {
      CurrencyLabel(spending, i);
    }
    (labels, data)
  }
}
