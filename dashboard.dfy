/**
 * The home screen: the balance card, the seven-day expense trend, the hide-balance rule and the list of
 * the most recent transactions.
 */
module Dashboard {
  import opened Options
  import opened Types
  import opened Seqs
  import opened Dates
  import opened Aggregation

  /** What a money figure shows: the mask, or the amount in the profile's currency. */
  datatype Shown = Masked | Currency(cents: int, code: string)

  /** The mask shown in place of a figure while the balance is hidden. */
  const Mask := "••••"

  /**
   * `formatValue`: whenever the profile hides the balance the figure is masked, whatever it is;
   * otherwise it is the figure itself in the profile's currency, euro when none is set.
   */
  function FormatValue(p: UserProfile, val: int): (r: Shown)
    ensures r.Masked? <==> p.hideBalance
    ensures r.Currency? ==> r.cents == val && r.code != "" && (p.currency != "" ==> r.code == p.currency)
    ensures r.Currency? && p.currency == "" ==> r.code == "EUR"
  {
    if p.hideBalance then Masked else Currency(val, if p.currency != "" then p.currency else "EUR")
  }

  /** One point of the trend chart: a day and what was spent on it. */
  datatype TrendPoint = TrendPoint(day: Date, val: int)

  /** Whether a transaction is an expense dated exactly `day`. */
  predicate SpentOn(t: Transaction, day: string) {
    t.kind == Expense && t.date == day
  }

  /** The sum of the expenses dated exactly `day`. */
  function ExpensesOn(ts: seq<Transaction>, day: string): int {
    SumAmounts(Filter(ts, (t: Transaction) => SpentOn(t, day)))
  }

  /** A day without any expense gives 0. */
  lemma ExpensesOnNone(ts: seq<Transaction>, day: string)
    requires forall t :: t in ts ==> !SpentOn(t, day)
    ensures ExpensesOn(ts, day) == 0
  {
    FilterNone(ts, (t: Transaction) => SpentOn(t, day));
  }

  /** Putting a transaction in front adds its amount to its own day if it is an expense, and nothing else. */
  lemma ExpensesOnCons(t: Transaction, ts: seq<Transaction>, day: string)
    ensures ExpensesOn([t] + ts, day) == (if SpentOn(t, day) then t.amount else 0) + ExpensesOn(ts, day)
  {
    var p := (x: Transaction) => SpentOn(x, day);
    assert ([t] + ts)[1..] == ts;
    assert Filter([t] + ts, p) == (if p(t) then [t] else []) + Filter(ts, p);
    SumAmountsConcat(if p(t) then [t] else [], Filter(ts, p));
  }

  /** The `i`-th point of the chart: the day `6 - i` days before today. */
  function TrendAt(ts: seq<Transaction>, today: Date, i: int): (p: TrendPoint)
    requires Valid(today) && 1 <= today.year <= 9999 && 0 <= i < 7
    ensures p.day == DaysBack(today, 6 - i) && Formattable(p.day)
  {
    DaysBackYear(today, 6 - i);
    var day := DaysBack(today, 6 - i);
    TrendPoint(day, ExpensesOn(ts, FormatIso(day)))
  }

  /**
   * `trendData`: seven points, oldest first, the last one today, each holding what was spent on that
   * exact day.
   */
  function Trend(ts: seq<Transaction>, today: Date): (r: seq<TrendPoint>)
    requires Valid(today) && 1 <= today.year <= 9999
    ensures |r| == 7
    ensures forall i :: 0 <= i < 7 ==> r[i].day == DaysBack(today, 6 - i)
    ensures forall i :: 0 <= i < 7 ==> Formattable(r[i].day) && r[i].val == ExpensesOn(ts, FormatIso(r[i].day))
  {
    seq(7, i requires 0 <= i < 7 => TrendAt(ts, today, i))
  }

  /** The chart's days run strictly forward in time and end on today. */
  lemma TrendChronological(ts: seq<Transaction>, today: Date)
    requires Valid(today) && 1 <= today.year <= 9999
    ensures Trend(ts, today)[6].day == today
    ensures forall i, j :: 0 <= i < j < 7 ==> Before(Trend(ts, today)[i].day, Trend(ts, today)[j].day)
  {
    var r := Trend(ts, today);
    assert r[6].day == DaysBack(today, 0);
    forall i, j | 0 <= i < j < 7
      ensures Before(r[i].day, r[j].day)
    {
      TrendDaysOrdered(ts, today, i, j);
    }
  }

  lemma TrendDaysOrdered(ts: seq<Transaction>, today: Date, i: int, j: int)
    requires Valid(today) && 1 <= today.year <= 9999
    requires 0 <= i < j < 7
    ensures Before(Trend(ts, today)[i].day, Trend(ts, today)[j].day)
  {
    var r := Trend(ts, today);
    var a, b := r[i].day, r[j].day;
    assert a == DaysBack(today, 6 - i) && b == DaysBack(today, 6 - j);
    DaysBackMonotone(today, 6 - j, 6 - i);
  }

  /** The seven days of the chart, as the ISO strings the transactions are compared with. */
  function Window(today: Date): (w: seq<string>)
    requires Valid(today) && 1 <= today.year <= 9999
    ensures |w| == 7
  {
    var r := Trend([], today);
    seq(7, i requires 0 <= i < 7 => FormatIso(r[i].day))
  }

  /** The seven days are seven different strings. */
  lemma WindowDistinct(today: Date)
    requires Valid(today) && 1 <= today.year <= 9999
    ensures Distinct(Window(today))
  {
    var r := Trend([], today);
    TrendChronological([], today);
    forall i, j | 0 <= i < j < 7
      ensures Window(today)[i] != Window(today)[j]
    {
      FormatIsoInjective(r[i].day, r[j].day);
    }
  }

  /** Income never shows in the chart: adding an income transaction leaves every point as it was. */
  lemma TrendIgnoresIncome(t: Transaction, ts: seq<Transaction>, today: Date)
    requires Valid(today) && 1 <= today.year <= 9999
    requires t.kind == TransactionType.Income
    ensures Trend([t] + ts, today) == Trend(ts, today)
  {
    forall day: string
      ensures ExpensesOn([t] + ts, day) == ExpensesOn(ts, day)
    {
      ExpensesOnCons(t, ts, day);
    }
  }

  /** The sum of the chart's values. */
  function TrendTotal(r: seq<TrendPoint>): int {
    if r == [] then 0 else r[0].val + TrendTotal(r[1..])
  }

  /** What the chart's days collect from one transaction. */
  function Hits(t: Transaction, days: seq<string>): int {
    if days == [] then 0 else (if SpentOn(t, days[0]) then t.amount else 0) + Hits(t, days[1..])
  }

  /** The expenses of every day of a list of days, added up. */
  function OverDays(ts: seq<Transaction>, days: seq<string>): int {
    if days == [] then 0 else ExpensesOn(ts, days[0]) + OverDays(ts, days[1..])
  }

  /** Over distinct days, a transaction counts once if it is an expense on one of them, else not at all. */
  lemma {:induction false} HitsDistinct(t: Transaction, days: seq<string>)
    requires Distinct(days)
    ensures Hits(t, days) == if t.kind == Expense && t.date in days then t.amount else 0
  {
    if days != [] {
      assert Distinct(days[1..]) by {
        forall i, j | 0 <= i < j < |days[1..]| ensures days[1..][i] != days[1..][j] {
          assert days[1..][i] == days[i + 1] && days[1..][j] == days[j + 1];
        }
      }
      HitsDistinct(t, days[1..]);
      if t.date == days[0] {
        assert t.date !in days[1..] by {
          forall k | 0 <= k < |days[1..]| ensures days[1..][k] != t.date {
            assert days[1..][k] == days[k + 1];
          }
        }
      }
      assert days == [days[0]] + days[1..];
    }
  }

  lemma {:induction false} OverDaysEmpty(days: seq<string>)
    ensures OverDays([], days) == 0
  {
    if days != [] {
      OverDaysEmpty(days[1..]);
    }
  }

  /** Putting one transaction in front adds what it contributes to the days. */
  lemma {:induction false} OverDaysCons(t: Transaction, ts: seq<Transaction>, days: seq<string>)
    ensures OverDays([t] + ts, days) == Hits(t, days) + OverDays(ts, days)
  {
    if days != [] {
      OverDaysCons(t, ts, days[1..]);
      ExpensesOnCons(t, ts, days[0]);
    }
  }

  /** Over distinct days, the per-day expenses add up to the expenses dated on any of the days. */
  lemma {:induction false} OverDaysIsFilter(ts: seq<Transaction>, days: seq<string>)
    requires Distinct(days)
    ensures OverDays(ts, days) == SumAmounts(Filter(ts, (t: Transaction) => t.kind == Expense && t.date in days))
  {
    if ts == [] {
      OverDaysEmpty(days);
    } else {
      var p := (t: Transaction) => t.kind == Expense && t.date in days;
      assert ts == [ts[0]] + ts[1..];
      OverDaysCons(ts[0], ts[1..], days);
      HitsDistinct(ts[0], days);
      OverDaysIsFilter(ts[1..], days);
      assert Filter(ts, p) == (if p(ts[0]) then [ts[0]] else []) + Filter(ts[1..], p);
      SumAmountsConcat(if p(ts[0]) then [ts[0]] else [], Filter(ts[1..], p));
    }
  }

  lemma {:induction false} TrendTotalOverDays(ts: seq<Transaction>, r: seq<TrendPoint>, days: seq<string>)
    requires |r| == |days|
    requires forall i :: 0 <= i < |r| ==> r[i].val == ExpensesOn(ts, days[i])
    ensures TrendTotal(r) == OverDays(ts, days)
  {
    if r != [] {
      TrendTotalOverDays(ts, r[1..], days[1..]);
    }
  }

  /**
   * The chart as a whole: its values add up to the expenses dated on one of its seven days. No expense is
   * counted twice and no income is counted at all.
   */
  lemma TrendTotalIsWindowExpenses(ts: seq<Transaction>, today: Date)
    requires Valid(today) && 1 <= today.year <= 9999
    ensures TrendTotal(Trend(ts, today)) ==
      SumAmounts(Filter(ts, (t: Transaction) => t.kind == Expense && t.date in Window(today)))
  {
    WindowDistinct(today);
    TrendTotalOverDays(ts, Trend(ts, today), Window(today));
    OverDaysIsFilter(ts, Window(today));
  }

  /** `transactions.slice(0, 3)`: the first three transactions in list order, fewer when there are fewer. */
  function Recent(ts: seq<Transaction>): (r: seq<Transaction>)
    ensures |r| == if |ts| < 3 then |ts| else 3
    ensures r == ts[..|r|]
  {
    if |ts| < 3 then ts else ts[..3]
  }

  /** A transaction just added shows first among the recent ones, ahead of the two that led before. */
  lemma RecentAfterAdd(t: Transaction, ts: seq<Transaction>)
    ensures Recent([t] + ts) == [t] + Recent(ts)[..if |ts| < 2 then |ts| else 2]
  {
  }

  /** The amount of a recent row: hidden, or the amount with its sign. */
  datatype AmountLabel = Hidden | SignedAmount(sign: char, cents: int)

  /** A row of the recent list: the category icon and the amount label. */
  datatype RecentRow = RecentRow(icon: string, description: string, amount: AmountLabel)

  function RecentRowOf(cs: seq<Category>, p: UserProfile, t: Transaction): (row: RecentRow)
    ensures row.amount.Hidden? <==> p.hideBalance
    ensures row.amount.SignedAmount? ==> row.amount.cents == t.amount && (row.amount.sign == '+' <==> t.kind.Income?)
    ensures FindCategory(cs, t.categoryId).None? ==> row.icon == "fa-tag"
    ensures FindCategory(cs, t.categoryId).Some? && FindCategory(cs, t.categoryId).value.icon != "" ==>
      row.icon == FindCategory(cs, t.categoryId).value.icon
    ensures row.icon == CategoryIcon(cs, t.categoryId) && row.description == t.description
  {
    RecentRow(CategoryIcon(cs, t.categoryId), t.description,
              if p.hideBalance then Hidden else SignedAmount(SignPrefix(t.kind), t.amount))
  }

  /** The balance card: balance, income and expenses, each through the hide rule. */
  function BalanceCard(ts: seq<Transaction>, p: UserProfile): (card: seq<Shown>)
    ensures |card| == 3
    ensures p.hideBalance ==> forall i :: 0 <= i < 3 ==> card[i] == Masked
    ensures !p.hideBalance ==> forall i :: 0 <= i < 3 ==> card[i].Currency?
    ensures !p.hideBalance ==> card[0].cents == card[1].cents - card[2].cents && card[0].cents == NetFlow(ts)
    ensures !p.hideBalance ==> card[1].cents == Summary(ts).income && card[2].cents == Summary(ts).expenses
  {
    var s := Summary(ts);
    [FormatValue(p, s.balance), FormatValue(p, s.income), FormatValue(p, s.expenses)]
  }
}
