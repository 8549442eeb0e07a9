/** The history screen: a month and a year picked by the user, the transactions of that month and their totals. */
module HistoryView {
  import opened Options
  import opened Types
  import opened Seqs
  import opened Dates
  import opened Aggregation

  /** The month picker's labels; the selected month is an index into this table. */
  const Months: seq<string> := ["Jan", "Fev", "Mar", "Abr", "Mai", "Jun", "Jul", "Ago", "Set", "Out", "Nov", "Dez"]

  /**
   * Whether a transaction date falls in the month `month` (0-based, as `getMonth()` counts) of `year`.
   * A date that does not read as a calendar day belongs to no month.
   */
  predicate InMonth(date: string, month: int, year: int) {
    match ParseIso(date)
    case Some(d) => d.month - 1 == month && d.year == year
    case None => false
  }

  /** `filtered`: the transactions of the selected month, in list order. */
  function Filtered(ts: seq<Transaction>, month: int, year: int): (r: seq<Transaction>)
    ensures |r| <= |ts|
    ensures forall t :: t in r <==> t in ts && InMonth(t.date, month, year)
  {
    Filter(ts, (t: Transaction) => InMonth(t.date, month, year))
  }

  /** Filtering keeps list order: it distributes over concatenation. */
  lemma FilteredConcat(a: seq<Transaction>, b: seq<Transaction>, month: int, year: int)
    ensures Filtered(a + b, month, year) == Filtered(a, month, year) + Filtered(b, month, year)
  {
    FilterConcat(a, b, (t: Transaction) => InMonth(t.date, month, year));
  }

  /** Filtering the filtered list again changes nothing. */
  lemma FilteredIdempotent(ts: seq<Transaction>, month: int, year: int)
    ensures Filtered(Filtered(ts, month, year), month, year) == Filtered(ts, month, year)
  {
    FilterIdempotent(ts, (t: Transaction) => InMonth(t.date, month, year));
  }

  /** A readable date belongs to exactly one month: its own. */
  lemma OneMonth(date: string, month: int, year: int)
    requires ParseIso(date).Some?
    ensures InMonth(date, month, year) <==> month == ParseIso(date).value.month - 1 && year == ParseIso(date).value.year
    ensures 0 <= ParseIso(date).value.month - 1 < |Months|
  {
  }

  /** No transaction is ever in a month outside the picker's range. */
  lemma FilteredOutOfRange(ts: seq<Transaction>, month: int, year: int)
    requires !(0 <= month < |Months|)
    ensures Filtered(ts, month, year) == []
  {
    FilterNone(ts, (t: Transaction) => InMonth(t.date, month, year));
  }

  /** The income and expense totals of the month. */
  datatype MonthStats = MonthStats(inc: int, exp: int)

  /** `stats`: income and expense totals over the month's transactions only. */
  function Stats(ts: seq<Transaction>, month: int, year: int): (r: MonthStats)
    ensures r.inc - r.exp == NetFlow(Filtered(ts, month, year))
    ensures (forall t :: t in ts ==> !InMonth(t.date, month, year)) ==> r == MonthStats(0, 0)
  {
    NoneInMonth(ts, month, year);
    var s := Summary(Filtered(ts, month, year));
    MonthStats(s.income, s.expenses)
  }

  /** A list filters to nothing exactly when none of its transactions falls in the month. */
  lemma NoneInMonth(ts: seq<Transaction>, month: int, year: int)
    ensures (forall t :: t in ts ==> !InMonth(t.date, month, year)) <==> Filtered(ts, month, year) == []
  {
    if forall t :: t in ts ==> !InMonth(t.date, month, year) {
      FilterNone(ts, (t: Transaction) => InMonth(t.date, month, year));
    }
  }

  /**
   * A new transaction moves the statistics of its own month by its amount, on the side of its type, and
   * leaves every other month's statistics as they were.
   */
  lemma StatsAfterAdd(t: Transaction, ts: seq<Transaction>, month: int, year: int)
    ensures var before, after := Stats(ts, month, year), Stats([t] + ts, month, year);
      if InMonth(t.date, month, year) then
        after == MonthStats(before.inc + Contribution(t).income, before.exp + Contribution(t).expenses)
      else after == before
  {
    if InMonth(t.date, month, year) {
      AddInMonth(t, ts, month, year);
    } else {
      AddOutOfMonth(t, ts, month, year);
    }
  }

  /** A transaction of the month adds its amount to the month's income or expenses. */
  lemma AddInMonth(t: Transaction, ts: seq<Transaction>, month: int, year: int)
    requires InMonth(t.date, month, year)
    ensures var before := Stats(ts, month, year);
      Stats([t] + ts, month, year)
      == MonthStats(before.inc + Contribution(t).income, before.exp + Contribution(t).expenses)
  {
    FilteredCons(t, ts, month, year);
    PrependStats(t, Filtered(ts, month, year), Stats([t] + ts, month, year), Stats(ts, month, year));
  }

  /** A transaction of another month leaves the month's statistics alone. */
  lemma AddOutOfMonth(t: Transaction, ts: seq<Transaction>, month: int, year: int)
    requires !InMonth(t.date, month, year)
    ensures Stats([t] + ts, month, year) == Stats(ts, month, year)
  {
    FilteredCons(t, ts, month, year);
    assert [] + Filtered(ts, month, year) == Filtered(ts, month, year);
  }

  /** A transaction in front joins the month's list exactly when it falls in the month. */
  lemma FilteredCons(t: Transaction, ts: seq<Transaction>, month: int, year: int)
    ensures Filtered([t] + ts, month, year)
      == (if InMonth(t.date, month, year) then [t] else []) + Filtered(ts, month, year)
  {
    FilteredConcat([t], ts, month, year);
    FilterSingleton(t, (x: Transaction) => InMonth(x.date, month, year));
  }

  /** Statistics of a filtered list with one more transaction in front. */
  lemma PrependStats(t: Transaction, rest: seq<Transaction>, after: MonthStats, before: MonthStats)
    requires after == MonthStats(Summary([t] + rest).income, Summary([t] + rest).expenses)
    requires before == MonthStats(Summary(rest).income, Summary(rest).expenses)
    ensures after == MonthStats(before.inc + Contribution(t).income, before.exp + Contribution(t).expenses)
  {
    SummaryPrepend(t, rest);
  }

  /** The picker state. */
  class MonthPicker {
    var selectedMonth: int
    var selectedYear: int

    predicate Valid()
      reads this
    {
      0 <= selectedMonth < |Months|
    }

    /** The picker opens on the current month. */
    constructor(today: Date)
      requires Dates.Valid(today)
      ensures Valid()
      ensures selectedMonth == today.month - 1 && selectedYear == today.year
    {
      selectedMonth := today.month - 1;
      selectedYear := today.year;
    }

    /** The left chevron: one year back, same month. */
    method PrevYear()
      requires Valid()
      modifies this`selectedYear
      ensures Valid()
      ensures selectedYear == old(selectedYear) - 1
    {
      selectedYear := selectedYear - 1;
    }

    /** The right chevron: one year on, same month. */
    method NextYear()
      requires Valid()
      modifies this`selectedYear
      ensures Valid()
      ensures selectedYear == old(selectedYear) + 1
    {
      selectedYear := selectedYear + 1;
    }

    /** A month button: the buttons are the entries of `Months`, so the index is always in range. */
    method SelectMonth(idx: int)
      requires 0 <= idx < |Months|
      modifies this`selectedMonth
      ensures Valid()
      ensures selectedMonth == idx
    {
      selectedMonth := idx;
    }
  }
}
