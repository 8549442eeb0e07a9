/**
 * The aggregation shared by the dashboard, the history view and the PDF export: income, expense and
 * balance totals, and the category lookup every list row performs.
 */
module Aggregation {
  import opened Options
  import opened Types
  import opened Seqs

  /** `reduce((s, t) => s + t.amount, 0)`. */
  function SumAmounts(ts: seq<Transaction>): int {
    if ts == [] then 0 else ts[0].amount + SumAmounts(ts[1..])
  }

  /** `filter(t => t.type === k)`. */
  function OfKind(ts: seq<Transaction>, k: TransactionType): (r: seq<Transaction>)
    ensures forall t :: t in r <==> t in ts && t.kind == k
  {
    Filter(ts, (t: Transaction) => t.kind == k)
  }

  function Income(ts: seq<Transaction>): int {
    SumAmounts(OfKind(ts, TransactionType.Income))
  }

  function Expenses(ts: seq<Transaction>): int {
    SumAmounts(OfKind(ts, Expense))
  }

  datatype Totals = Totals(income: int, expenses: int, balance: int) {
    function Plus(other: Totals): Totals {
      Totals(income + other.income, expenses + other.expenses, balance + other.balance)
    }
  }

  /** The signed effect of one transaction on the balance: the reference the totals are checked against. */
  function Signed(t: Transaction): int {
    if t.kind == TransactionType.Income then t.amount else -t.amount
  }

  /** The net flow of a list: the sum of the signed amounts. */
  function NetFlow(ts: seq<Transaction>): int {
    if ts == [] then 0 else Signed(ts[0]) + NetFlow(ts[1..])
  }

  /**
   * Income, expenses and balance of a list, as the dashboard, the history view (over its filtered list)
   * and the PDF export compute them. The balance is the net flow of the list, and the empty list has
   * all three at zero.
   */
  function Summary(ts: seq<Transaction>): (r: Totals)
    ensures r.balance == r.income - r.expenses
    ensures r.balance == NetFlow(ts)
    ensures ts == [] ==> r == Totals(0, 0, 0)
  {
    BalanceIsNetFlow(ts);
    Totals(Income(ts), Expenses(ts), Income(ts) - Expenses(ts))
  }

  /** The effect of one transaction on the totals. */
  function Contribution(t: Transaction): Totals {
    if t.kind == TransactionType.Income then Totals(t.amount, 0, t.amount) else Totals(0, t.amount, -t.amount)
  }

  lemma {:induction false} SumAmountsConcat(a: seq<Transaction>, b: seq<Transaction>)
    ensures SumAmounts(a + b) == SumAmounts(a) + SumAmounts(b)
  {
    if a == [] {
      assert a + b == b;
    } else {
      assert (a + b)[1..] == a[1..] + b;
      SumAmountsConcat(a[1..], b);
    }
  }

  /** Income minus expenses is the sum of signed amounts. */
  lemma {:induction false} BalanceIsNetFlow(ts: seq<Transaction>)
    ensures Income(ts) - Expenses(ts) == NetFlow(ts)
  {
    if ts != [] {
      BalanceIsNetFlow(ts[1..]);
      var isIncome := (t: Transaction) => t.kind == TransactionType.Income;
      var isExpense := (t: Transaction) => t.kind == Expense;
      assert Filter(ts, isIncome) == (if isIncome(ts[0]) then [ts[0]] else []) + Filter(ts[1..], isIncome);
      assert Filter(ts, isExpense) == (if isExpense(ts[0]) then [ts[0]] else []) + Filter(ts[1..], isExpense);
      SumAmountsConcat(if isIncome(ts[0]) then [ts[0]] else [], Filter(ts[1..], isIncome));
      SumAmountsConcat(if isExpense(ts[0]) then [ts[0]] else [], Filter(ts[1..], isExpense));
    }
  }

  /** Every transaction is either income or expense, so the two totals add up to the sum of all amounts. */
  lemma {:induction false} IncomePlusExpenses(ts: seq<Transaction>)
    ensures Income(ts) + Expenses(ts) == SumAmounts(ts)
  {
    if ts != [] {
      IncomePlusExpenses(ts[1..]);
      var isIncome := (t: Transaction) => t.kind == TransactionType.Income;
      var isExpense := (t: Transaction) => t.kind == Expense;
      assert Filter(ts, isIncome) == (if isIncome(ts[0]) then [ts[0]] else []) + Filter(ts[1..], isIncome);
      assert Filter(ts, isExpense) == (if isExpense(ts[0]) then [ts[0]] else []) + Filter(ts[1..], isExpense);
      SumAmountsConcat(if isIncome(ts[0]) then [ts[0]] else [], Filter(ts[1..], isIncome));
      SumAmountsConcat(if isExpense(ts[0]) then [ts[0]] else [], Filter(ts[1..], isExpense));
    }
  }

  /** The totals of a concatenation are the sums of the totals of its parts. */
  lemma SummaryConcat(a: seq<Transaction>, b: seq<Transaction>)
    ensures Summary(a + b) == Summary(a).Plus(Summary(b))
  {
    var c := a + b;
    KindConcat(a, b, TransactionType.Income);
    KindConcat(a, b, Expense);
    SummaryOfParts(a, b, c);
  }

  /** A list whose per-type sums are those of two parts has the sum of their totals. */
  lemma SummaryOfParts(a: seq<Transaction>, b: seq<Transaction>, c: seq<Transaction>)
    requires Income(c) == Income(a) + Income(b) && Expenses(c) == Expenses(a) + Expenses(b)
    ensures Summary(c) == Summary(a).Plus(Summary(b))
  {
    var x, y, z := Summary(a), Summary(b), Summary(c);
    SummaryFields(a);
    SummaryFields(b);
    SummaryFields(c);
    PlusOfFields(x, y, z);
  }

  /** Totals that add up field by field are the sum. */
  lemma PlusOfFields(x: Totals, y: Totals, z: Totals)
    requires z.income == x.income + y.income && z.expenses == x.expenses + y.expenses
    requires x.balance == x.income - x.expenses && y.balance == y.income - y.expenses
    requires z.balance == z.income - z.expenses
    ensures z == x.Plus(y)
  {
  }

  /** The three figures of the totals, by name. */
  lemma SummaryFields(ts: seq<Transaction>)
    ensures Summary(ts) == Totals(Income(ts), Expenses(ts), Income(ts) - Expenses(ts))
  {
  }

  /** The amounts of one type in a concatenation are those of both parts. */
  lemma KindConcat(a: seq<Transaction>, b: seq<Transaction>, k: TransactionType)
    ensures SumAmounts(OfKind(a + b, k)) == SumAmounts(OfKind(a, k)) + SumAmounts(OfKind(b, k))
  {
    FilterConcat(a, b, (t: Transaction) => t.kind == k);
    assert OfKind(a + b, k) == OfKind(a, k) + OfKind(b, k);
    SumAmountsConcat(OfKind(a, k), OfKind(b, k));
  }

  /** Putting a transaction in front of a list adds exactly its contribution to the totals. */
  lemma SummaryPrepend(t: Transaction, ts: seq<Transaction>)
    ensures Summary([t] + ts) == Contribution(t).Plus(Summary(ts))
  {
    SummaryConcat([t], ts);
    FilterSingleton(t, (x: Transaction) => x.kind == TransactionType.Income);
    FilterSingleton(t, (x: Transaction) => x.kind == Expense);
  }

  /** With positive amounts, neither total is negative. */
  lemma {:induction false} TotalsNonNegative(ts: seq<Transaction>)
    requires forall t :: t in ts ==> t.amount > 0
    ensures Summary(ts).income >= 0 && Summary(ts).expenses >= 0
  {
    if ts != [] {
      TotalsNonNegative(ts[1..]);
      assert ts == [ts[0]] + ts[1..];
      SummaryPrepend(ts[0], ts[1..]);
    }
  }

  /** `categories.find(c => c.id === id)`: the first category with that id, if any. */
  function FindCategory(cs: seq<Category>, id: string): (r: Option<Category>)
    ensures r.Some? ==> r.value in cs && r.value.id == id
    ensures r.None? <==> forall c :: c in cs ==> c.id != id
  {
    if cs == [] then None else if cs[0].id == id then Some(cs[0]) else FindCategory(cs[1..], id)
  }

  /** The lookup returns the first category carrying the id. */
  lemma {:induction false} FindCategoryFirst(cs: seq<Category>, i: int)
    requires 0 <= i < |cs|
    requires forall j :: 0 <= j < i ==> cs[j].id != cs[i].id
    ensures FindCategory(cs, cs[i].id) == Some(cs[i])
  {
    if i > 0 {
      FindCategoryFirst(cs[1..], i - 1);
    }
  }

  /**
   * `cat?.field || fallback`: a field of the category the id resolves to, or the fallback when the id
   * does not resolve or the field is empty.
   */
  function CategoryField(cs: seq<Category>, id: string, field: Category -> string, fallback: string): (s: string)
    requires fallback != ""
    ensures s != ""
    ensures FindCategory(cs, id).None? ==> s == fallback
    ensures FindCategory(cs, id).Some? ==>
      s == if field(FindCategory(cs, id).value) != "" then field(FindCategory(cs, id).value) else fallback
  {
    match FindCategory(cs, id)
    case Some(c) => if field(c) != "" then field(c) else fallback
    case None => fallback
  }

  /** The icon of a row: the category's icon, or `fa-tag` when the category is missing or has none. */
  function CategoryIcon(cs: seq<Category>, id: string): string {
    CategoryField(cs, id, (c: Category) => c.icon, "fa-tag")
  }

  /** The sign shown in front of an amount: '+' for income, '-' for an expense. */
  function SignPrefix(k: TransactionType): (c: char)
    ensures c == '+' <==> k.Income?
    ensures c == '+' || c == '-'
  {
    if k == TransactionType.Income then '+' else '-'
  }
}
