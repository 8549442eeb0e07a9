/** The seed data the application starts from. */
module Constants {
  import opened Options
  import opened Types
  import opened Seqs
  import opened Aggregation

  const InitialCategories: seq<Category> := [
    Category("1", "Rendas/Casa", "fa-house", "#3B82F6", Need, 80000),
    Category("2", "Alimentação", "fa-utensils", "#EF4444", Need, 30000),
    Category("3", "Transportes", "fa-bus", "#F59E0B", Need, 10000),
    Category("4", "Lazer", "fa-gamepad", "#10B981", Want, 20000),
    Category("5", "Saúde", "fa-heart-pulse", "#EC4899", Need, 5000),
    Category("6", "Subscrições", "fa-tv", "#8B5CF6", Want, 5000),
    Category("7", "Poupança/Inv", "fa-piggy-bank", "#6366F1", Saving, 50000),
    Category("income-cat", "Salário/Rendimento", "fa-money-bill-trend-up", "#059669", CategoryGroup.Income, 0)
  ]

  const PaymentMethods: seq<string> := ["Cartão Débito", "Cartão Crédito", "Dinheiro", "MB Way", "Transferência"]

  /** The seed transactions; they are all dated on the day the module is loaded, `today`. */
  function InitialTransactions(today: string): seq<Transaction> {
    [
      Transaction("t1", 250000, TransactionType.Income, "income-cat", today, "Transferência", "Salário Mensal", true),
      Transaction("t2", 75000, Expense, "1", today, "Transferência", "Renda Apartamento", true),
      Transaction("t3", 4550, Expense, "2", today, "MB Way", "Continente Supermercado", false),
      Transaction("t4", 1599, Expense, "6", today, "Cartão Crédito", "Netflix", true)
    ]
  }

  /** The seed categories: eight of them, with pairwise distinct ids. */
  lemma InitialCategoriesShape()
    ensures |InitialCategories| == 8
    ensures forall i, j :: 0 <= i < j < |InitialCategories| ==> InitialCategories[i].id != InitialCategories[j].id
  {
  }

  /**
   * Exactly one seed category, `income-cat`, is in the income group, with budget 0; every other seed
   * category has a positive budget.
   */
  lemma InitialCategoryGroups()
    ensures forall c :: c in InitialCategories && c.group == CategoryGroup.Income ==> c.id == "income-cat" && c.budget == 0
    ensures exists c :: c in InitialCategories && c.group == CategoryGroup.Income
    ensures forall c :: c in InitialCategories && c.group != CategoryGroup.Income ==> c.budget > 0
  {
    assert InitialCategories[7].group == CategoryGroup.Income;
  }

  lemma PaymentMethodsShape()
    ensures |PaymentMethods| == 5 && PaymentMethods[0] == "Cartão Débito"
  {
  }

  /**
   * Every seed transaction has a positive amount and a category that resolves; income transactions use
   * the income-group category and expenses use the other groups.
   */
  lemma InitialTransactionsResolve(today: string)
    ensures |InitialTransactions(today)| == 4
    ensures forall i :: 0 <= i < 4 ==> SeedWellFormed(InitialTransactions(today)[i])
  {
    forall i | 0 <= i < 4
      ensures SeedWellFormed(InitialTransactions(today)[i])
    {
      SeedResolvesAt(today, i);
    }
  }

  lemma SeedResolvesAt(today: string, i: int)
    requires 0 <= i < 4
    ensures SeedWellFormed(InitialTransactions(today)[i])
  {
    var cs := InitialCategories;
    InitialCategoriesShape();
    var k := if i == 0 then 7 else if i == 1 then 0 else if i == 2 then 1 else 5;
    assert InitialTransactions(today)[i].categoryId == cs[k].id;
    FindCategoryFirst(cs, k);
  }

  /** A positive amount and a category that resolves to a group matching the transaction's type. */
  predicate SeedWellFormed(t: Transaction) {
    t.amount > 0 && FindCategory(InitialCategories, t.categoryId).Some? &&
    (FindCategory(InitialCategories, t.categoryId).value.group == CategoryGroup.Income <==> t.kind == TransactionType.Income)
  }

  /** The seed totals, in cents: income 2500.00, expenses 811.49, balance 1688.51. */
  lemma InitialTotals(today: string)
    ensures Summary(InitialTransactions(today)) == Totals(250000, 81149, 168851)
  {
    var ts := InitialTransactions(today);
    SummaryOfFour(ts[0], ts[1], ts[2], ts[3]);
    assert [ts[0]] + ([ts[1]] + ([ts[2]] + [ts[3]])) == ts;
  }

  /** The totals of a four-element list, one contribution at a time. */
  lemma SummaryOfFour(a: Transaction, b: Transaction, c: Transaction, d: Transaction)
    ensures Summary([a] + ([b] + ([c] + [d])))
      == Contribution(a).Plus(Contribution(b).Plus(Contribution(c).Plus(Contribution(d))))
  {
    var s3 := [d];
    SummaryPrepend(d, []);
    assert [d] + [] == s3;
    var t3 := Contribution(d);
    assert Summary(s3) == t3;
    var s2 := [c] + s3;
    SummaryPrepend(c, s3);
    var t2 := Contribution(c).Plus(t3);
    assert Summary(s2) == t2;
    var s1 := [b] + s2;
    SummaryPrepend(b, s2);
    var t1 := Contribution(b).Plus(t2);
    assert Summary(s1) == t1;
    SummaryPrepend(a, s1);
    assert Summary([a] + s1) == Contribution(a).Plus(t1);
  }
}
