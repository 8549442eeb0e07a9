/**
 * The ledger's entities. Money is held as integer cents (`amount: 45.5` is 4550), so sums are exact.
 * Two field names differ from the TypeScript ones because they are Dafny keywords:
 * `type` is `kind` and `method` is `paymentMethod`.
 */
module Types {
  import opened Options

  /** Direction of a transaction. */
  datatype TransactionType = Expense | Income

  /** The 50/30/20 group of a category; `Income` is reserved for income categories. */
  datatype CategoryGroup = Need | Want | Saving | Income

  datatype UserProfile = UserProfile(
    name: string,
    password: Option<string>,
    /** None stands for the `NaN` that `parseInt` stores for an age typed without digits. */
    age: Option<int>,
    job: string,
    currency: string,
    hideBalance: bool,
    isDarkMode: bool,
    birthDate: Option<string>)

  datatype Category = Category(
    id: string,
    name: string,
    icon: string,
    color: string,
    group: CategoryGroup,
    /** Monthly budget in cents. */
    budget: int)

  /** A ledger entry; its sign is not in `amount` but in `kind`. */
  datatype Transaction = Transaction(
    id: string,
    /** In cents. */
    amount: int,
    kind: TransactionType,
    categoryId: string,
    /** `YYYY-MM-DD`. */
    date: string,
    paymentMethod: string,
    description: string,
    isRecurring: bool)

  /** Declared by the application but never produced by it. */
  datatype BudgetAlert = BudgetAlert(
    categoryId: string,
    categoryName: string,
    percentage: real,
    spent: int,
    limit: int)

  /** The enum's string value, as `String(t.type)` renders it. */
  function TypeName(k: TransactionType): (s: string)
    ensures s == "EXPENSE" || s == "INCOME"
    ensures (s == "INCOME") <==> k.Income?
  {
    match k
    case Expense => "EXPENSE"
    case Income => "INCOME"
  }
}
