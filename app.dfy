/**
 * The application store: the transaction list, the category list and the active tab, with the
 * updaters the components call.
 */
module App {
  import opened Options
  import opened Types
  import opened Seqs
  import opened Constants
  import opened Aggregation

  datatype Tab = Home | History | AddTab | Categories | More

  /** A partial category, `Partial<Category>`: the fields an update carries. */
  datatype CategoryPatch = CategoryPatch(
    id: Option<string>,
    name: Option<string>,
    icon: Option<string>,
    color: Option<string>,
    group: Option<CategoryGroup>,
    budget: Option<int>)

  const NoChange := CategoryPatch(None, None, None, None, None, None)

  /** `{...c, ...up}`: every field present in the patch wins, every other field is kept. */
  function Merge(c: Category, up: CategoryPatch): (r: Category)
    ensures up.budget.None? ==> r.budget == c.budget
    ensures up.budget.Some? ==> r.budget == up.budget.value
    ensures up.color.None? ==> r.color == c.color
    ensures up.color.Some? ==> r.color == up.color.value
    ensures up.id.None? ==> r.id == c.id
    ensures up.id.Some? ==> r.id == up.id.value
    ensures up.name.None? ==> r.name == c.name
    ensures up.name.Some? ==> r.name == up.name.value
    ensures up.icon.None? ==> r.icon == c.icon
    ensures up.icon.Some? ==> r.icon == up.icon.value
    ensures up.group.None? ==> r.group == c.group
    ensures up.group.Some? ==> r.group == up.group.value
  {
    Category(up.id.GetOr(c.id), up.name.GetOr(c.name), up.icon.GetOr(c.icon),
             up.color.GetOr(c.color), up.group.GetOr(c.group), up.budget.GetOr(c.budget))
  }

  /** An empty patch changes nothing. */
  lemma MergeNoChange(c: Category)
    ensures Merge(c, NoChange) == c
  {
  }

  /** Applying the same patch twice is applying it once. */
  lemma MergeIdempotent(c: Category, up: CategoryPatch)
    ensures Merge(Merge(c, up), up) == Merge(c, up)
  {
  }

  /** `prev.filter(t => t.id !== id)`. */
  function Without(ts: seq<Transaction>, id: string): (r: seq<Transaction>)
    ensures |r| <= |ts|
    ensures forall t :: t in r <==> t in ts && t.id != id
  {
    Filter(ts, (t: Transaction) => t.id != id)
  }

  /** Deleting keeps the survivors in their original relative order: it distributes over concatenation. */
  lemma WithoutConcat(a: seq<Transaction>, b: seq<Transaction>, id: string)
    ensures Without(a + b, id) == Without(a, id) + Without(b, id)
  {
    FilterConcat(a, b, (t: Transaction) => t.id != id);
  }

  /** Deleting an id that is not in the list leaves the list unchanged. */
  lemma WithoutAbsent(ts: seq<Transaction>, id: string)
    requires forall t :: t in ts ==> t.id != id
    ensures Without(ts, id) == ts
  {
    FilterAll(ts, (t: Transaction) => t.id != id);
  }

  /** Deleting twice is deleting once. */
  lemma WithoutIdempotent(ts: seq<Transaction>, id: string)
    ensures Without(Without(ts, id), id) == Without(ts, id)
  {
    FilterIdempotent(ts, (t: Transaction) => t.id != id);
  }

  /** The transactions a delete removes: every one with that id. */
  function WithId(ts: seq<Transaction>, id: string): (r: seq<Transaction>)
    ensures forall t :: t in r <==> t in ts && t.id == id
  {
    Filter(ts, (t: Transaction) => t.id == id)
  }

  /** A delete takes off the balance exactly the net flow of the removed transactions. */
  lemma {:induction false} DeleteBalance(ts: seq<Transaction>, id: string)
    ensures NetFlow(Without(ts, id)) == NetFlow(ts) - NetFlow(WithId(ts, id))
  {
    if ts != [] {
      DeleteBalance(ts[1..], id);
      var keep := (t: Transaction) => t.id != id;
      var drop := (t: Transaction) => t.id == id;
      assert Filter(ts, keep) == (if keep(ts[0]) then [ts[0]] else []) + Filter(ts[1..], keep);
      assert Filter(ts, drop) == (if drop(ts[0]) then [ts[0]] else []) + Filter(ts[1..], drop);
      NetFlowConcat(if keep(ts[0]) then [ts[0]] else [], Filter(ts[1..], keep));
      NetFlowConcat(if drop(ts[0]) then [ts[0]] else [], Filter(ts[1..], drop));
    }
  }

  lemma {:induction false} NetFlowConcat(a: seq<Transaction>, b: seq<Transaction>)
    ensures NetFlow(a + b) == NetFlow(a) + NetFlow(b)
  {
    if a == [] {
      assert a + b == b;
    } else {
      assert (a + b)[1..] == a[1..] + b;
      NetFlowConcat(a[1..], b);
    }
  }

  /**
   * `prev.map(c => c.id === id ? {...c, ...up} : c)`: same length and order, matching entries merged
   * with the patch, every other entry untouched.
   */
  function UpdateCategories(cs: seq<Category>, id: string, up: CategoryPatch): (r: seq<Category>)
    ensures |r| == |cs|
    ensures forall i :: 0 <= i < |cs| && cs[i].id != id ==> r[i] == cs[i]
    ensures forall i :: 0 <= i < |cs| && cs[i].id == id ==> r[i] == Merge(cs[i], up)
  {
    seq(|cs|, i requires 0 <= i < |cs| => if cs[i].id == id then Merge(cs[i], up) else cs[i])
  }

  /** An update for an id no category has changes nothing. */
  lemma UpdateAbsent(cs: seq<Category>, id: string, up: CategoryPatch)
    requires forall c :: c in cs ==> c.id != id
    ensures UpdateCategories(cs, id, up) == cs
  {
    var r := UpdateCategories(cs, id, up);
    assert forall i :: 0 <= i < |cs| ==> r[i] == cs[i];
  }

  /** An update whose patch leaves the id alone keeps the list of ids as it was. */
  lemma UpdateKeepsIds(cs: seq<Category>, id: string, up: CategoryPatch)
    requires up.id.None?
    ensures var r := UpdateCategories(cs, id, up);
      forall i :: 0 <= i < |cs| ==> r[i].id == cs[i].id
  {
  }

  /** The application state. */
  class Ledger {
    var transactions: seq<Transaction>
    var categories: seq<Category>
    var activeTab: Tab

    /** The store starts on the home tab with the seed categories and transactions. */
    constructor(today: string)
      ensures transactions == InitialTransactions(today)
      ensures categories == InitialCategories
      ensures activeTab == Home
    {
      transactions := InitialTransactions(today);
      categories := InitialCategories;
      activeTab := Home;
    }

    /** `addTransaction`: the new transaction goes in front and the home tab is shown. */
    method AddTransaction(t: Transaction)
      modifies this
      ensures transactions == [t] + old(transactions)
      ensures Summary(transactions) == Contribution(t).Plus(Summary(old(transactions)))
      ensures activeTab == Home
      ensures categories == old(categories)
    {
      SummaryPrepend(t, transactions);
      transactions := [t] + transactions;
      activeTab := Home;
    }

    /** `deleteTransaction`: every transaction with that id goes. */
    method DeleteTransaction(id: string)
      modifies this`transactions
      ensures transactions == Without(old(transactions), id)
      ensures Summary(transactions).balance == Summary(old(transactions)).balance - NetFlow(WithId(old(transactions), id))
    {
      DeleteBalance(transactions, id);
      transactions := Without(transactions, id);
    }

    /** The category manager's `onAdd`: the new category goes at the end. */
    method AddCategory(c: Category)
      modifies this`categories
      ensures categories == old(categories) + [c]
    {
      categories := categories + [c];
    }

    /** The category manager's `onUpdate`. */
    method UpdateCategory(id: string, up: CategoryPatch)
      modifies this`categories
      ensures categories == UpdateCategories(old(categories), id, up)
    {
      categories := UpdateCategories(categories, id, up);
    }

    /** The data view's `clearData`: once the user confirms, the transaction list is emptied. */
    method ClearTransactions(confirmed: bool)
      modifies this`transactions
      ensures confirmed ==> transactions == [] && Summary(transactions) == Totals(0, 0, 0)
      ensures !confirmed ==> transactions == old(transactions)
    {
      if confirmed {
        transactions := [];
      }
    }

    /** A navigation button. */
    method SelectTab(tab: Tab)
      modifies this`activeTab
      ensures activeTab == tab
    {
      activeTab := tab;
    }
  }
}
