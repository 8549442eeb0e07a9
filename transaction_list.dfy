/**
 * The transaction list: transactions grouped under their date, dates newest first, each row with its
 * category's colour and icon and a signed amount.
 */
module TransactionList {
  import opened Options
  import opened Types
  import opened Seqs
  import opened Dates
  import opened Aggregation

  /** The transactions dated `day`, in list order. */
  function OnDate(ts: seq<Transaction>, day: string): (r: seq<Transaction>)
    ensures forall t :: t in r <==> t in ts && t.date == day
  {
    Filter(ts, (t: Transaction) => t.date == day)
  }

  /** The dates that occur in a list. */
  function DateSet(ts: seq<Transaction>): set<string> {
    set t | t in ts :: t.date
  }

  /** The dates of a list, each once, in the order of their first occurrence. */
  function DistinctDates(ts: seq<Transaction>): (r: seq<string>)
    ensures Distinct(r)
    ensures forall k :: k in r <==> k in DateSet(ts)
  {
    if ts == [] then []
    else
      var front := ts[..|ts| - 1];
      var rest := DistinctDates(front);
      assert ts == front + [ts[|ts| - 1]];
      if ts[|ts| - 1].date in rest then rest else rest + [ts[|ts| - 1].date]
  }

  lemma OnDateSnoc(ts: seq<Transaction>, t: Transaction, day: string)
    ensures OnDate(ts + [t], day) == OnDate(ts, day) + (if t.date == day then [t] else [])
  {
    FilterConcat(ts, [t], (x: Transaction) => x.date == day);
    FilterSingleton(t, (x: Transaction) => x.date == day);
  }

  lemma OnDateAbsent(ts: seq<Transaction>, day: string)
    requires day !in DateSet(ts)
    ensures OnDate(ts, day) == []
  {
    FilterNone(ts, (t: Transaction) => t.date == day);
  }

  /** The dates of a list with one more transaction at its end. */
  lemma DistinctDatesSnoc(ts: seq<Transaction>, t: Transaction)
    ensures DistinctDates(ts + [t]) == if t.date in DistinctDates(ts) then DistinctDates(ts) else DistinctDates(ts) + [t.date]
  {
    assert (ts + [t])[..|ts + [t]| - 1] == ts;
  }

  /** What the dictionary must hold once the transactions of `ts` have been reduced into it. */
  predicate GroupsOf(ts: seq<Transaction>, groups: map<string, seq<Transaction>>) {
    groups.Keys == DateSet(ts) && forall k :: k in groups ==> groups[k] == OnDate(ts, k)
  }

  /** One step of the reduce: create the date's group if it is missing, then append the transaction to it. */
  lemma GroupStep(ts: seq<Transaction>, t: Transaction, groups: map<string, seq<Transaction>>)
    requires GroupsOf(ts, groups)
    ensures var created := if t.date !in groups then groups[t.date := []] else groups;
      GroupsOf(ts + [t], created[t.date := created[t.date] + [t]])
  {
    var created := if t.date !in groups then groups[t.date := []] else groups;
    var next := created[t.date := created[t.date] + [t]];
    DateSetSnoc(ts, t);
    assert next.Keys == DateSet(ts) + {t.date};
    forall k | k in next
      ensures next[k] == OnDate(ts + [t], k)
    {
      GroupAfterStep(ts, t, groups, k);
    }
  }

  /** The group of one date after the step. */
  lemma GroupAfterStep(ts: seq<Transaction>, t: Transaction, groups: map<string, seq<Transaction>>, k: string)
    requires GroupsOf(ts, groups)
    requires k in groups || k == t.date
    ensures var created := if t.date !in groups then groups[t.date := []] else groups;
      created[t.date := created[t.date] + [t]][k] == OnDate(ts + [t], k)
  {
    OnDateSnoc(ts, t, k);
    if t.date !in groups {
      OnDateAbsent(ts, t.date);
    }
  }

  lemma DateSetSnoc(ts: seq<Transaction>, t: Transaction)
    ensures DateSet(ts + [t]) == DateSet(ts) + {t.date}
  {
    assert forall x :: x in ts + [t] <==> x in ts || x == t;
  }

  /**
   * The body of the `grouped` reduce for one transaction: the date's group is created empty the first
   * time the date is met (and the date becomes the next key), then the transaction is appended to it.
   */
  method AddToGroup(ghost ts: seq<Transaction>, keys: seq<string>, groups: map<string, seq<Transaction>>, t: Transaction)
    returns (keys': seq<string>, groups': map<string, seq<Transaction>>)
    requires keys == DistinctDates(ts) && GroupsOf(ts, groups)
    ensures keys' == DistinctDates(ts + [t]) && GroupsOf(ts + [t], groups')
  {
    GroupStep(ts, t, groups);
    DistinctDatesSnoc(ts, t);
    keys', groups' := keys, groups;
    if t.date !in groups' {
      groups' := groups'[t.date := []];
      keys' := keys' + [t.date];
    }
    groups' := groups'[t.date := groups'[t.date] + [t]];
  }

  /**
   * The `grouped` reduce: a dictionary from each date to the transactions of that date, in list order.
   * `keys` is the dictionary's key order, the order in which the dates were first met.
   */
  method GroupByDate(ts: seq<Transaction>) returns (keys: seq<string>, groups: map<string, seq<Transaction>>)
    ensures keys == DistinctDates(ts)
    ensures groups.Keys == DateSet(ts)
    ensures forall k :: k in groups ==> groups[k] == OnDate(ts, k)
  {
    keys := [];
    groups := map[];
    var i := 0;
    assert ts[..0] == [] && DateSet([]) == {};
    while i < |ts|
      invariant 0 <= i <= |ts|
      invariant keys == DistinctDates(ts[..i]) && GroupsOf(ts[..i], groups)
    {
      TakeSnoc(ts, i);
      keys, groups := AddToGroup(ts[..i], keys, groups, ts[i]);
      i := i + 1;
    }
    assert ts[..|ts|] == ts;
  }

  /** The sizes of the groups of `days`, added up. */
  function SizeSum(ts: seq<Transaction>, days: seq<string>): nat {
    if days == [] then 0 else |OnDate(ts, days[0])| + SizeSum(ts, days[1..])
  }

  lemma {:induction false} SizeSumSnocTransaction(ts: seq<Transaction>, t: Transaction, days: seq<string>)
    ensures SizeSum(ts + [t], days) == SizeSum(ts, days) + Occurrences(days, t.date)
  {
    if days != [] {
      OnDateSnoc(ts, t, days[0]);
      SizeSumSnocTransaction(ts, t, days[1..]);
    }
  }

  lemma {:induction false} SizeSumSnocDay(ts: seq<Transaction>, days: seq<string>, day: string)
    ensures SizeSum(ts, days + [day]) == SizeSum(ts, days) + |OnDate(ts, day)|
  {
    if days == [] {
      assert days + [day] == [day];
    } else {
      assert (days + [day])[1..] == days[1..] + [day];
      SizeSumSnocDay(ts, days[1..], day);
    }
  }

  /** Every transaction lands in exactly one group, so the group sizes add up to the length of the list. */
  lemma {:induction false} GroupSizes(ts: seq<Transaction>)
    ensures SizeSum(ts, DistinctDates(ts)) == |ts|
  {
    if ts != [] {
      var front, t := ts[..|ts| - 1], ts[|ts| - 1];
      assert ts == front + [t];
      var days := DistinctDates(front);
      GroupSizes(front);
      SizeSumSnocTransaction(front, t, days);
      OccurrencesDistinct(days, t.date);
      if t.date !in days {
        SizeSumSnocDay(ts, days, t.date);
        OnDateAbsent(front, t.date);
        OnDateSnoc(front, t, t.date);
      }
    }
  }

  /** The list shows its empty-state message exactly when there is no group to show. */
  lemma EmptyStateIffNoGroups(ts: seq<Transaction>)
    ensures |ts| == 0 <==> DistinctDates(ts) == []
  {
    if |ts| > 0 {
      assert ts[0].date in DateSet(ts);
    }
  }

  /**
   * The sort key of a group date: the day's ordinal for a readable date. An unreadable one (for which the
   * comparator sees an invalid time) gets -1, below every readable date.
   */
  function Rank(day: string): (r: int)
    ensures ParseIso(day).Some? ==> r == Ordinal(ParseIso(day).value) && r > -1
    ensures ParseIso(day).None? ==> r == -1
  {
    match ParseIso(day)
    case Some(d) => Ordinal(d)
    case None => -1
  }

  /** Non-increasing under `key`. */
  predicate SortedDescBy<T>(s: seq<T>, key: T -> int) {
    forall i, j :: 0 <= i < j < |s| ==> key(s[i]) >= key(s[j])
  }

  /** A head no smaller than anything after it keeps a sorted list sorted. */
  lemma ConsSorted<T>(h: T, s: seq<T>, key: T -> int)
    requires SortedDescBy(s, key)
    requires forall k :: 0 <= k < |s| ==> key(h) >= key(s[k])
    ensures SortedDescBy([h] + s, key)
  {
    forall i, j | 0 <= i < j < |[h] + s|
      ensures key(([h] + s)[i]) >= key(([h] + s)[j])
    {
      assert ([h] + s)[j] == s[j - 1];
      if i > 0 {
        assert ([h] + s)[i] == s[i - 1];
      }
    }
  }

  /** The head of a sorted list is no smaller than anything after it. */
  lemma SortedHeadBound<T>(s: seq<T>, key: T -> int)
    requires SortedDescBy(s, key) && s != []
    ensures forall y :: y in s[1..] ==> key(s[0]) >= key(y)
  {
    forall y | y in s[1..]
      ensures key(s[0]) >= key(y)
    {
      var j :| 0 <= j < |s[1..]| && s[1..][j] == y;
      assert s[j + 1] == y;
    }
  }

  /** Inserts `x` into a list sorted by `key`, largest first, ahead of the entries whose key is not larger. */
  function InsertDescBy<T>(x: T, s: seq<T>, key: T -> int): (r: seq<T>)
    requires SortedDescBy(s, key)
    ensures SortedDescBy(r, key)
    ensures multiset(r) == multiset(s) + multiset{x}
    ensures forall k :: 0 <= k < |r| ==> r[k] == x || r[k] in s
  {
    if s == [] || key(s[0]) <= key(x) then
      ConsSorted(x, s, key);
      [x] + s
    else
      var rest := InsertDescBy(x, s[1..], key);
      assert multiset(s) == multiset{s[0]} + multiset(s[1..]) by { assert s == [s[0]] + s[1..]; }
      SortedHeadBound(s, key);
      ConsSorted(s[0], rest, key);
      [s[0]] + rest
  }

  /** An insertion sort, largest key first. */
  function SortDescBy<T>(s: seq<T>, key: T -> int): (r: seq<T>)
    ensures SortedDescBy(r, key)
    ensures multiset(r) == multiset(s)
  {
    if s == [] then []
    else
      assert s == [s[0]] + s[1..];
      InsertDescBy(s[0], SortDescBy(s[1..], key), key)
  }

  /** `sortedDates`: the group keys, newest first; a permutation of the keys. */
  function SortDatesDesc(keys: seq<string>): (r: seq<string>)
    ensures forall i, j :: 0 <= i < j < |r| ==> Rank(r[i]) >= Rank(r[j])
    ensures multiset(r) == multiset(keys)
  {
    SortDescBy(keys, Rank)
  }

  /** Among readable dates, a date listed earlier is never older than one listed later. */
  lemma SortedNewestFirst(keys: seq<string>, i: int, j: int)
    requires 0 <= i < j < |SortDatesDesc(keys)|
    requires ParseIso(SortDatesDesc(keys)[i]).Some? && ParseIso(SortDatesDesc(keys)[j]).Some?
    ensures !Before(ParseIso(SortDatesDesc(keys)[i]).value, ParseIso(SortDatesDesc(keys)[j]).value)
  {
    var s := SortDatesDesc(keys);
    OrdinalOrder(ParseIso(s[i]).value, ParseIso(s[j]).value);
  }

  /** In the sorted keys, no readable date comes after an unreadable one. */
  lemma UnreadableLast(keys: seq<string>, i: int, j: int)
    requires 0 <= i < j < |SortDatesDesc(keys)|
    requires ParseIso(SortDatesDesc(keys)[i]).None?
    ensures ParseIso(SortDatesDesc(keys)[j]).None?
  {
  }

  /** The colour of a row: the category's colour, or `#ccc` when the category is missing or has none. */
  function CategoryColor(cs: seq<Category>, id: string): string {
    CategoryField(cs, id, (c: Category) => c.color, "#ccc")
  }

  /** One row of a group. */
  datatype Row = Row(color: string, icon: string, description: string, paymentMethod: string, sign: char, cents: int)

  /** A row always renders, whether or not its category resolves, and its sign follows its type. */
  function RowOf(cs: seq<Category>, t: Transaction): (r: Row)
    ensures r.sign == '+' <==> t.kind.Income?
    ensures r.cents == t.amount
    ensures r.color != "" && r.icon != ""
    ensures FindCategory(cs, t.categoryId).None? ==> r.color == "#ccc" && r.icon == "fa-tag"
    ensures FindCategory(cs, t.categoryId).Some? && FindCategory(cs, t.categoryId).value.color != "" ==>
      r.color == FindCategory(cs, t.categoryId).value.color
    ensures FindCategory(cs, t.categoryId).Some? && FindCategory(cs, t.categoryId).value.icon != "" ==>
      r.icon == FindCategory(cs, t.categoryId).value.icon
    ensures r.color == CategoryColor(cs, t.categoryId) && r.icon == CategoryIcon(cs, t.categoryId)
    ensures r.description == t.description && r.paymentMethod == t.paymentMethod
  {
    Row(CategoryColor(cs, t.categoryId), CategoryIcon(cs, t.categoryId), t.description, t.paymentMethod,
        SignPrefix(t.kind), t.amount)
  }
}
