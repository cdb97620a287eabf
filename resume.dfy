/** The monthly expense summary of the Resume screen
    (src/screens/Resume/index.tsx): which transactions count, their total,
    the per-category totals, and month navigation. */
module Resume {
  import opened Js
  import Auth

  /** The prefix of the per-user transactions key. */
  const TransactionsKeyPrefix := "@gofinances:transactions_user:"

  datatype TransactionType = Positive | Negative

  /** A calendar month; `month` is 0-based, as `Date.getMonth` returns it. */
  datatype YearMonth = YearMonth(year: int, month: int)

  /** A stored transaction; `amount` is in whole cents. */
  datatype Transaction = Transaction(
    kind: TransactionType,
    name: string,
    amount: int,
    category: string,
    date: YearMonth)

  datatype Category = Category(key: string, name: string, color: string)

  /** One entry of `totalByCategory`, without its display-only fields. */
  datatype CategoryTotal = CategoryTotal(key: string, name: string, color: string, total: int)

  datatype DateAction = Next | Prev

  // ---------------------------------------------------------------------------
  // Storage lookup

  /** The `id` the auth state exposes; the empty record `{}` has none. */
  function UserId(user: Option<Auth.User>): JsString
  {
    match user
    case None => Undefined
    case Some(u) => u.id
  }

  /** The key under which the signed-in user's transactions are stored. */
  function DataKey(user: Option<Auth.User>): (key: string)
    ensures |TransactionsKeyPrefix| <= |key|
    ensures key[..|TransactionsKeyPrefix|] == TransactionsKeyPrefix
    ensures key[|TransactionsKeyPrefix|..] == Interpolate(UserId(user))
  {
    TransactionsKeyPrefix + Interpolate(UserId(user))
  }

  /** The stored list under `key`; nothing stored reads as an empty list. */
  function StoredTransactions(storage: map<string, seq<Transaction>>, key: string): (txs: seq<Transaction>)
    ensures key !in storage ==> txs == []
    ensures key in storage ==> txs == storage[key]
  {
    if key in storage then storage[key] else []
  }

  // ---------------------------------------------------------------------------
  // The filter and the sums

  /** A transaction counts when it is an expense dated in the selected month. */
  predicate IsSelectedExpense(t: Transaction, selected: YearMonth)
  {
    t.kind == Negative && t.date.month == selected.month && t.date.year == selected.year
  }

  /** `expensives`: the selected expenses, in their stored order. */
  function Expensives(txs: seq<Transaction>, selected: YearMonth): (r: seq<Transaction>)
    ensures |r| <= |txs|
    ensures forall t :: t in r ==> t in txs && IsSelectedExpense(t, selected)
    ensures forall t :: t in txs && IsSelectedExpense(t, selected) ==> t in r
  {
    if txs == [] then []
    else
      var rest := Expensives(txs[..|txs| - 1], selected);
      var last := txs[|txs| - 1];
      assert forall t :: t in txs ==> t in txs[..|txs| - 1] || t == last;
      if IsSelectedExpense(last, selected) then rest + [last] else rest
  }

  /** The filter keeps every occurrence of a selected expense and drops
      every occurrence of anything else. */
  lemma {:induction false} ExpensivesKeepOccurrences(txs: seq<Transaction>, selected: YearMonth)
    ensures forall t :: multiset(Expensives(txs, selected))[t] ==
                        if IsSelectedExpense(t, selected) then multiset(txs)[t] else 0
  {
    if txs != [] {
      var init, last := txs[..|txs| - 1], txs[|txs| - 1];
      assert txs == init + [last];
      ExpensivesKeepOccurrences(init, selected);
    }
  }

  /** The `reduce` over amounts, folded from the left. */
  function SumAmounts(ts: seq<Transaction>): (total: int)
    ensures (forall t :: t in ts ==> t.amount >= 0) ==> total >= 0
    ensures (forall t :: t in ts ==> t.amount == 0) ==> total == 0
  {
    assert forall t :: ts != [] && t in ts[..|ts| - 1] ==> t in ts;
    if ts == [] then 0 else SumAmounts(ts[..|ts| - 1]) + ts[|ts| - 1].amount
  }

  /** The inner `forEach`: amounts of the transactions filed under `key`. */
  function CategorySum(ts: seq<Transaction>, key: string): (sum: int)
    ensures (forall t :: t in ts ==> t.amount >= 0) ==> sum >= 0
    ensures (forall t :: t in ts ==> t.category != key) ==> sum == 0
  {
    assert forall t :: ts != [] && t in ts[..|ts| - 1] ==> t in ts;
    if ts == [] then 0
    else CategorySum(ts[..|ts| - 1], key) + (if ts[|ts| - 1].category == key then ts[|ts| - 1].amount else 0)
  }

  /** Reference definitions over the raw stored list: what one transaction
      adds to the month's expense total, and to one category of it. */
  function Contribution(t: Transaction, selected: YearMonth): int
  {
    if IsSelectedExpense(t, selected) then t.amount else 0
  }

  function SelectedTotal(txs: seq<Transaction>, selected: YearMonth): int
  {
    if txs == [] then 0 else SelectedTotal(txs[..|txs| - 1], selected) + Contribution(txs[|txs| - 1], selected)
  }

  function SelectedCategoryTotal(txs: seq<Transaction>, selected: YearMonth, key: string): int
  {
    if txs == [] then 0
    else
      SelectedCategoryTotal(txs[..|txs| - 1], selected, key) +
      (if txs[|txs| - 1].category == key then Contribution(txs[|txs| - 1], selected) else 0)
  }

  /** `expensivesTotal` is the total of exactly the selected expenses of the
      stored list, counted with their multiplicity. */
  lemma {:induction false} ExpensesTotal(txs: seq<Transaction>, selected: YearMonth)
    ensures SumAmounts(Expensives(txs, selected)) == SelectedTotal(txs, selected)
  {
    if txs != [] {
      var init, last := txs[..|txs| - 1], txs[|txs| - 1];
      ExpensesTotal(init, selected);
      var rest := Expensives(init, selected);
      if IsSelectedExpense(last, selected) {
        assert (rest + [last])[..|rest|] == rest;
      }
    }
  }

  /** A category's sum counts exactly the selected expenses filed under it. */
  lemma {:induction false} ExpensesCategorySum(txs: seq<Transaction>, selected: YearMonth, key: string)
    ensures CategorySum(Expensives(txs, selected), key) == SelectedCategoryTotal(txs, selected, key)
  {
    if txs != [] {
      var init, last := txs[..|txs| - 1], txs[|txs| - 1];
      ExpensesCategorySum(init, selected, key);
      var rest := Expensives(init, selected);
      if IsSelectedExpense(last, selected) {
        assert (rest + [last])[..|rest|] == rest;
      }
    }
  }

  // ---------------------------------------------------------------------------
  // The per-category aggregation

  function Entry(c: Category, total: int): CategoryTotal
  {
    CategoryTotal(c.key, c.name, c.color, total)
  }

  /** `totalByCategory`: walk the categories in order and keep those whose
      sum is positive. Every entry carries its category's true, positive sum. */
  function TotalsByCategory(categories: seq<Category>, expensives: seq<Transaction>): (r: seq<CategoryTotal>)
    ensures |r| <= |categories|
    ensures forall k :: 0 <= k < |r| ==> r[k].total > 0 && r[k].total == CategorySum(expensives, r[k].key)
  {
    if categories == [] then []
    else
      var rest := TotalsByCategory(categories[..|categories| - 1], expensives);
      var category := categories[|categories| - 1];
      var categorySum := CategorySum(expensives, category.key);
      if categorySum > 0 then rest + [Entry(category, categorySum)] else rest
  }

  /** The positions in `categories` of the categories that get an entry. */
  function EmittedPositions(categories: seq<Category>, expensives: seq<Transaction>): seq<nat>
  {
    if categories == [] then []
    else
      var rest := EmittedPositions(categories[..|categories| - 1], expensives);
      var n := |categories| - 1;
      if CategorySum(expensives, categories[n].key) > 0 then rest + [n] else rest
  }

  /** The entries are exactly the positive-sum categories, in the order of the
      category list, each copying key, name and color from its category. */
  lemma {:induction false} TotalsFollowCategories(categories: seq<Category>, expensives: seq<Transaction>)
    ensures var r, ix := TotalsByCategory(categories, expensives), EmittedPositions(categories, expensives);
            |ix| == |r| &&
            (forall k :: 0 <= k < |ix| ==> ix[k] < |categories|) &&
            (forall k, l :: 0 <= k < l < |ix| ==> ix[k] < ix[l]) &&
            (forall k :: 0 <= k < |ix| ==>
               r[k] == Entry(categories[ix[k]], CategorySum(expensives, categories[ix[k]].key))) &&
            (forall i :: 0 <= i < |categories| ==> (i in ix <==> CategorySum(expensives, categories[i].key) > 0))
  {
    PositionsIncrease(categories, expensives);
    EntriesAtPositions(categories, expensives);
    PositionsComplete(categories, expensives);
  }

  lemma {:induction false} PositionsIncrease(categories: seq<Category>, expensives: seq<Transaction>)
    ensures var ix := EmittedPositions(categories, expensives);
            |ix| == |TotalsByCategory(categories, expensives)| &&
            (forall k :: 0 <= k < |ix| ==> ix[k] < |categories|) &&
            (forall k, l :: 0 <= k < l < |ix| ==> ix[k] < ix[l])
  {
    if categories != [] {
      PositionsIncrease(categories[..|categories| - 1], expensives);
    }
  }

  lemma {:induction false} EntriesAtPositions(categories: seq<Category>, expensives: seq<Transaction>)
    ensures var r, ix := TotalsByCategory(categories, expensives), EmittedPositions(categories, expensives);
            |ix| == |r| &&
            forall k :: 0 <= k < |ix| ==>
              (ix[k] < |categories| &&
               r[k] == Entry(categories[ix[k]], CategorySum(expensives, categories[ix[k]].key)))
  {
    if categories != [] {
      var n := |categories| - 1;
      var init := categories[..n];
      EntriesAtPositions(init, expensives);
      assert forall i :: 0 <= i < n ==> init[i] == categories[i];
      var rest, restIx := TotalsByCategory(init, expensives), EmittedPositions(init, expensives);
      var sum := CategorySum(expensives, categories[n].key);
      if sum > 0 {
        assert TotalsByCategory(categories, expensives) == rest + [Entry(categories[n], sum)];
        assert EmittedPositions(categories, expensives) == restIx + [n];
      }
    }
  }

  lemma {:induction false} PositionsComplete(categories: seq<Category>, expensives: seq<Transaction>)
    ensures var ix := EmittedPositions(categories, expensives);
            (forall k :: 0 <= k < |ix| ==> ix[k] < |categories|) &&
            forall i :: 0 <= i < |categories| ==> (i in ix <==> CategorySum(expensives, categories[i].key) > 0)
  {
    if categories != [] {
      var n := |categories| - 1;
      var init := categories[..n];
      PositionsComplete(init, expensives);
      assert forall i :: 0 <= i < n ==> init[i] == categories[i];
    }
  }

  /** The percent labels rest on this: when every expense's category is in the
      list, keys are distinct and no amount is negative, the emitted totals add
      up to `expensivesTotal`. */
  lemma TotalsAddUp(categories: seq<Category>, expensives: seq<Transaction>)
    requires DistinctKeys(categories)
    requires forall t :: t in expensives ==> Listed(categories, t.category)
    requires forall t :: t in expensives ==> t.amount >= 0
    ensures SumTotals(TotalsByCategory(categories, expensives)) == SumAmounts(expensives)
  {
    EmittedCoverAll(categories, expensives);
    CategoriesCoverTotal(categories, expensives);
  }

  predicate DistinctKeys(categories: seq<Category>)
  {
    forall i, j :: 0 <= i < j < |categories| ==> categories[i].key != categories[j].key
  }

  predicate Listed(categories: seq<Category>, key: string)
  {
    exists i :: 0 <= i < |categories| && categories[i].key == key
  }

  function SumTotals(entries: seq<CategoryTotal>): int
  {
    if entries == [] then 0 else SumTotals(entries[..|entries| - 1]) + entries[|entries| - 1].total
  }

  /** Every category's sum, emitted or not. */
  function SumOverCategories(categories: seq<Category>, ts: seq<Transaction>): int
  {
    if categories == [] then 0
    else SumOverCategories(categories[..|categories| - 1], ts) + CategorySum(ts, categories[|categories| - 1].key)
  }

  /** What one amount `a` filed under `key` adds across all categories. */
  function Hits(categories: seq<Category>, key: string, a: int): int
  {
    if categories == [] then 0
    else Hits(categories[..|categories| - 1], key, a) + (if categories[|categories| - 1].key == key then a else 0)
  }

  /** Dropping the categories whose sum is not positive loses nothing. */
  lemma {:induction false} EmittedCoverAll(categories: seq<Category>, ts: seq<Transaction>)
    requires forall t :: t in ts ==> t.amount >= 0
    ensures SumTotals(TotalsByCategory(categories, ts)) == SumOverCategories(categories, ts)
  {
    if categories != [] {
      var init, c := categories[..|categories| - 1], categories[|categories| - 1];
      EmittedCoverAll(init, ts);
      var rest := TotalsByCategory(init, ts);
      var e := Entry(c, CategorySum(ts, c.key));
      assert (rest + [e])[..|rest|] == rest;
    }
  }

  lemma {:induction false} NoHits(categories: seq<Category>, key: string, a: int)
    requires forall i :: 0 <= i < |categories| ==> categories[i].key != key
    ensures Hits(categories, key, a) == 0
  {
    if categories != [] {
      NoHits(categories[..|categories| - 1], key, a);
    }
  }

  /** With distinct keys, a listed amount lands in exactly one category. */
  lemma {:induction false} OneHit(categories: seq<Category>, key: string, a: int)
    requires DistinctKeys(categories) && Listed(categories, key)
    ensures Hits(categories, key, a) == a
  {
    var n := |categories| - 1;
    var init := categories[..n];
    if categories[n].key == key {
      NoHits(init, key, a);
    } else {
      var i :| 0 <= i < |categories| && categories[i].key == key;
      assert init[i].key == key;
      OneHit(init, key, a);
    }
  }

  lemma {:induction false} NoTransactionsNoSum(categories: seq<Category>)
    ensures SumOverCategories(categories, []) == 0
  {
    if categories != [] {
      NoTransactionsNoSum(categories[..|categories| - 1]);
    }
  }

  lemma {:induction false} SumOverCategoriesSnoc(categories: seq<Category>, ts: seq<Transaction>, t: Transaction)
    ensures SumOverCategories(categories, ts + [t]) == SumOverCategories(categories, ts) + Hits(categories, t.category, t.amount)
  {
    assert (ts + [t])[..|ts|] == ts;
    if categories != [] {
      SumOverCategoriesSnoc(categories[..|categories| - 1], ts, t);
    }
  }

  /** Summing by category and summing everything agree. */
  lemma {:induction false} CategoriesCoverTotal(categories: seq<Category>, ts: seq<Transaction>)
    requires DistinctKeys(categories)
    requires forall t :: t in ts ==> Listed(categories, t.category)
    ensures SumOverCategories(categories, ts) == SumAmounts(ts)
  {
    if ts == [] {
      NoTransactionsNoSum(categories);
    } else {
      var init, last := ts[..|ts| - 1], ts[|ts| - 1];
      assert ts == init + [last];
      CategoriesCoverTotal(categories, init);
      SumOverCategoriesSnoc(categories, init, last);
      OneHit(categories, last.category, last.amount);
    }
  }

  /** Nothing stored for the user means nothing to show. */
  lemma EmptyStorageEmptySummary(storage: map<string, seq<Transaction>>, user: Option<Auth.User>,
                                 selected: YearMonth, categories: seq<Category>)
    requires DataKey(user) !in storage
    ensures TotalsByCategory(categories, Expensives(StoredTransactions(storage, DataKey(user)), selected)) == []
  {
    NoExpensesNoEntries(categories);
  }

  lemma {:induction false} NoExpensesNoEntries(categories: seq<Category>)
    ensures TotalsByCategory(categories, []) == []
  {
    if categories != [] {
      NoExpensesNoEntries(categories[..|categories| - 1]);
    }
  }

  /** The nested `forEach` loops of `loadData`, pushing onto the accumulator. */
  method AggregateByCategory(categories: seq<Category>, expensives: seq<Transaction>)
    returns (totalByCategory: seq<CategoryTotal>)
    ensures totalByCategory == TotalsByCategory(categories, expensives)
  {
    totalByCategory := [];
    var i := 0;
    while i < |categories|
      invariant 0 <= i <= |categories|
      invariant totalByCategory == TotalsByCategory(categories[..i], expensives)
    {
      var category := categories[i];
      var categorySum := 0;
      var j := 0;
      while j < |expensives|
        invariant 0 <= j <= |expensives|
        invariant categorySum == CategorySum(expensives[..j], category.key)
      {
        if expensives[j].category == category.key {
          categorySum := categorySum + expensives[j].amount;
        }
        assert expensives[..j + 1][..j] == expensives[..j];
        j := j + 1;
      }
      assert expensives[..j] == expensives;
      if categorySum > 0 {
        totalByCategory := totalByCategory + [Entry(category, categorySum)];
      }
      assert categories[..i + 1][..i] == categories[..i];
      i := i + 1;
    }
    assert categories[..i] == categories;
  }

  // ---------------------------------------------------------------------------
  // Month navigation

  predicate ValidMonth(d: YearMonth)
  {
    0 <= d.month < 12
  }

  /** Months counted from year 0, so that navigation becomes arithmetic. */
  function MonthIndex(d: YearMonth): int
  {
    d.year * 12 + d.month
  }

  function NextMonth(d: YearMonth): (r: YearMonth)
    requires ValidMonth(d)
    ensures ValidMonth(r) && MonthIndex(r) == MonthIndex(d) + 1
  {
    if d.month == 11 then YearMonth(d.year + 1, 0) else YearMonth(d.year, d.month + 1)
  }

  function PrevMonth(d: YearMonth): (r: YearMonth)
    requires ValidMonth(d)
    ensures ValidMonth(r) && MonthIndex(r) == MonthIndex(d) - 1
  {
    if d.month == 0 then YearMonth(d.year - 1, 11) else YearMonth(d.year, d.month - 1)
  }

  /** `handleDateChange`: the month after or before. */
  function ChangeDate(d: YearMonth, action: DateAction): (r: YearMonth)
    requires ValidMonth(d)
    ensures ValidMonth(r)
    ensures MonthIndex(r) == MonthIndex(d) + (if action == Next then 1 else -1)
  {
    if action == Next then NextMonth(d) else PrevMonth(d)
  }

  /** A valid month is determined by its index. */
  lemma MonthIndexInjective(a: YearMonth, b: YearMonth)
    requires ValidMonth(a) && ValidMonth(b) && MonthIndex(a) == MonthIndex(b)
    ensures a == b
  {
  }

  /** 'next' then 'prev', and 'prev' then 'next', return to the same month. */
  lemma NavigationRoundTrip(d: YearMonth)
    requires ValidMonth(d)
    ensures ChangeDate(ChangeDate(d, Next), Prev) == d
    ensures ChangeDate(ChangeDate(d, Prev), Next) == d
  {
    MonthIndexInjective(ChangeDate(ChangeDate(d, Next), Prev), d);
    MonthIndexInjective(ChangeDate(ChangeDate(d, Prev), Next), d);
  }

  // ---------------------------------------------------------------------------
  // The screen's state

  /** The Resume screen's state cells: the selected month, the entries last
      computed, and the loading flag. */
  class ResumeScreen {
    var selectedDate: YearMonth
    var totalByCategories: seq<CategoryTotal>
    var isLoading: bool

    ghost predicate Valid()
      reads this
    {
      ValidMonth(selectedDate)
    }

    constructor (today: YearMonth)
      requires ValidMonth(today)
      ensures Valid()
      ensures selectedDate == today && totalByCategories == [] && !isLoading
    {
      selectedDate := today;
      totalByCategories := [];
      isLoading := false;
    }

    method HandleDateChange(action: DateAction)
      requires Valid()
      modifies this
      ensures Valid()
      ensures selectedDate == ChangeDate(old(selectedDate), action)
      ensures totalByCategories == old(totalByCategories) && isLoading == old(isLoading)
    {
      if action == Next {
        selectedDate := NextMonth(selectedDate);
      } else {
        selectedDate := PrevMonth(selectedDate);
      }
    }

    /** `loadData`: read the user's transactions, keep the selected expenses
      and publish their per-category totals. */
    method LoadData(storage: map<string, seq<Transaction>>, user: Option<Auth.User>, categories: seq<Category>)
      requires Valid()
      modifies this
      ensures Valid() && selectedDate == old(selectedDate) && !isLoading
      ensures totalByCategories ==
                TotalsByCategory(categories, Expensives(StoredTransactions(storage, DataKey(user)), selectedDate))
    {
      isLoading := true;
      var dataKey := DataKey(user);
      var responseFormated := StoredTransactions(storage, dataKey);
      var expensives := Expensives(responseFormated, selectedDate);
      var totalByCategory := AggregateByCategory(categories, expensives);
      totalByCategories := totalByCategory;
      isLoading := false;
    }
  }
}
