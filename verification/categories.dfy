/**
  The per-category breakdown behind the pie chart. The dashboard builds a
  dictionary from expense name to running total by visiting every entry of
  every month, then lists the dictionary's entries as name/value slices.

  The source as written has a stray identifier right after the nested loop
  (financial-app.tsx line 74), which would raise a reference error each time
  the breakdown is computed; this module models the evidently intended
  computation, the loop followed by the listing of the entries.
*/
module Categories {
  import opened Aggregates

  /** `totals` and `order` are the dictionary and its key order after the
      entries `visited` have been counted. */
  ghost predicate Tallied(totals: map<string, int>, order: seq<string>, visited: seq<Expense>)
  {
    && order == CategoryNames(visited)
    && (forall name :: name in totals <==> name in order)
    && (forall name :: name in totals ==> totals[name] == NameTotal(visited, name))
  }

  /** Counting one more entry: a new name starts from zero and joins the key
      order at the end; a known name adds the amount to its running total. */
  lemma TallyStep(totals: map<string, int>, order: seq<string>, visited: seq<Expense>, e: Expense)
    requires Tallied(totals, order, visited)
    ensures Tallied(totals[e.name := (if e.name in totals then totals[e.name] else 0) + e.amount],
                    if e.name in totals then order else order + [e.name],
                    visited + [e])
  {
    assert (visited + [e])[..|visited|] == visited;
    if e.name !in totals {
      NameTotalAbsent(visited, e.name);
    }
  }

  /** Extending a prefix by one element. */
  lemma PrefixStep<T>(s: seq<T>, j: nat)
    requires j < |s|
    ensures s[..j + 1] == s[..j] + [s[j]]
    ensures s[..j + 1][..j] == s[..j]
  {
  }

  /** The inner loop: counting the entries of one month, in order. */
  method TallyMonth(es: seq<Expense>, totals0: map<string, int>, order0: seq<string>, ghost visited: seq<Expense>)
    returns (totals: map<string, int>, order: seq<string>)
    requires Tallied(totals0, order0, visited)
    ensures Tallied(totals, order, visited + es)
  {
    totals, order := totals0, order0;
    ghost var done := visited;
    var j := 0;
    assert visited + es[..j] == visited;
    while j < |es|
      invariant j <= |es|
      invariant done == visited + es[..j]
      invariant Tallied(totals, order, done)
    {
      var e := es[j];
      TallyStep(totals, order, done, e);
      if e.name !in totals {
        order := order + [e.name];
      }
      totals := totals[e.name := (if e.name in totals then totals[e.name] else 0) + e.amount];
      done := done + [e];
      PrefixStep(es, j);
      assert visited + es[..j + 1] == (visited + es[..j]) + [e];
      j := j + 1;
    }
    assert es[..j] == es;
  }

  /** The nested loop over months and entries: a dictionary from each exact
      name to the sum of its amounts, and its keys in insertion order. */
  method TallyCategories(months: seq<seq<Expense>>) returns (totals: map<string, int>, order: seq<string>)
    ensures order == CategoryNames(AllExpenses(months))
    ensures forall name :: name in totals <==> Mentions(AllExpenses(months), name)
    ensures forall name :: name in totals ==> totals[name] == NameTotal(AllExpenses(months), name)
  {
    totals, order := map[], [];
    var m := 0;
    while m < |months|
      invariant m <= |months|
      invariant Tallied(totals, order, AllExpenses(months[..m]))
    {
      totals, order := TallyMonth(months[m], totals, order, AllExpenses(months[..m]));
      PrefixStep(months, m);
      m := m + 1;
    }
    assert months[..m] == months;
    forall name
      ensures name in totals <==> Mentions(AllExpenses(months), name)
    {
      CategoryNamesMembers(AllExpenses(months), name);
    }
  }

  /** The category slices of `months`: one per distinct exact name, in order
      of first occurrence, each worth the sum of the amounts carrying that
      name across all months. */
  method ExpenseCategories(months: seq<seq<Expense>>) returns (entries: seq<Category>)
    ensures |entries| == |CategoryNames(AllExpenses(months))| &&
            forall i :: 0 <= i < |entries| ==>
              entries[i].name == CategoryNames(AllExpenses(months))[i] &&
              entries[i].value == NameTotal(AllExpenses(months), entries[i].name)
    ensures forall i, j :: 0 <= i < j < |entries| ==> entries[i].name != entries[j].name
  {
    var totals, order := TallyCategories(months);
    ghost var all := AllExpenses(months);
    // Object.entries(...).map(...): one slice per key, in insertion order
    entries := [];
    var k := 0;
    while k < |order|
      invariant k <= |order|
      invariant |entries| == k
      invariant forall i :: 0 <= i < k ==> entries[i] == Category(order[i], NameTotal(all, order[i]))
    {
      CategoryNamesMembers(all, order[k]);
      entries := entries + [Category(order[k], totals[order[k]])];
      k := k + 1;
    }
    CategoryNamesDistinct(all);
  }

  /** The pie chart partitions total expenses: the values of the breakdown
      add up to the total of all entries of all months. */
  lemma CategoriesSumToTotal(months: seq<seq<Expense>>, entries: seq<Category>)
    requires |entries| == |CategoryNames(AllExpenses(months))|
    requires forall i :: 0 <= i < |entries| ==>
               entries[i].value == NameTotal(AllExpenses(months), CategoryNames(AllExpenses(months))[i])
    ensures ValueSum(entries) == ExpensesTotal(months)
  {
    var all := AllExpenses(months);
    ValueSumOfTotals(entries, CategoryNames(all), all);
    CategoriesPartition(all);
    AllExpensesTotal(months);
  }
}
