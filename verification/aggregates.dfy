/**
  The derived views of the financial dashboard: the three summary figures,
  the twelve-row monthly table and the per-category breakdown, as pure
  functions of the salary list and the per-month expense lists.

  Amounts are integer cents, so every summation identity holds exactly.
  Every sum is a left fold, the shape of JavaScript's `reduce(f, 0)`: the
  sum of a sequence is the sum of all but its last element plus the last.
*/
module Aggregates {

  /** One expense entry: a free-form category name and an amount in cents. */
  datatype Expense = Expense(name: string, amount: int)

  /** The three summary figures shown on the dashboard cards. */
  datatype Stats = Stats(totalSalaries: int, totalExpenses: int, balance: int)

  /** One row of the per-month table that feeds the bar and line charts. */
  datatype MonthRow = MonthRow(name: string, expenses: int, salary: int, balance: int)

  /** One slice of the category pie chart. */
  datatype Category = Category(name: string, value: int)

  /** The month labels, in calendar order; their count fixes the number of months. */
  const Months: seq<string> :=
    ["Janeiro", "Fevereiro", "Março", "Abril", "Maio", "Junho",
     "Julho", "Agosto", "Setembro", "Outubro", "Novembro", "Dezembro"]

  // ---------------------------------------------------------------------
  // Sums
  // ---------------------------------------------------------------------

  /** `xs.reduce((sum, x) => sum + x, 0)` */
  function Sum(xs: seq<int>): int
  {
    if xs == [] then 0 else Sum(xs[..|xs| - 1]) + xs[|xs| - 1]
  }

  /** The total of one month: `es.reduce((sum, e) => sum + e.amount, 0)` */
  function MonthTotal(es: seq<Expense>): int
  {
    if es == [] then 0 else MonthTotal(es[..|es| - 1]) + es[|es| - 1].amount
  }

  /** The sum of the month totals, month by month. */
  function ExpensesTotal(months: seq<seq<Expense>>): int
  {
    if months == [] then 0
    else ExpensesTotal(months[..|months| - 1]) + MonthTotal(months[|months| - 1])
  }

  /** Every entry of every month, months in calendar order and entries in
      insertion order: the order in which the nested `forEach` visits them. */
  function AllExpenses(months: seq<seq<Expense>>): seq<Expense>
  {
    if months == [] then []
    else AllExpenses(months[..|months| - 1]) + months[|months| - 1]
  }

  /** The sum of the amounts of the entries whose name is exactly `name`. */
  function NameTotal(es: seq<Expense>, name: string): int
  {
    if es == [] then 0
    else NameTotal(es[..|es| - 1], name)
         + (if es[|es| - 1].name == name then es[|es| - 1].amount else 0)
  }

  /** True when some entry of `es` carries exactly the name `name`. */
  predicate Mentions(es: seq<Expense>, name: string)
  {
    exists k :: 0 <= k < |es| && es[k].name == name
  }

  /** No name occurs twice. */
  predicate Distinct(names: seq<string>)
  {
    forall i, j :: 0 <= i < j < |names| ==> names[i] != names[j]
  }

  /** The distinct names of `es`, each once, in the order of first occurrence:
      the order in which the category dictionary receives its keys. */
  function CategoryNames(es: seq<Expense>): seq<string>
  {
    if es == [] then []
    else
      var seen := CategoryNames(es[..|es| - 1]);
      var name := es[|es| - 1].name;
      if name in seen then seen else seen + [name]
  }

  /** The sum of the per-name totals of `es` over the names in `names`. */
  function SumNames(names: seq<string>, es: seq<Expense>): int
  {
    if names == [] then 0
    else SumNames(names[..|names| - 1], es) + NameTotal(es, names[|names| - 1])
  }

  /** The sum of the values of the category slices. */
  function ValueSum(entries: seq<Category>): int
  {
    if entries == [] then 0
    else ValueSum(entries[..|entries| - 1]) + entries[|entries| - 1].value
  }

  // ---------------------------------------------------------------------
  // The summary figures and the monthly table
  // ---------------------------------------------------------------------

  /** The dashboard's three cards: total salary, total expenses and their difference. */
  function FinancialStats(salaries: seq<int>, expenses: seq<seq<Expense>>): (r: Stats)
    ensures r.balance == r.totalSalaries - r.totalExpenses
    ensures r.totalExpenses == MonthTotal(AllExpenses(expenses))
  {
    AllExpensesTotal(expenses);
    var totalSalaries := Sum(salaries);
    var totalExpenses := ExpensesTotal(expenses);
    Stats(totalSalaries, totalExpenses, totalSalaries - totalExpenses)
  }

  /** One row per month, in calendar order, with that month's salary, expense
      total and their difference. The columns of the table add up to the
      dashboard's three cards: salaries, expenses and balances of the twelve
      rows sum to total salaries, total expenses and the global balance. */
  function MonthlyData(salaries: seq<int>, expenses: seq<seq<Expense>>): (rows: seq<MonthRow>)
    requires |salaries| == |Months| && |expenses| == |Months|
    ensures |rows| == |Months|
    ensures forall i :: 0 <= i < |rows| ==>
              && rows[i].name == Months[i]
              && rows[i].salary == salaries[i]
              && rows[i].expenses == MonthTotal(expenses[i])
              && rows[i].balance == rows[i].salary - rows[i].expenses
    ensures RowTotals(rows) == FinancialStats(salaries, expenses)
  {
    var rows := seq(|Months|, i requires 0 <= i < |Months| =>
      MonthRow(Months[i], MonthTotal(expenses[i]), salaries[i],
               salaries[i] - MonthTotal(expenses[i])));
    RowTotalsOfMonths(rows, salaries, expenses);
    rows
  }

  /** The column sums of a monthly table, in the shape of the summary figures. */
  function RowTotals(rows: seq<MonthRow>): Stats
  {
    if rows == [] then Stats(0, 0, 0)
    else
      var t := RowTotals(rows[..|rows| - 1]);
      var r := rows[|rows| - 1];
      Stats(t.totalSalaries + r.salary, t.totalExpenses + r.expenses, t.balance + r.balance)
  }

  // ---------------------------------------------------------------------
  // Lemmas: totals
  // ---------------------------------------------------------------------

  lemma {:induction false} MonthTotalConcat(a: seq<Expense>, b: seq<Expense>)
    ensures MonthTotal(a + b) == MonthTotal(a) + MonthTotal(b)
  {
    if b == [] {
      assert a + b == a;
    } else {
      assert (a + b)[..|a + b| - 1] == a + b[..|b| - 1];
      MonthTotalConcat(a, b[..|b| - 1]);
    }
  }

  lemma {:induction false} NameTotalConcat(a: seq<Expense>, b: seq<Expense>, name: string)
    ensures NameTotal(a + b, name) == NameTotal(a, name) + NameTotal(b, name)
  {
    if b == [] {
      assert a + b == a;
    } else {
      assert (a + b)[..|a + b| - 1] == a + b[..|b| - 1];
      NameTotalConcat(a, b[..|b| - 1], name);
    }
  }

  /** Summing month by month is summing every entry of the year at once. */
  lemma {:induction false} AllExpensesTotal(months: seq<seq<Expense>>)
    ensures MonthTotal(AllExpenses(months)) == ExpensesTotal(months)
  {
    if months != [] {
      var n := |months| - 1;
      AllExpensesTotal(months[..n]);
      MonthTotalConcat(AllExpenses(months[..n]), months[n]);
    }
  }

  /** Column sums of any table whose rows are built month by month from
      `salaries` and `expenses`. */
  lemma {:induction false} RowTotalsOfMonths(rows: seq<MonthRow>, salaries: seq<int>, expenses: seq<seq<Expense>>)
    requires |rows| == |salaries| == |expenses|
    requires forall i :: 0 <= i < |rows| ==>
               && rows[i].salary == salaries[i]
               && rows[i].expenses == MonthTotal(expenses[i])
               && rows[i].balance == rows[i].salary - rows[i].expenses
    ensures RowTotals(rows) == Stats(Sum(salaries), ExpensesTotal(expenses),
                                     Sum(salaries) - ExpensesTotal(expenses))
  {
    if rows != [] {
      var n := |rows| - 1;
      RowTotalsOfMonths(rows[..n], salaries[..n], expenses[..n]);
    }
  }

  // ---------------------------------------------------------------------
  // Lemmas: what the two mutations do to the derived views
  // ---------------------------------------------------------------------

  lemma {:induction false} SumUpdate(xs: seq<int>, i: nat, v: int)
    requires i < |xs|
    ensures Sum(xs[i := v]) == Sum(xs) - xs[i] + v
  {
    var n := |xs| - 1;
    if i < n {
      assert xs[i := v][..n] == xs[..n][i := v];
      SumUpdate(xs[..n], i, v);
    } else {
      assert xs[i := v][..n] == xs[..n];
    }
  }

  lemma {:induction false} ExpensesTotalUpdate(months: seq<seq<Expense>>, i: nat, es: seq<Expense>)
    requires i < |months|
    ensures ExpensesTotal(months[i := es])
            == ExpensesTotal(months) - MonthTotal(months[i]) + MonthTotal(es)
  {
    var n := |months| - 1;
    if i < n {
      assert months[i := es][..n] == months[..n][i := es];
      ExpensesTotalUpdate(months[..n], i, es);
    } else {
      assert months[i := es][..n] == months[..n];
    }
  }

  lemma {:induction false} AllExpensesNameTotalUpdate(months: seq<seq<Expense>>, i: nat, es: seq<Expense>, name: string)
    requires i < |months|
    ensures NameTotal(AllExpenses(months[i := es]), name)
            == NameTotal(AllExpenses(months), name) - NameTotal(months[i], name) + NameTotal(es, name)
  {
    var n := |months| - 1;
    var updated := months[i := es];
    NameTotalConcat(AllExpenses(months[..n]), months[n], name);
    NameTotalConcat(AllExpenses(updated[..n]), updated[n], name);
    if i < n {
      assert updated[..n] == months[..n][i := es];
      AllExpensesNameTotalUpdate(months[..n], i, es, name);
    } else {
      assert updated[..n] == months[..n];
    }
  }

  /** Appending an entry to month m raises total expenses by its amount,
      lowers the balance by the same and leaves total salaries alone. */
  lemma AddExpenseStats(salaries: seq<int>, expenses: seq<seq<Expense>>, m: nat, e: Expense)
    requires m < |expenses|
    ensures FinancialStats(salaries, expenses[m := expenses[m] + [e]])
            == Stats(FinancialStats(salaries, expenses).totalSalaries,
                     FinancialStats(salaries, expenses).totalExpenses + e.amount,
                     FinancialStats(salaries, expenses).balance - e.amount)
  {
    assert (expenses[m] + [e])[..|expenses[m]|] == expenses[m];
    ExpensesTotalUpdate(expenses, m, expenses[m] + [e]);
  }

  /** Appending an entry to month m changes row m of the monthly table by its
      amount and leaves the other eleven rows as they were. */
  lemma AddExpenseMonthly(salaries: seq<int>, expenses: seq<seq<Expense>>, m: nat, e: Expense)
    requires |salaries| == |Months| && |expenses| == |Months| && m < |Months|
    ensures var before := MonthlyData(salaries, expenses);
            var after := MonthlyData(salaries, expenses[m := expenses[m] + [e]]);
            && after[m] == before[m].(expenses := before[m].expenses + e.amount,
                                      balance := before[m].balance - e.amount)
            && forall i :: 0 <= i < |Months| && i != m ==> after[i] == before[i]
  {
  }

  /** Appending an entry raises the total of its own name by its amount and
      leaves the total of every other name alone. */
  lemma AddExpenseCategory(expenses: seq<seq<Expense>>, m: nat, e: Expense, name: string)
    requires m < |expenses|
    ensures NameTotal(AllExpenses(expenses[m := expenses[m] + [e]]), name)
            == NameTotal(AllExpenses(expenses), name) + (if e.name == name then e.amount else 0)
  {
    assert (expenses[m] + [e])[..|expenses[m]|] == expenses[m];
    AllExpensesNameTotalUpdate(expenses, m, expenses[m] + [e], name);
  }

  /** Setting the salary of month m to v replaces the old value in the total
      (it is not added to it); total expenses do not move. */
  lemma SetSalaryStats(salaries: seq<int>, expenses: seq<seq<Expense>>, m: nat, v: int)
    requires m < |salaries|
    ensures FinancialStats(salaries[m := v], expenses)
            == Stats(FinancialStats(salaries, expenses).totalSalaries - salaries[m] + v,
                     FinancialStats(salaries, expenses).totalExpenses,
                     FinancialStats(salaries, expenses).balance - salaries[m] + v)
  {
    SumUpdate(salaries, m, v);
  }

  /** Setting the salary of month m rewrites row m of the monthly table and no other row. */
  lemma SetSalaryMonthly(salaries: seq<int>, expenses: seq<seq<Expense>>, m: nat, v: int)
    requires |salaries| == |Months| && |expenses| == |Months| && m < |Months|
    ensures var before := MonthlyData(salaries, expenses);
            var after := MonthlyData(salaries[m := v], expenses);
            && after[m] == before[m].(salary := v, balance := v - before[m].expenses)
            && forall i :: 0 <= i < |Months| && i != m ==> after[i] == before[i]
  {
  }

  // ---------------------------------------------------------------------
  // Lemmas: the category breakdown
  // ---------------------------------------------------------------------

  /** Each category name appears once. */
  lemma {:induction false} CategoryNamesDistinct(es: seq<Expense>)
    ensures Distinct(CategoryNames(es))
  {
    if es != [] {
      CategoryNamesDistinct(es[..|es| - 1]);
    }
  }

  /** A name is a category exactly when some entry carries it. */
  lemma {:induction false} CategoryNamesMembers(es: seq<Expense>, name: string)
    ensures name in CategoryNames(es) <==> Mentions(es, name)
  {
    if es != [] {
      var n := |es| - 1;
      var prefix := es[..n];
      CategoryNamesMembers(prefix, name);
      if Mentions(prefix, name) {
        var k :| 0 <= k < |prefix| && prefix[k].name == name;
        assert es[k].name == name;
      }
      if Mentions(es, name) && es[n].name != name {
        var k :| 0 <= k < |es| && es[k].name == name;
        assert prefix[k].name == name;
      }
    }
  }

  /** A name that no entry carries totals zero. */
  lemma {:induction false} NameTotalAbsent(es: seq<Expense>, name: string)
    requires name !in CategoryNames(es)
    ensures NameTotal(es, name) == 0
  {
    if es != [] {
      NameTotalAbsent(es[..|es| - 1], name);
    }
  }

  lemma {:induction false} SumNamesAppend(names: seq<string>, es: seq<Expense>, e: Expense)
    requires Distinct(names)
    ensures SumNames(names, es + [e])
            == SumNames(names, es) + (if e.name in names then e.amount else 0)
  {
    assert (es + [e])[..|es|] == es;
    if names != [] {
      var n := |names| - 1;
      assert names[n] !in names[..n];
      SumNamesAppend(names[..n], es, e);
      assert e.name in names <==> e.name in names[..n] || e.name == names[n];
    }
  }

  /** The category totals partition the expenses: summed over the distinct
      names, the per-name totals give the total of all entries. */
  lemma {:induction false} CategoriesPartition(es: seq<Expense>)
    ensures SumNames(CategoryNames(es), es) == MonthTotal(es)
  {
    if es != [] {
      var n := |es| - 1;
      var prefix, e := es[..n], es[n];
      assert es == prefix + [e];
      var seen := CategoryNames(prefix);
      CategoriesPartition(prefix);
      CategoryNamesDistinct(prefix);
      SumNamesAppend(seen, prefix, e);
      if e.name !in seen {
        NameTotalAbsent(prefix, e.name);
        assert (seen + [e.name])[..|seen|] == seen;
        assert prefix[..|prefix|] == prefix;
      }
    }
  }

  /** Slices whose values are the per-name totals over `names` sum to `SumNames`. */
  lemma {:induction false} ValueSumOfTotals(entries: seq<Category>, names: seq<string>, es: seq<Expense>)
    requires |entries| == |names|
    requires forall i :: 0 <= i < |entries| ==> entries[i].value == NameTotal(es, names[i])
    ensures ValueSum(entries) == SumNames(names, es)
  {
    if entries != [] {
      var n := |entries| - 1;
      ValueSumOfTotals(entries[..n], names[..n], es);
    }
  }
}
