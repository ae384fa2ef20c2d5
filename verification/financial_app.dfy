/**
  The state of the financial dashboard and the operations that change it:
  twelve monthly salaries, twelve monthly expense lists, the selected month,
  the active view, the two entry forms and the notification banner.

  The salary and expense lists are fixed arrays of twelve slots; the two
  handlers validate the form, then overwrite exactly one slot of one of them.
*/
module FinancialApp {
  import opened Aggregates

  /** A numeric form field: left empty, or holding an already parsed amount in cents. */
  datatype NumberInput = Blank | Entered(value: int)

  /** The two screens between which the header button switches. */
  datatype View = DashboardView | MonthlyView

  /** The notification's styling: none yet, a green success or a red error. */
  datatype AlertKind = Untyped | Success | Error

  /** The notification banner. */
  datatype Alert = Alert(show: bool, message: string, kind: AlertKind)

  const NoAlert := Alert(false, "", Untyped)

  const FillAllFieldsMessage := "Preencha todos os campos"
  const ExpenseAddedMessage := "Despesa adicionada com sucesso"
  const InvalidValueMessage := "Digite um valor válido"
  const SalaryRecordedMessage := "Salário registrado com sucesso"

  /** The pie chart's palette; slices reuse it cyclically. */
  const Colors: seq<string> := ["#0088FE", "#00C49F", "#FFBB28", "#FF8042", "#8884d8"]

  /** The view the header button leads to. */
  function Toggled(v: View): (r: View)
    ensures r != v
  {
    if v == DashboardView then MonthlyView else DashboardView
  }

  /** Two presses of the header button bring back the original view. */
  lemma ToggleTwice(v: View)
    ensures Toggled(Toggled(v)) == v
  {
  }

  /** The fill of the pie slice at position `index`. */
  function CellColor(index: nat): (c: string)
    ensures c in Colors
    ensures index < |Colors| ==> c == Colors[index]
  {
    Colors[index % |Colors|]
  }

  /** Slice colours repeat with the length of the palette. */
  lemma CellColorCycles(index: nat)
    ensures CellColor(index + |Colors|) == CellColor(index)
  {
  }

  /** What the banner shows once a handler reports an outcome. */
  function ShowAlert(message: string, kind: AlertKind): Alert
  {
    Alert(true, message, kind)
  }

  class FinancialState {
    const salaries: array<int>
    const expenses: array<seq<Expense>>
    var selectedMonth: nat
    var activeView: View
    var newExpenseName: string
    var newExpenseAmount: NumberInput
    var newSalary: NumberInput
    var alert: Alert

    /** Twelve slots in each list and a selected month among them. */
    ghost predicate Valid()
      reads this
    {
      && salaries.Length == |Months|
      && expenses.Length == |Months|
      && selectedMonth < |Months|
    }

    /** A fresh session: every salary 0, every expense list empty, January
        selected, the dashboard showing, empty forms and no banner. */
    constructor ()
      ensures Valid() && fresh(salaries) && fresh(expenses)
      ensures salaries[..] == seq(|Months|, _ => 0)
      ensures expenses[..] == seq(|Months|, _ => [])
      ensures selectedMonth == 0 && activeView == DashboardView
      ensures newExpenseName == "" && newExpenseAmount == Blank && newSalary == Blank
      ensures alert == NoAlert
    {
      salaries := new int[|Months|](_ => 0);
      expenses := new seq<Expense>[|Months|](_ => []);
      selectedMonth := 0;
      activeView := DashboardView;
      newExpenseName := "";
      newExpenseAmount := Blank;
      newSalary := Blank;
      alert := NoAlert;
    }

    /** Typing in the expense-name field. */
    method SetExpenseName(name: string)
      modifies this`newExpenseName
      ensures newExpenseName == name
    {
      newExpenseName := name;
    }

    /** Typing in the expense-amount field. */
    method SetExpenseAmount(amount: NumberInput)
      modifies this`newExpenseAmount
      ensures newExpenseAmount == amount
    {
      newExpenseAmount := amount;
    }

    /** Typing in the salary field. */
    method SetSalaryInput(amount: NumberInput)
      modifies this`newSalary
      ensures newSalary == amount
    {
      newSalary := amount;
    }

    /** Picking a month in the month selector, which offers the twelve months. */
    method SelectMonth(month: nat)
      requires Valid() && month < |Months|
      modifies this`selectedMonth
      ensures Valid() && selectedMonth == month
    {
      selectedMonth := month;
    }

    /** The header button: dashboard becomes monthly detail and back. */
    method ToggleView()
      modifies this`activeView
      ensures activeView == Toggled(old(activeView))
    {
      activeView := Toggled(activeView);
    }

    /** The "add expense" button. With the name or the amount field empty it
        only raises the error banner. Otherwise it appends the entry at the end
        of the selected month's list, leaves every other month alone, clears
        the form and raises the success banner. Salaries are not in its frame. */
    method AddExpense()
      requires Valid()
      modifies expenses, this`newExpenseName, this`newExpenseAmount, this`alert
      ensures Valid()
      ensures old(newExpenseName) == "" || old(newExpenseAmount) == Blank ==>
                && expenses[..] == old(expenses[..])
                && newExpenseName == old(newExpenseName)
                && newExpenseAmount == old(newExpenseAmount)
                && alert == ShowAlert(FillAllFieldsMessage, Error)
      ensures old(newExpenseName) != "" && old(newExpenseAmount) != Blank ==>
                && expenses[..] == old(expenses[..])[selectedMonth :=
                     old(expenses[selectedMonth]) + [Expense(old(newExpenseName), old(newExpenseAmount).value)]]
                && newExpenseName == ""
                && newExpenseAmount == Blank
                && alert == ShowAlert(ExpenseAddedMessage, Success)
    {
      if newExpenseName == "" || newExpenseAmount == Blank {
        alert := ShowAlert(FillAllFieldsMessage, Error);
        return;
      }
      expenses[selectedMonth] := expenses[selectedMonth] + [Expense(newExpenseName, newExpenseAmount.value)];
      newExpenseName := "";
      newExpenseAmount := Blank;
      alert := ShowAlert(ExpenseAddedMessage, Success);
    }

    /** The "record salary" button. With the field empty it only raises the
        error banner. Otherwise it replaces (does not add to) the selected
        month's salary, leaves every other month alone, clears the field and
        raises the success banner. Expenses are not in its frame. */
    method AddSalary()
      requires Valid()
      modifies salaries, this`newSalary, this`alert
      ensures Valid()
      ensures old(newSalary) == Blank ==>
                && salaries[..] == old(salaries[..])
                && newSalary == old(newSalary)
                && alert == ShowAlert(InvalidValueMessage, Error)
      ensures old(newSalary) != Blank ==>
                && salaries[..] == old(salaries[..])[selectedMonth := old(newSalary).value]
                && newSalary == Blank
                && alert == ShowAlert(SalaryRecordedMessage, Success)
    {
      if newSalary == Blank {
        alert := ShowAlert(InvalidValueMessage, Error);
        return;
      }
      salaries[selectedMonth] := newSalary.value;
      newSalary := Blank;
      alert := ShowAlert(SalaryRecordedMessage, Success);
    }
  }

  /** A fresh session has no salary, no expense, no balance and no category. */
  lemma InitialViewsEmpty()
    ensures FinancialStats(seq(|Months|, _ => 0), seq(|Months|, _ => [])) == Stats(0, 0, 0)
    ensures CategoryNames(AllExpenses(seq(|Months|, _ => []))) == []
  {
    var zeros: seq<int> := seq(|Months|, _ => 0);
    var empties: seq<seq<Expense>> := seq(|Months|, _ => []);
    ZeroSum(zeros);
    NoExpenses(empties);
  }

  lemma {:induction false} ZeroSum(xs: seq<int>)
    requires forall i :: 0 <= i < |xs| ==> xs[i] == 0
    ensures Sum(xs) == 0
  {
    if xs != [] {
      ZeroSum(xs[..|xs| - 1]);
    }
  }

  lemma {:induction false} NoExpenses(months: seq<seq<Expense>>)
    requires forall i :: 0 <= i < |months| ==> months[i] == []
    ensures AllExpenses(months) == [] && ExpensesTotal(months) == 0
  {
    if months != [] {
      NoExpenses(months[..|months| - 1]);
    }
  }

  /** A sample session: a salary of 5000.00 in January, rent of 1200.00 in
      January and of 300.00 in February, then an entry with an empty name. */
  method Scenario()
  {
    var app := new FinancialState();
    ghost var s0, e0 := app.salaries[..], app.expenses[..];
    InitialViewsEmpty();
    NoExpenses(e0);
    assert FinancialStats(s0, e0) == Stats(0, 0, 0);
    assert NameTotal(AllExpenses(e0), "Rent") == 0;

    // a salary of 5000.00 in January
    app.SetSalaryInput(Entered(500000));
    app.AddSalary();
    ghost var s1, e1 := app.salaries[..], app.expenses[..];
    assert s1 == s0[0 := 500000] && e1 == e0;
    SetSalaryStats(s0, e0, 0, 500000);
    assert FinancialStats(s1, e1) == Stats(500000, 0, 500000);

    // rent of 1200.00 in January
    var rent := Expense("Rent", 120000);
    app.SetExpenseName("Rent");
    app.SetExpenseAmount(Entered(120000));
    app.AddExpense();
    ghost var s2, e2 := app.salaries[..], app.expenses[..];
    assert s2 == s1 && e2 == e1[0 := e1[0] + [rent]];
    AddExpenseStats(s1, e1, 0, rent);
    AddExpenseCategory(e1, 0, rent, "Rent");
    assert FinancialStats(s2, e2) == Stats(500000, 120000, 380000);
    assert NameTotal(AllExpenses(e2), "Rent") == 120000;

    // rent of 300.00 in February
    var moreRent := Expense("Rent", 30000);
    app.SelectMonth(1);
    app.SetExpenseName("Rent");
    app.SetExpenseAmount(Entered(30000));
    app.AddExpense();
    ghost var s3, e3 := app.salaries[..], app.expenses[..];
    assert s3 == s2 && e3 == e2[1 := e2[1] + [moreRent]];
    AddExpenseStats(s2, e2, 1, moreRent);
    AddExpenseCategory(e2, 1, moreRent, "Rent");
    assert FinancialStats(s3, e3) == Stats(500000, 150000, 350000);
    assert NameTotal(AllExpenses(e3), "Rent") == 150000;

    // an empty name is refused and changes nothing
    app.SetExpenseName("");
    app.AddExpense();
    assert app.expenses[..] == e3 && app.alert.kind == Error;
  }
}
