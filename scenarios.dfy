/** Worked cases of the ledger: a target income left out of the total, an expense's
    row cells, and a savings goal carried through contributions, export and re-import. */
module Scenarios {
  import opened Base
  import opened Numbers
  import opened Records
  import opened Summary
  import opened CsvCodec
  import opened Ledger

  /** The amount texts the cases below print. */
  lemma AmountTexts()
    ensures ShowAmount(3000) == "30.0" && ShowAmount(35000) == "350.0" && ShowAmount(100000) == "1000.0"
  {
    assert ShowNat(30) == "30" && ShowNat(350) == "350" && ShowNat(1000) == "1000";
    assert FractionText(0) == "0";
  }

  /** A fresh manager given one realized and one target income: the total counts the
      first only, and the second is the one target. */
  method SummaryOfTwo(job: Income, freelance: Income) returns (s: Summary)
    requires !job.isTarget && freelance.isTarget
    ensures s.totalIncome == job.base.amount && s.netBalance == job.base.amount
    ensures s.incomeTargets == [IncomeToDict(freelance)]
  {
    var m := new FinanceManager();
    m.AddIncome(job);
    m.AddIncome(freelance);
    s := m.GetSummary();
  }

  /** A realized monthly income of 100 and a target one-time income of 50 give a total
      income of 100, with the second listed as a target. */
  method IncomeTargetsScenario(jobId: string, freelanceId: string, today: Date) returns (s: Summary)
    ensures s.totalIncome == 10000 && s.netBalance == 10000
    ensures |s.incomeTargets| == 1 && s.incomeTargets[0].source == "Freelance"
  {
    var job := NewIncome(jobId, 10000, "Job", Monthly, "", false, today);
    var freelance := NewIncome(freelanceId, 5000, "Freelance", OneTime, "", true, today);
    s := SummaryOfTwo(job.value, freelance.value);
  }

  lemma SoftwareRow(e: ExpenseEntry)
    requires e.amount == 3000 && e.category == "business" && e.subcategory == "software"
    requires e.isRecurring == Some(true)
    ensures ExpenseRow(e)[1] == "30.0" && ExpenseRow(e)[4] == "business/software"
    ensures ExpenseRow(e)[5] == "Recurring: True"
  {
    assert "business" + "/" + "software" == "business/software";
    assert ExpenseRow(e)[1] == "30.0" by { AmountTexts(); }
    assert ExpenseRow(e)[5] == "Recurring: True" by {
      assert RecurringFlag(e);
      assert ExpenseDetails(true) == "Recurring: True";
    }
  }

  /** A fresh manager holding one expense exports the header and that expense's row. */
  method ExportOneExpense(x: Expense) returns (table: seq<Row>)
    ensures |table| == 2 && table[0] == Header && table[1] == ExpenseRow(ExpenseToDict(x))
  {
    var m := new FinanceManager();
    m.AddExpense(x);
    table := m.ExportCsv();
    TableShape(m.incomes, m.expenses, m.savingsGoals, IncomeRow, ExpenseRow, GoalRow);
  }

  /** A recurring business expense on software exports as "business/software" and
      "Recurring: True". */
  method ExpenseRowScenario(id: string, today: Date) returns (row: Row)
    ensures |row| == 6 && row[0] == "Expense" && row[1] == "30.0"
    ensures row[4] == "business/software" && row[5] == "Recurring: True"
  {
    var x := NewExpense(id, 3000, Business, "software", "", true, today);
    var table := ExportOneExpense(x.value);
    row := table[1];
    SoftwareRow(ExpenseToDict(x.value));
  }

  /** The Amount cell of a goal that holds 350 of 1000. */
  lemma LaptopRow(g: GoalEntry)
    requires g.currentAmount == 35000 && g.targetAmount == 100000
    ensures GoalRow(g)[1] == "350.0/1000.0"
  {
    AmountTexts();
  }

  /** A laptop goal of 1000 with contributions of 250 and 100 holds 350; its row's
      Amount cell is "350.0/1000.0", and reading the row back gives 350 of 1000 with
      no contribution history. */
  method LaptopScenario(id: string, day1: Date, day2: Date) returns (amountCell: string, readBack: Result<Option<Decoded>, Error>)
    ensures amountCell == "350.0/1000.0"
    ensures readBack.Success? && readBack.value.Some? && readBack.value.value.GoalRec?
    ensures var g := readBack.value.value.goal;
      g.currentAmount == 35000 && g.targetAmount == 100000 && g.name == "Laptop" && g.contributions.None?
  {
    var created := SavingsGoal.Create(id, "Laptop", 100000, Electronics, None, 2);
    var goal := created.value;
    var first := goal.AddContribution(25000, Some(day1), day1);
    var second := goal.AddContribution(10000, None, day2);
    var entry := goal.ToDict();
    LaptopRow(entry);
    GoalRowRoundTrip(entry);
    var row := GoalRow(entry);
    amountCell := row[1];
    readBack := DecodeRow(row);
  }
}
