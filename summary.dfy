/** `get_summary`: sums and order-preserving filters over the three collections. */
module Summary {
  import opened Base
  import opened Numbers
  import opened Records

  /** `[x for x in s if p(x)]`. */
  function Filter<T(!new)>(s: seq<T>, p: T -> bool): (r: seq<T>)
    ensures |r| <= |s|
    ensures forall x :: x in r <==> x in s && p(x)
    decreases |s|
  {
    if |s| == 0 then []
    else Filter(s[..|s| - 1], p) + (if p(s[|s| - 1]) then [s[|s| - 1]] else [])
  }

  /** `sum(f(x) for x in s)`. */
  function SumOf<T>(s: seq<T>, f: T -> int): int
    decreases |s|
  {
    if |s| == 0 then 0 else SumOf(s[..|s| - 1], f) + f(s[|s| - 1])
  }

  /** Filtering keeps the order: it distributes over concatenation. */
  lemma {:induction false} FilterAppend<T(!new)>(a: seq<T>, b: seq<T>, p: T -> bool)
    ensures Filter(a + b, p) == Filter(a, p) + Filter(b, p)
    decreases |b|
  {
    if |b| > 0 {
      var b' := b[..|b| - 1];
      assert (a + b)[..|a + b| - 1] == a + b';
      FilterAppend(a, b', p);
    } else {
      assert a + b == a;
    }
  }

  lemma {:induction false} SumOfAppend<T>(a: seq<T>, b: seq<T>, f: T -> int)
    ensures SumOf(a + b, f) == SumOf(a, f) + SumOf(b, f)
    decreases |b|
  {
    if |b| > 0 {
      var b' := b[..|b| - 1];
      assert (a + b)[..|a + b| - 1] == a + b';
      SumOfAppend(a, b', f);
    } else {
      assert a + b == a;
    }
  }

  /** Replacing one element changes the sum by the difference of the two values. */
  lemma {:induction false} SumOfUpdate<T>(s: seq<T>, i: nat, x: T, f: T -> int)
    requires i < |s|
    ensures SumOf(s[i := x], f) == SumOf(s, f) - f(s[i]) + f(x)
    decreases |s|
  {
    var n := |s| - 1;
    if i < n {
      assert s[i := x][..n] == s[..n][i := x];
      SumOfUpdate(s[..n], i, x, f);
    } else {
      assert s[i := x][..n] == s[..n];
    }
  }

  /** What a filter keeps and what its complement keeps add up to the whole sum. */
  lemma {:induction false} SumOfPartition<T(!new)>(s: seq<T>, p: T -> bool, q: T -> bool, f: T -> int)
    requires forall x :: q(x) == !p(x)
    ensures SumOf(Filter(s, p), f) + SumOf(Filter(s, q), f) == SumOf(s, f)
    decreases |s|
  {
    if |s| > 0 {
      var n := |s| - 1;
      SumOfPartition(s[..n], p, q, f);
      SumOfAppend(Filter(s[..n], p), if p(s[n]) then [s[n]] else [], f);
      SumOfAppend(Filter(s[..n], q), if q(s[n]) then [s[n]] else [], f);
    }
  }

  predicate IsTarget(i: IncomeEntry) {
    i.isTarget
  }

  predicate IsRealized(i: IncomeEntry) {
    !i.isTarget
  }

  /** `e.get("is_recurring", False)`. */
  predicate IsRecurring(e: ExpenseEntry) {
    e.isRecurring.GetOr(false)
  }

  function IncomeAmount(i: IncomeEntry): Cents {
    i.amount
  }

  function ExpenseAmount(e: ExpenseEntry): Cents {
    e.amount
  }

  function GoalSaved(g: GoalEntry): Cents {
    g.currentAmount
  }

  datatype Summary = Summary(
    netBalance: Cents, totalIncome: Cents, totalExpenses: Cents, totalSavings: Cents,
    incomeTargets: seq<IncomeEntry>, expenseTargets: seq<ExpenseEntry>, savingsGoals: seq<GoalEntry>)

  /** `get_summary()` over the three collections. */
  function Summarize(incomes: seq<IncomeEntry>, expenses: seq<ExpenseEntry>, goals: seq<GoalEntry>)
    : (s: Summary)
    ensures s.netBalance == s.totalIncome - s.totalExpenses
    ensures s.totalExpenses == SumOf(expenses, ExpenseAmount)
    ensures s.totalSavings == SumOf(goals, GoalSaved)
    ensures s.savingsGoals == goals
    ensures forall x :: x in s.incomeTargets <==> x in incomes && x.isTarget
    ensures forall x :: x in s.expenseTargets <==> x in expenses && x.isRecurring == Some(true)
  {
    var totalIncome := SumOf(Filter(incomes, IsRealized), IncomeAmount);
    var totalExpenses := SumOf(expenses, ExpenseAmount);
    Summary(totalIncome - totalExpenses, totalIncome, totalExpenses, SumOf(goals, GoalSaved),
            Filter(incomes, IsTarget), Filter(expenses, IsRecurring), goals)
  }

  /** Total income counts exactly the incomes that are not targets: with the targets'
      amounts it is the sum of every income. */
  lemma TotalIncomeExcludesTargets(incomes: seq<IncomeEntry>, expenses: seq<ExpenseEntry>, goals: seq<GoalEntry>)
    ensures var s := Summarize(incomes, expenses, goals);
      s.totalIncome + SumOf(s.incomeTargets, IncomeAmount) == SumOf(incomes, IncomeAmount)
  {
    SumOfPartition(incomes, IsTarget, IsRealized, IncomeAmount);
  }

  /** One more income moves the summary by exactly that income. */
  lemma {:induction false} SummaryAfterIncome(incomes: seq<IncomeEntry>, expenses: seq<ExpenseEntry>,
                                              goals: seq<GoalEntry>, i: IncomeEntry)
    ensures var before, after := Summarize(incomes, expenses, goals), Summarize(incomes + [i], expenses, goals);
      && after.totalIncome == before.totalIncome + (if i.isTarget then 0 else i.amount)
      && after.incomeTargets == before.incomeTargets + (if i.isTarget then [i] else [])
      && after.totalExpenses == before.totalExpenses && after.totalSavings == before.totalSavings
      && after.expenseTargets == before.expenseTargets
  {
    assert (incomes + [i])[..|incomes|] == incomes;
    SumOfAppend(Filter(incomes, IsRealized), if i.isTarget then [] else [i], IncomeAmount);
  }

  /** One more expense moves the summary by exactly that expense. */
  lemma {:induction false} SummaryAfterExpense(incomes: seq<IncomeEntry>, expenses: seq<ExpenseEntry>,
                                               goals: seq<GoalEntry>, e: ExpenseEntry)
    ensures var before, after := Summarize(incomes, expenses, goals), Summarize(incomes, expenses + [e], goals);
      && after.totalExpenses == before.totalExpenses + e.amount
      && after.netBalance == before.netBalance - e.amount
      && after.expenseTargets == before.expenseTargets + (if IsRecurring(e) then [e] else [])
      && after.totalIncome == before.totalIncome && after.totalSavings == before.totalSavings
      && after.incomeTargets == before.incomeTargets
  {
    assert (expenses + [e])[..|expenses|] == expenses;
  }

  /** Changing one goal moves the total savings by the change in its saved amount. */
  lemma SummaryAfterGoalChange(incomes: seq<IncomeEntry>, expenses: seq<ExpenseEntry>,
                               goals: seq<GoalEntry>, k: nat, g: GoalEntry)
    requires k < |goals|
    ensures var before, after := Summarize(incomes, expenses, goals), Summarize(incomes, expenses, goals[k := g]);
      && after.totalSavings == before.totalSavings - goals[k].currentAmount + g.currentAmount
      && after.totalIncome == before.totalIncome && after.totalExpenses == before.totalExpenses
      && after.netBalance == before.netBalance
  {
    SumOfUpdate(goals, k, g, GoalSaved);
  }
}
