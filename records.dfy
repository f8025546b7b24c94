/** The record kinds of the ledger (Transaction, Income, Expense, SavingsGoal), their
    construction guards and default descriptions, and the flat field mappings (`to_dict`)
    that the ledger stores. */
module Records {
  import opened Base
  import opened Numbers

  /** A calendar date, as the ISO-8601 text that `isoformat()` produces. */
  type Date = string

  datatype Frequency = Daily | Weekly | Monthly | Yearly | OneTime

  function FrequencyValue(f: Frequency): string {
    match f
    case Daily => "daily"
    case Weekly => "weekly"
    case Monthly => "monthly"
    case Yearly => "yearly"
    case OneTime => "one-time"
  }

  datatype ExpenseCategory = Business | Personal

  function ExpenseCategoryValue(c: ExpenseCategory): string {
    match c
    case Business => "business"
    case Personal => "personal"
  }

  datatype SavingsCategory = ShortTerm | Emergency | LongTerm | Electronics | Other

  function SavingsCategoryValue(c: SavingsCategory): string {
    match c
    case ShortTerm => "short-term"
    case Emergency => "emergency"
    case LongTerm => "long-term"
    case Electronics => "electronics"
    case Other => "other"
  }

  /** The fields every dated, amount-bearing record has. `id` is the content hash the
      source computes; it is an input here. */
  datatype Transaction = Transaction(id: string, amount: Cents, description: string, date: Date)

  datatype Income = Income(base: Transaction, source: string, frequency: Frequency, isTarget: bool)

  datatype Expense = Expense(base: Transaction, category: ExpenseCategory, subcategory: string, isRecurring: bool)

  // ---------------------------------------------------------------------------
  // Dates supplied or defaulted

  /** `date or date.today()` as written: the parameter `date` hides the imported class,
      so with no date supplied the expression calls `.today()` on None. */
  function DateOrTodayAsWritten(date: Option<Date>): (r: Result<Date, Error>)
    ensures date.None? ==> r == Failure(AttributeError)
    ensures date.Some? ==> r == Success(date.value)
  {
    match date
    case Some(d) => Success(d)
    case None => Failure(AttributeError)
  }

  /** `date or date.today()` as intended: the supplied date, otherwise today's. */
  function DateOrToday(date: Option<Date>, today: Date): (d: Date)
    ensures date.Some? ==> d == date.value
    ensures date.None? ==> d == today
  {
    date.GetOr(today)
  }

  // ---------------------------------------------------------------------------
  // Transaction, Income and Expense construction

  /** `Transaction.__init__` as written. */
  function NewTransactionAsWritten(id: string, amount: Cents, description: string, date: Option<Date>)
    : (r: Result<Transaction, Error>)
    ensures r.Success? <==> amount > 0 && date.Some?
    ensures amount <= 0 ==> r == Failure(ValueError(AmountNotPositive))
    ensures amount > 0 && date.None? ==> r == Failure(AttributeError)
    ensures r.Success? ==> r.value == Transaction(id, amount, description, date.value)
  {
    if amount <= 0 then Failure(ValueError(AmountNotPositive))
    else
      var d :- DateOrTodayAsWritten(date);
      Success(Transaction(id, amount, description, d))
  }

  /** `Transaction.__init__` with the date defaulting to `today`. */
  function NewTransaction(id: string, amount: Cents, description: string, date: Option<Date>, today: Date)
    : (r: Result<Transaction, Error>)
    ensures r.Success? <==> amount > 0
    ensures r.Failure? ==> r.error == ValueError(AmountNotPositive)
    ensures r.Success? ==> r.value == Transaction(id, amount, description, DateOrToday(date, today))
  {
    if amount <= 0 then Failure(ValueError(AmountNotPositive))
    else Success(Transaction(id, amount, description, DateOrToday(date, today)))
  }

  /** Given a date, the constructor as written and as intended agree: only the
      missing date is affected by the shadowing. */
  lemma AsWrittenAgreesGivenDate(id: string, amount: Cents, description: string, date: Date, today: Date)
    ensures NewTransactionAsWritten(id, amount, description, Some(date))
            == NewTransaction(id, amount, description, Some(date), today)
  {
  }

  /** A blank description becomes "Income from {source}". */
  function IncomeDescription(description: string, source: string): string {
    if description == "" then "Income from " + source else description
  }

  /** A blank description becomes "{category} expense: {subcategory}". */
  function ExpenseDescription(description: string, category: ExpenseCategory, subcategory: string): string {
    if description == "" then ExpenseCategoryValue(category) + " expense: " + subcategory else description
  }

  /** `Income.__init__` as written: it passes no date to the base constructor. */
  function NewIncomeAsWritten(id: string, amount: Cents, source: string, frequency: Frequency,
                              description: string, isTarget: bool): (r: Result<Income, Error>)
    ensures r.Failure?
  {
    match NewTransactionAsWritten(id, amount, IncomeDescription(description, source), None)
    case Failure(e) => Failure(e)
    case Success(base) => Success(Income(base, source, frequency, isTarget))
  }

  /** `Expense.__init__` as written: it passes no date to the base constructor. */
  function NewExpenseAsWritten(id: string, amount: Cents, category: ExpenseCategory, subcategory: string,
                               description: string, isRecurring: bool): (r: Result<Expense, Error>)
    ensures r.Failure?
  {
    match NewTransactionAsWritten(id, amount, ExpenseDescription(description, category, subcategory), None)
    case Failure(e) => Failure(e)
    case Success(base) => Success(Expense(base, category, subcategory, isRecurring))
  }

  /** As written, no Income can be constructed: a positive amount reaches the date
      expression and raises AttributeError. */
  lemma IncomeAsWrittenAlwaysRaises(id: string, amount: Cents, source: string, frequency: Frequency,
                                    description: string, isTarget: bool)
    ensures NewIncomeAsWritten(id, amount, source, frequency, description, isTarget)
            == Failure(if amount <= 0 then ValueError(AmountNotPositive) else AttributeError)
  {
  }

  /** As written, no Expense can be constructed either. */
  lemma ExpenseAsWrittenAlwaysRaises(id: string, amount: Cents, category: ExpenseCategory, subcategory: string,
                                     description: string, isRecurring: bool)
    ensures NewExpenseAsWritten(id, amount, category, subcategory, description, isRecurring)
            == Failure(if amount <= 0 then ValueError(AmountNotPositive) else AttributeError)
  {
  }

  /** `Income(amount, source, frequency, description, is_target)`, dated `today`. */
  function NewIncome(id: string, amount: Cents, source: string, frequency: Frequency,
                     description: string, isTarget: bool, today: Date): (r: Result<Income, Error>)
    ensures r.Success? <==> amount > 0
    ensures r.Failure? ==> r.error == ValueError(AmountNotPositive)
    ensures r.Success? ==>
      && r.value.base == Transaction(id, amount, r.value.base.description, today)
      && r.value.source == source && r.value.frequency == frequency && r.value.isTarget == isTarget
    ensures r.Success? && description != "" ==> r.value.base.description == description
    ensures r.Success? && description == "" ==> r.value.base.description == "Income from " + source
  {
    var base :- NewTransaction(id, amount, IncomeDescription(description, source), None, today);
    Success(Income(base, source, frequency, isTarget))
  }

  /** `Expense(amount, category, subcategory, description, is_recurring)`, dated `today`. */
  function NewExpense(id: string, amount: Cents, category: ExpenseCategory, subcategory: string,
                      description: string, isRecurring: bool, today: Date): (r: Result<Expense, Error>)
    ensures r.Success? <==> amount > 0
    ensures r.Failure? ==> r.error == ValueError(AmountNotPositive)
    ensures r.Success? ==>
      && r.value.base == Transaction(id, amount, r.value.base.description, today)
      && r.value.category == category && r.value.subcategory == subcategory
      && r.value.isRecurring == isRecurring
    ensures r.Success? && description != "" ==> r.value.base.description == description
    ensures r.Success? && description == "" ==>
      r.value.base.description == ExpenseCategoryValue(category) + " expense: " + subcategory
  {
    var base :- NewTransaction(id, amount, ExpenseDescription(description, category, subcategory), None, today);
    Success(Expense(base, category, subcategory, isRecurring))
  }

  // ---------------------------------------------------------------------------
  // The flat field mappings held by the ledger

  /** An income as the ledger holds it. `id` and `typeTag` (the "type" key) are absent
      when the entry came from a row. */
  datatype IncomeEntry = IncomeEntry(
    id: Option<string>, typeTag: Option<string>, amount: Cents, description: string, date: Date,
    source: string, frequency: string, isTarget: bool)

  /** An expense as the ledger holds it. `isRecurring` is absent only in imported data;
      readers treat an absent value as false. */
  datatype ExpenseEntry = ExpenseEntry(
    id: Option<string>, typeTag: Option<string>, amount: Cents, description: string, date: Date,
    category: string, subcategory: string, isRecurring: Option<bool>)

  datatype ContributionEntry = ContributionEntry(amount: Cents, date: Date)

  /** A savings goal as the ledger holds it. `id` and `contributions` are absent when the
      entry came from a row. */
  datatype GoalEntry = GoalEntry(
    id: Option<string>, name: string, targetAmount: Cents, currentAmount: Cents, category: string,
    deadline: Option<Date>, priority: int, contributions: Option<seq<ContributionEntry>>)

  /** `Income.to_dict()`. */
  function IncomeToDict(i: Income): (e: IncomeEntry)
    ensures e.id == Some(i.base.id) && e.typeTag == Some("income")
    ensures e.amount == i.base.amount && e.description == i.base.description && e.date == i.base.date
    ensures e.source == i.source && e.frequency == FrequencyValue(i.frequency) && e.isTarget == i.isTarget
  {
    IncomeEntry(Some(i.base.id), Some("income"), i.base.amount, i.base.description, i.base.date,
                i.source, FrequencyValue(i.frequency), i.isTarget)
  }

  /** `Expense.to_dict()`. */
  function ExpenseToDict(x: Expense): (e: ExpenseEntry)
    ensures e.id == Some(x.base.id) && e.typeTag == Some("expense")
    ensures e.amount == x.base.amount && e.description == x.base.description && e.date == x.base.date
    ensures e.category == ExpenseCategoryValue(x.category) && e.subcategory == x.subcategory
    ensures e.isRecurring == Some(x.isRecurring)
  {
    ExpenseEntry(Some(x.base.id), Some("expense"), x.base.amount, x.base.description, x.base.date,
                 ExpenseCategoryValue(x.category), x.subcategory, Some(x.isRecurring))
  }

  /** The mapping loses nothing: distinct incomes give distinct entries. */
  lemma IncomeToDictInjective(a: Income, b: Income)
    requires IncomeToDict(a) == IncomeToDict(b)
    ensures a == b
  {
    assert FrequencyValue(a.frequency) == FrequencyValue(b.frequency);
  }

  /** The mapping loses nothing: distinct expenses give distinct entries. */
  lemma ExpenseToDictInjective(a: Expense, b: Expense)
    requires ExpenseToDict(a) == ExpenseToDict(b)
    ensures a == b
  {
    assert ExpenseCategoryValue(a.category) == ExpenseCategoryValue(b.category);
  }

  // ---------------------------------------------------------------------------
  // Savings goals

  /** The sum of the amounts of a contribution history. */
  function ContributionTotal(cs: seq<ContributionEntry>): Cents
    decreases |cs|
  {
    if |cs| == 0 then 0 else ContributionTotal(cs[..|cs| - 1]) + cs[|cs| - 1].amount
  }

  /** The guards of `SavingsGoal.__init__`, in the order the source applies them. */
  function GoalGuard(targetAmount: Cents, priority: int): (r: Option<Error>)
    ensures r.None? <==> targetAmount > 0 && 1 <= priority <= 5
    ensures targetAmount <= 0 ==> r == Some(ValueError(TargetNotPositive))
    ensures targetAmount > 0 && !(1 <= priority <= 5) ==> r == Some(ValueError(PriorityOutOfRange))
  {
    if targetAmount <= 0 then Some(ValueError(TargetNotPositive))
    else if priority < 1 || priority > 5 then Some(ValueError(PriorityOutOfRange))
    else None
  }

  class SavingsGoal {
    var id: string
    var name: string
    var targetAmount: Cents
    var currentAmount: Cents
    var category: SavingsCategory
    var deadline: Option<Date>
    var priority: int
    var contributions: seq<ContributionEntry>

    /** The saved amount is the sum of the contributions made through this object. */
    predicate Consistent()
      reads this
    {
      currentAmount == ContributionTotal(contributions)
    }

    /** `SavingsGoal(name, target_amount, category, deadline, priority)`. */
    static method Create(id: string, name: string, targetAmount: Cents, category: SavingsCategory,
                         deadline: Option<Date>, priority: int) returns (r: Result<SavingsGoal, Error>)
      ensures GoalGuard(targetAmount, priority).Some? ==> r == Failure(GoalGuard(targetAmount, priority).value)
      ensures GoalGuard(targetAmount, priority).None? ==> r.Success?
      ensures r.Success? ==> fresh(r.value)
      ensures r.Success? ==>
        && r.value.id == id && r.value.name == name && r.value.targetAmount == targetAmount
        && r.value.category == category && r.value.deadline == deadline && r.value.priority == priority
        && r.value.currentAmount == 0 && r.value.contributions == []
      ensures r.Success? ==> r.value.Consistent()
    {
      var failure := GoalGuard(targetAmount, priority);
      if failure.Some? {
        return Failure(failure.value);
      }
      var g := new SavingsGoal;
      g.id, g.name, g.targetAmount, g.currentAmount := id, name, targetAmount, 0;
      g.category, g.deadline, g.priority, g.contributions := category, deadline, priority, [];
      return Success(g);
    }

    /** `add_contribution(amount, date)`, the missing date defaulting to `today`. */
    method AddContribution(amount: Cents, date: Option<Date>, today: Date) returns (r: Outcome<Error>)
      modifies this`currentAmount, this`contributions
      ensures amount <= 0 ==> r == Fail(ValueError(ContributionNotPositive))
      ensures amount <= 0 ==> currentAmount == old(currentAmount) && contributions == old(contributions)
      ensures amount > 0 ==> r == Pass
      ensures amount > 0 ==> currentAmount == old(currentAmount) + amount
      ensures amount > 0 ==>
        contributions == old(contributions) + [ContributionEntry(amount, DateOrToday(date, today))]
      ensures old(Consistent()) ==> Consistent()
    {
      if amount <= 0 {
        return Fail(ValueError(ContributionNotPositive));
      }
      currentAmount := currentAmount + amount;
      contributions := contributions + [ContributionEntry(amount, DateOrToday(date, today))];
      assert contributions[..|contributions| - 1] == old(contributions);
      return Pass;
    }

    /** `add_contribution(amount, date)` as written: the amount is added before the date
        expression raises, so a call without a date leaves the total out of step with
        the history. */
    method AddContributionAsWritten(amount: Cents, date: Option<Date>) returns (r: Outcome<Error>)
      modifies this`currentAmount, this`contributions
      ensures amount <= 0 ==> r == Fail(ValueError(ContributionNotPositive))
      ensures amount <= 0 ==> currentAmount == old(currentAmount) && contributions == old(contributions)
      ensures amount > 0 ==> currentAmount == old(currentAmount) + amount
      ensures amount > 0 && date.Some? ==> r == Pass
      ensures amount > 0 && date.Some? ==> contributions == old(contributions) + [ContributionEntry(amount, date.value)]
      ensures amount > 0 && date.None? ==> r == Fail(AttributeError) && contributions == old(contributions)
      ensures amount > 0 && date.None? && old(Consistent()) ==> !Consistent()
    {
      if amount <= 0 {
        return Fail(ValueError(ContributionNotPositive));
      }
      currentAmount := currentAmount + amount;
      var d := DateOrTodayAsWritten(date);
      if d.Failure? {
        return Fail(d.error);
      }
      contributions := contributions + [ContributionEntry(amount, d.value)];
      return Pass;
    }

    /** `SavingsGoal.to_dict()`. */
    function ToDict(): (e: GoalEntry)
      reads this
      ensures e.id == Some(id) && e.name == name && e.category == SavingsCategoryValue(category)
      ensures e.targetAmount == targetAmount && e.currentAmount == currentAmount
      ensures e.deadline == deadline && e.priority == priority && e.contributions == Some(contributions)
    {
      GoalEntry(Some(id), name, targetAmount, currentAmount, SavingsCategoryValue(category),
                deadline, priority, Some(contributions))
    }
  }

  // ---------------------------------------------------------------------------
  // The ledger's top-level mapping

  /** The value held in `FinanceManager.data`, or one read for import: each of the
      three collection keys and the version key may be absent. */
  datatype Document = Document(
    incomes: Option<seq<IncomeEntry>>, expenses: Option<seq<ExpenseEntry>>,
    savingsGoals: Option<seq<GoalEntry>>, version: Option<string>)
}
