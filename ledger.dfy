/** `FinanceManager`: the ledger object that holds the three collections and the
    version, adds entries, records contributions, summarises, and exports and imports
    its data. The data file is not modelled: the ledger starts empty, and exported or
    imported documents and tables are values. */
module Ledger {
  import opened Base
  import opened Numbers
  import opened Records
  import opened Summary
  import opened CsvCodec

  const InitialVersion := "0.0.1"

  /** Where the search of `contribute_to_goal` stops: at the first goal whose id
      matches, at the first goal that has no id (reading it raises), or nowhere. */
  datatype Lookup = Found(index: nat) | MissingId(index: nat) | Absent

  /** The position at which a search ends, `|goals|` when it runs off the end. */
  function StopsAt(r: Lookup, n: nat): nat {
    if r.Absent? then n else r.index
  }

  /** The search of `contribute_to_goal`, from position `i` on. */
  function FindGoalFrom(goals: seq<GoalEntry>, goalId: string, i: nat): (r: Lookup)
    requires i <= |goals|
    ensures r.Found? ==> i <= r.index < |goals| && goals[r.index].id == Some(goalId)
    ensures r.MissingId? ==> i <= r.index < |goals| && goals[r.index].id.None?
    ensures forall j :: i <= j < StopsAt(r, |goals|) ==> goals[j].id.Some? && goals[j].id.value != goalId
    decreases |goals| - i
  {
    if i == |goals| then Absent
    else if goals[i].id.None? then MissingId(i)
    else if goals[i].id.value == goalId then Found(i)
    else FindGoalFrom(goals, goalId, i + 1)
  }

  function FindGoal(goals: seq<GoalEntry>, goalId: string): Lookup {
    FindGoalFrom(goals, goalId, 0)
  }

  /** The search has exactly one answer: the first goal that has no id or has the
      wanted one decides it. */
  lemma {:induction false} FindGoalFirst(goals: seq<GoalEntry>, goalId: string, k: nat)
    requires k < |goals| && (goals[k].id.None? || goals[k].id == Some(goalId))
    requires forall j :: 0 <= j < k ==> goals[j].id.Some? && goals[j].id.value != goalId
    ensures FindGoal(goals, goalId) == if goals[k].id.None? then MissingId(k) else Found(k)
  {
    var r := FindGoal(goals, goalId);
    var s := StopsAt(r, |goals|);
    assert s <= k;
    assert s == k;
  }

  /** After a CSV import no goal has an id, so the first goal examined stops the
      search of `contribute_to_goal` with KeyError, whatever id is asked for. */
  lemma CsvGoalsRefuseContributions(table: seq<Row>, goalId: string)
    requires DecodeTable(table).Success? && |DecodeTable(table).value.savingsGoals.value| > 0
    ensures FindGoal(DecodeTable(table).value.savingsGoals.value, goalId) == MissingId(0)
  {
    var goals := DecodeTable(table).value.savingsGoals.value;
    DecodedGoalsAnonymous(table);
    assert goals[0] in goals;
    FindGoalFirst(goals, goalId, 0);
  }

  /** A goal entry after `contribute_to_goal` has updated it in place: the amount is
      added, and the contribution is appended to the history when there is one. */
  function Contributed(g: GoalEntry, amount: Cents, today: Date): (h: GoalEntry)
    ensures h.currentAmount == g.currentAmount + amount
    ensures h.contributions.Some? <==> g.contributions.Some?
    ensures g.contributions.Some? ==> h.contributions.value == g.contributions.value + [ContributionEntry(amount, today)]
    ensures h.(currentAmount := g.currentAmount, contributions := g.contributions) == g
  {
    var history := match g.contributions
                   case Some(cs) => Some(cs + [ContributionEntry(amount, today)])
                   case None => None;
    g.(currentAmount := g.currentAmount + amount, contributions := history)
  }

  /** A goal whose saved amount is the sum of its history keeps that property. */
  lemma ContributedKeepsHistory(g: GoalEntry, amount: Cents, today: Date)
    requires g.contributions.Some? && g.currentAmount == ContributionTotal(g.contributions.value)
    ensures var h := Contributed(g, amount, today);
      h.currentAmount == ContributionTotal(h.contributions.value)
  {
    var cs := g.contributions.value + [ContributionEntry(amount, today)];
    assert cs[..|cs| - 1] == g.contributions.value;
  }

  /** A contribution to one goal raises the total savings by exactly its amount and
      leaves the income and expense figures alone. */
  lemma ContributionRaisesSavings(incomes: seq<IncomeEntry>, expenses: seq<ExpenseEntry>,
                                  goals: seq<GoalEntry>, k: nat, amount: Cents, today: Date)
    requires k < |goals|
    ensures var before := Summarize(incomes, expenses, goals);
      var after := Summarize(incomes, expenses, goals[k := Contributed(goals[k], amount, today)]);
      && after.totalSavings == before.totalSavings + amount
      && after.totalIncome == before.totalIncome && after.totalExpenses == before.totalExpenses
      && after.netBalance == before.netBalance
  {
    SummaryAfterGoalChange(incomes, expenses, goals, k, Contributed(goals[k], amount, today));
  }

  /** Appending is associative; the export loops extend their rows one at a time. */
  lemma AppendAssoc<T>(a: seq<T>, b: seq<T>, c: seq<T>)
    ensures (a + b) + c == a + (b + c)
  {
  }

  /** What `export_data` produces for a format it knows. */
  datatype Exported = JsonExport(doc: Document) | CsvExport(table: seq<Row>)

  class FinanceManager {
    var incomes: seq<IncomeEntry>
    var expenses: seq<ExpenseEntry>
    var savingsGoals: seq<GoalEntry>
    var version: Option<string>

    /** A ledger with no data file: empty collections at the initial version. */
    constructor ()
      ensures incomes == [] && expenses == [] && savingsGoals == [] && version == Some(InitialVersion)
    {
      incomes, expenses, savingsGoals, version := [], [], [], Some(InitialVersion);
    }

    /** `self.data` as a document. */
    function Data(): (d: Document)
      reads this
      ensures d.incomes == Some(incomes) && d.expenses == Some(expenses)
      ensures d.savingsGoals == Some(savingsGoals) && d.version == version
    {
      Document(Some(incomes), Some(expenses), Some(savingsGoals), version)
    }

    /** `get_summary()`: the figures of the current lists, where total income leaves
        out exactly the target incomes. */
    function GetSummary(): (s: Summary)
      reads this
      ensures s.netBalance == s.totalIncome - s.totalExpenses
      ensures s.totalIncome + SumOf(s.incomeTargets, IncomeAmount) == SumOf(incomes, IncomeAmount)
      ensures s.totalExpenses == SumOf(expenses, ExpenseAmount) && s.totalSavings == SumOf(savingsGoals, GoalSaved)
      ensures s.savingsGoals == savingsGoals
      ensures s == Summarize(incomes, expenses, savingsGoals)
    {
      TotalIncomeExcludesTargets(incomes, expenses, savingsGoals);
      Summarize(incomes, expenses, savingsGoals)
    }

    /** `add_income(income)`: the income's mapping goes to the end of the list. */
    method AddIncome(i: Income)
      modifies this
      ensures incomes == old(incomes) + [IncomeToDict(i)]
      ensures expenses == old(expenses) && savingsGoals == old(savingsGoals) && version == old(version)
      ensures GetSummary().totalIncome == old(GetSummary()).totalIncome + (if i.isTarget then 0 else i.base.amount)
      ensures GetSummary().incomeTargets == old(GetSummary()).incomeTargets + (if i.isTarget then [IncomeToDict(i)] else [])
    {
      SummaryAfterIncome(incomes, expenses, savingsGoals, IncomeToDict(i));
      incomes := incomes + [IncomeToDict(i)];
    }

    /** `add_expense(expense)`: the expense's mapping goes to the end of the list. */
    method AddExpense(x: Expense)
      modifies this
      ensures expenses == old(expenses) + [ExpenseToDict(x)]
      ensures incomes == old(incomes) && savingsGoals == old(savingsGoals) && version == old(version)
      ensures GetSummary().totalExpenses == old(GetSummary()).totalExpenses + x.base.amount
      ensures GetSummary().netBalance == old(GetSummary()).netBalance - x.base.amount
    {
      SummaryAfterExpense(incomes, expenses, savingsGoals, ExpenseToDict(x));
      expenses := expenses + [ExpenseToDict(x)];
    }

    /** `add_savings_goal(goal)`: the goal's mapping goes to the end of the list. */
    method AddSavingsGoal(goal: SavingsGoal)
      modifies this
      ensures savingsGoals == old(savingsGoals) + [goal.ToDict()]
      ensures incomes == old(incomes) && expenses == old(expenses) && version == old(version)
      ensures GetSummary().totalSavings == old(GetSummary()).totalSavings + goal.currentAmount
    {
      var e := goal.ToDict();
      SumOfAppend(savingsGoals, [e], GoalSaved);
      savingsGoals := savingsGoals + [e];
    }

    /** `contribute_to_goal(goal_id, amount)`, the contribution dated `today`. The
        amount is not checked. The first goal with the wanted id is updated in place;
        reading a goal without an id, or appending to a goal without a history, raises
        KeyError, the latter after the amount has already been added. */
    method ContributeToGoal(goalId: string, amount: Cents, today: Date) returns (r: Result<bool, Error>)
      modifies this
      ensures incomes == old(incomes) && expenses == old(expenses) && version == old(version)
      ensures FindGoal(old(savingsGoals), goalId).Absent? ==>
        r == Success(false) && savingsGoals == old(savingsGoals)
      ensures FindGoal(old(savingsGoals), goalId).MissingId? ==>
        r == Failure(KeyError("id")) && savingsGoals == old(savingsGoals)
      ensures FindGoal(old(savingsGoals), goalId).Found? ==>
        var k := FindGoal(old(savingsGoals), goalId).index;
        && savingsGoals == old(savingsGoals)[k := Contributed(old(savingsGoals)[k], amount, today)]
        && r == if old(savingsGoals)[k].contributions.Some? then Success(true) else Failure(KeyError("contributions"))
    {
      var i := 0;
      while i < |savingsGoals|
        invariant i <= |savingsGoals|
        invariant FindGoal(savingsGoals, goalId) == FindGoalFrom(savingsGoals, goalId, i)
        decreases |savingsGoals| - i
      {
        var g := savingsGoals[i];
        if g.id.None? {
          return Failure(KeyError("id"));
        }
        if g.id.value == goalId {
          savingsGoals := savingsGoals[i := Contributed(g, amount, today)];
          if g.contributions.None? {
            return Failure(KeyError("contributions"));
          }
          return Success(true);
        }
        i := i + 1;
      }
      return Success(false);
    }

    /** `_export_to_csv`: the header, then one row per income, expense and goal. */
    method ExportCsv() returns (rows: seq<Row>)
      ensures rows == ExportTable(incomes, expenses, savingsGoals)
    {
      var ins, exs, gs := incomes, expenses, savingsGoals;
      rows := [Header];
      var k := 0;
      while k < |ins|
        invariant k <= |ins|
        invariant rows == [Header] + IncomeRows(ins[..k])
      {
        MapSnoc(ins, IncomeRow, k);
        AppendAssoc([Header], IncomeRows(ins[..k]), [IncomeRow(ins[k])]);
        rows := rows + [IncomeRow(ins[k])];
        k := k + 1;
      }
      assert ins[..k] == ins;
      var ri := rows;
      k := 0;
      while k < |exs|
        invariant k <= |exs|
        invariant rows == ri + ExpenseRows(exs[..k])
      {
        MapSnoc(exs, ExpenseRow, k);
        AppendAssoc(ri, ExpenseRows(exs[..k]), [ExpenseRow(exs[k])]);
        rows := rows + [ExpenseRow(exs[k])];
        k := k + 1;
      }
      assert exs[..k] == exs;
      var re := rows;
      k := 0;
      while k < |gs|
        invariant k <= |gs|
        invariant rows == re + GoalRows(gs[..k])
      {
        MapSnoc(gs, GoalRow, k);
        AppendAssoc(re, GoalRows(gs[..k]), [GoalRow(gs[k])]);
        rows := rows + [GoalRow(gs[k])];
        k := k + 1;
      }
      assert gs[..k] == gs;
    }

    /** `export_data(format)`: the whole document for "json", the table for "csv". */
    method ExportData(format: string) returns (r: Result<Exported, Error>)
      ensures format == "json" ==> r == Success(JsonExport(Data()))
      ensures format == "csv" ==> r == Success(CsvExport(ExportTable(incomes, expenses, savingsGoals)))
      ensures format != "json" && format != "csv" ==> r == Failure(ValueError(UnsupportedExport))
    {
      if format == "json" {
        return Success(JsonExport(Data()));
      } else if format == "csv" {
        var rows := ExportCsv();
        return Success(CsvExport(rows));
      }
      return Failure(ValueError(UnsupportedExport));
    }

    /** `import_data(file_path)`. The file's contents are given both as the document
        its JSON text holds and as its CSV rows; the suffix picks the reading. A
        document without one of the three collections is refused and the ledger is
        left as it was; otherwise it replaces the whole ledger, version included. */
    method ImportData(suffix: string, json: Document, table: seq<Row>) returns (r: Outcome<Error>)
      modifies this
      ensures suffix != ".json" && suffix != ".csv" ==> r == Fail(ValueError(UnsupportedImport))
      ensures suffix == ".csv" && DecodeTable(table).Failure? ==> r == Fail(DecodeTable(table).error)
      ensures r.Fail? ==> incomes == old(incomes) && expenses == old(expenses)
                          && savingsGoals == old(savingsGoals) && version == old(version)
      ensures suffix == ".json" ==> r == (if HasCollections(json) then Pass else Fail(ValueError(InvalidDataFormat)))
      ensures suffix == ".csv" && DecodeTable(table).Success? ==> r == Pass
      ensures suffix == ".json" && r.Pass? ==> Data() == json
      ensures suffix == ".csv" && r.Pass? ==> Data() == DecodeTable(table).value
    {
      var doc: Document;
      if suffix == ".json" {
        doc := json;
      } else if suffix == ".csv" {
        var read := ImportFromCsv(table);
        if read.Failure? {
          return Fail(read.error);
        }
        doc := read.value;
      } else {
        return Fail(ValueError(UnsupportedImport));
      }
      if !HasCollections(doc) {
        return Fail(ValueError(InvalidDataFormat));
      }
      incomes, expenses, savingsGoals, version := doc.incomes.value, doc.expenses.value, doc.savingsGoals.value, doc.version;
      return Pass;
    }
  }

  /** The validation of `import_data`: all three collection keys are present. */
  predicate HasCollections(d: Document) {
    d.incomes.Some? && d.expenses.Some? && d.savingsGoals.Some?
  }

  /** The documents the ledger produces itself pass that validation: its own JSON
      export, and every successful CSV import. */
  lemma OwnDocumentsPassKeyCheck(m: FinanceManager, table: seq<Row>)
    ensures HasCollections(m.Data())
    ensures DecodeTable(table).Success? ==> HasCollections(DecodeTable(table).value)
  {
  }

  /** `_import_from_csv`: the first row is the header; each later row is decoded in
      turn and the first malformed one aborts the import. */
  method ImportFromCsv(table: seq<Row>) returns (r: Result<Document, Error>)
    ensures r == DecodeTable(table)
  {
    if |table| == 0 {
      return Success(Document(Some([]), Some([]), Some([]), None));
    }
    var acc := NothingCollected;
    var i := 1;
    while i < |table|
      invariant 1 <= i <= |table|
      invariant Collect(DecodeEach(table[1..i])) == Success(acc)
    {
      var d := DecodeRow(table[i]);
      DecodeEachStep(table, i);
      CollectSnoc(DecodeEach(table[1..i]), d);
      if d.Failure? {
        FirstFailureDecides(table, i);
        return Failure(d.error);
      }
      acc := Add(acc, d.value);
      i := i + 1;
    }
    assert table[1..i] == table[1..];
    return Success(Document(Some(acc.incomes), Some(acc.expenses), Some(acc.goals), None));
  }
}
