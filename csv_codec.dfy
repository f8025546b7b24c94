/** The flat six-column table: how `_export_to_csv` writes each entry as a row of
    `Type, Amount, Description, Date, Category, Details` and how `_import_from_csv`
    reads rows back by splitting the composite cells. Rows are already-split
    sequences of cells; the csv module's quoting is not part of this model. */
module CsvCodec {
  import opened Base
  import opened Text
  import opened Numbers
  import opened Records

  type Row = seq<string>

  const Header: Row := ["Type", "Amount", "Description", "Date", "Category", "Details"]

  // ---------------------------------------------------------------------------
  // Writing rows

  function IncomeDetails(frequency: string, isTarget: bool): string {
    "Frequency: " + frequency + ", Target: " + ShowBool(isTarget)
  }

  function ExpenseDetails(isRecurring: bool): string {
    "Recurring: " + ShowBool(isRecurring)
  }

  function GoalDetails(priority: int): string {
    "Priority: " + ShowInt(priority)
  }

  /** `expense.get('is_recurring', False)`. */
  function RecurringFlag(e: ExpenseEntry): bool {
    e.isRecurring.GetOr(false)
  }

  function IncomeRow(e: IncomeEntry): (r: Row)
    ensures |r| == 6 && r[0] == "Income"
    ensures r[1] == ShowAmount(e.amount) && r[2] == e.description && r[3] == e.date && r[4] == e.source
    ensures r[5] == IncomeDetails(e.frequency, e.isTarget)
  {
    ["Income", ShowAmount(e.amount), e.description, e.date, e.source, IncomeDetails(e.frequency, e.isTarget)]
  }

  function ExpenseRow(e: ExpenseEntry): (r: Row)
    ensures |r| == 6 && r[0] == "Expense"
    ensures r[1] == ShowAmount(e.amount) && r[2] == e.description && r[3] == e.date
    ensures r[4] == e.category + "/" + e.subcategory
    ensures r[5] == ExpenseDetails(RecurringFlag(e))
  {
    ["Expense", ShowAmount(e.amount), e.description, e.date, e.category + "/" + e.subcategory,
     ExpenseDetails(RecurringFlag(e))]
  }

  function GoalRow(g: GoalEntry): (r: Row)
    ensures |r| == 6 && r[0] == "Savings Goal"
    ensures r[1] == ShowAmount(g.currentAmount) + "/" + ShowAmount(g.targetAmount)
    ensures r[2] == g.name && r[4] == g.category && r[5] == GoalDetails(g.priority)
    ensures r[3] == if g.deadline.Some? then g.deadline.value else ""
  {
    ["Savings Goal", ShowAmount(g.currentAmount) + "/" + ShowAmount(g.targetAmount), g.name,
     g.deadline.GetOr(""), g.category, GoalDetails(g.priority)]
  }

  /** `[f(x) for x in s]`. */
  function Map<A, B>(s: seq<A>, f: A -> B): (r: seq<B>)
    ensures |r| == |s| && forall k :: 0 <= k < |s| ==> r[k] == f(s[k])
  {
    seq(|s|, k requires 0 <= k < |s| => f(s[k]))
  }

  lemma MapSnoc<A, B>(s: seq<A>, f: A -> B, k: nat)
    requires k < |s|
    ensures Map(s[..k + 1], f) == Map(s[..k], f) + [f(s[k])]
  {
  }

  lemma MapAppend<A, B>(a: seq<A>, b: seq<A>, f: A -> B)
    ensures Map(a + b, f) == Map(a, f) + Map(b, f)
  {
  }

  function IncomeRows(s: seq<IncomeEntry>): seq<Row> {
    Map(s, IncomeRow)
  }

  function ExpenseRows(s: seq<ExpenseEntry>): seq<Row> {
    Map(s, ExpenseRow)
  }

  function GoalRows(s: seq<GoalEntry>): seq<Row> {
    Map(s, GoalRow)
  }

  /** The whole table `_export_to_csv` writes: the header, then every income, every
      expense and every goal, each group in list order. */
  function ExportTable(incomes: seq<IncomeEntry>, expenses: seq<ExpenseEntry>, goals: seq<GoalEntry>)
    : (t: seq<Row>)
    ensures |t| == 1 + |incomes| + |expenses| + |goals| && t[0] == Header
  {
    [Header] + IncomeRows(incomes) + ExpenseRows(expenses) + GoalRows(goals)
  }

  /** Where each entry lands in the exported table, and that every row has six cells:
      stated over any three row writers that write six cells, such as `IncomeRow`,
      `ExpenseRow` and `GoalRow`. */
  lemma TableShape<A, B, C>(xs: seq<A>, ys: seq<B>, zs: seq<C>, f: A -> Row, g: B -> Row, h: C -> Row)
    requires forall x :: |f(x)| == 6
    requires forall y :: |g(y)| == 6
    requires forall z :: |h(z)| == 6
    ensures var t := [Header] + Map(xs, f) + Map(ys, g) + Map(zs, h);
      && |t| == 1 + |xs| + |ys| + |zs|
      && (forall k :: 0 <= k < |xs| ==> t[1 + k] == f(xs[k]))
      && (forall k :: 0 <= k < |ys| ==> t[1 + |xs| + k] == g(ys[k]))
      && (forall k :: 0 <= k < |zs| ==> t[1 + |xs| + |ys| + k] == h(zs[k]))
      && (forall k :: 0 <= k < |t| ==> |t[k]| == 6)
  {
    var ri, re, rg := Map(xs, f), Map(ys, g), Map(zs, h);
    var t := [Header] + ri + re + rg;
    forall k | 0 <= k < |t| ensures |t[k]| == 6 {
      RowWidth(ri, re, rg, k);
    }
  }

  lemma RowWidth(ri: seq<Row>, re: seq<Row>, rg: seq<Row>, k: nat)
    requires forall j :: 0 <= j < |ri| ==> |ri[j]| == 6
    requires forall j :: 0 <= j < |re| ==> |re[j]| == 6
    requires forall j :: 0 <= j < |rg| ==> |rg[j]| == 6
    requires k < 1 + |ri| + |re| + |rg|
    ensures |([Header] + ri + re + rg)[k]| == 6
  {
    var t := [Header] + ri + re + rg;
    if k == 0 {
    } else if k < 1 + |ri| {
      assert t[k] == ri[k - 1];
    } else if k < 1 + |ri| + |re| {
      assert t[k] == re[k - 1 - |ri|];
    } else {
      assert t[k] == rg[k - 1 - |ri| - |re|];
    }
  }

  // ---------------------------------------------------------------------------
  // Reading rows

  /** `row[key]` from csv.DictReader keyed by the standard header: the cell in column
      `k`, or None when the row is shorter. */
  function Cell(row: Row, k: nat): (c: Option<string>)
    ensures c.Some? <==> k < |row|
    ensures c.Some? ==> c.value == row[k]
  {
    if k < |row| then Some(row[k]) else None
  }

  /** `float(cell)`. */
  function FloatOf(cell: Option<string>): (r: Result<Cents, Error>)
    ensures cell.None? ==> r == Failure(TypeError)
    ensures cell.Some? ==> r == match ParseAmount(cell.value)
                               case Some(c) => Success(c)
                               case None => Failure(ValueError(NotAFloat))
  {
    match cell
    case None => Failure(TypeError)
    case Some(s) =>
      match ParseAmount(s)
      case Some(c) => Success(c)
      case None => Failure(ValueError(NotAFloat))
  }

  /** `cell.split(sep)`. */
  function SplitOf(cell: Option<string>, sep: char): (r: Result<seq<string>, Error>)
    ensures cell.None? ==> r == Failure(AttributeError)
    ensures cell.Some? ==> r == Success(Split(cell.value, sep))
  {
    match cell
    case None => Failure(AttributeError)
    case Some(s) => Success(Split(s, sep))
  }

  /** `"True" in cell`. */
  function HasTrue(cell: Option<string>): (r: Result<bool, Error>)
    ensures cell.None? ==> r == Failure(TypeError)
    ensures cell.Some? ==> r == Success(Contains(cell.value, "True"))
  {
    match cell
    case None => Failure(TypeError)
    case Some(s) => Success(Contains(s, "True"))
  }

  /** `parts[k]`. */
  function Pick(parts: seq<string>, k: nat): (r: Result<string, Error>)
    ensures k < |parts| ==> r == Success(parts[k])
    ensures k >= |parts| ==> r == Failure(IndexError)
  {
    if k < |parts| then Success(parts[k]) else Failure(IndexError)
  }

  /** `int(text)`. */
  function IntOf(text: string): (r: Result<int, Error>)
    ensures ParseInt(text).Some? ==> r == Success(ParseInt(text).value)
    ensures ParseInt(text).None? ==> r == Failure(ValueError(NotAnInt))
  {
    match ParseInt(text)
    case Some(i) => Success(i)
    case None => Failure(ValueError(NotAnInt))
  }

  /** An entry read from one row. */
  datatype Decoded = IncomeRec(income: IncomeEntry) | ExpenseRec(expense: ExpenseEntry) | GoalRec(goal: GoalEntry)

  /** The income branch of `_import_from_csv`. */
  function DecodeIncome(row: Row): (r: Result<IncomeEntry, Error>)
    ensures |row| < 2 ==> r == Failure(TypeError)
    ensures |row| >= 2 && ParseAmount(row[1]).None? ==> r == Failure(ValueError(NotAFloat))
    ensures r.Success? ==> |row| >= 6 && ParseAmount(row[1]) == Some(r.value.amount)
    ensures r.Success? ==> r.value.id.None? && r.value.typeTag.None?
    ensures r.Success? ==> r.value.description == row[2] && r.value.date == row[3] && r.value.source == row[4]
    ensures r.Success? ==> r.value.isTarget == Contains(row[5], "True")
    ensures r.Success? ==> |Split(Split(row[5], ',')[0], ':')| >= 2
                           && r.value.frequency == Strip(Split(Split(row[5], ',')[0], ':')[1])
  {
    var amount :- FloatOf(Cell(row, 1));
    var pieces :- SplitOf(Cell(row, 5), ',');
    var labelled :- Pick(Split(pieces[0], ':'), 1);
    // The Details cell is present once it has been split, so `"True" in` cannot raise.
    var isTarget := Contains(row[5], "True");
    Success(IncomeEntry(None, None, amount, row[2], row[3], row[4], Strip(labelled), isTarget))
  }

  /** The expense branch of `_import_from_csv`. */
  function DecodeExpense(row: Row): (r: Result<ExpenseEntry, Error>)
    ensures |row| < 5 ==> r == Failure(AttributeError)
    ensures |row| >= 5 && |Split(row[4], '/')| != 2 ==> r == Failure(ValueError(WrongPartCount))
    ensures r.Success? ==> |row| >= 6 && ParseAmount(row[1]) == Some(r.value.amount)
    ensures r.Success? ==> Split(row[4], '/') == [r.value.category, r.value.subcategory]
    ensures r.Success? ==> r.value.id.None? && r.value.typeTag.None?
    ensures r.Success? ==> r.value.description == row[2] && r.value.date == row[3]
    ensures r.Success? ==> r.value.isRecurring == Some(Contains(row[5], "True"))
  {
    var parts :- SplitOf(Cell(row, 4), '/');
    if |parts| != 2 then Failure(ValueError(WrongPartCount))
    else
      var amount :- FloatOf(Cell(row, 1));
      var isRecurring :- HasTrue(Cell(row, 5));
      Success(ExpenseEntry(None, None, amount, row[2], row[3], parts[0], parts[1], Some(isRecurring)))
  }

  /** `current, target = map(float, amount.split("/"))`: the parts are converted in
      order while the unpacking draws them, so a bad number among the first three is
      reported before a wrong count. */
  function GoalAmounts(parts: seq<string>): (r: Result<(Cents, Cents), Error>)
    requires |parts| >= 1
    ensures r.Success? <==> |parts| == 2 && ParseAmount(parts[0]).Some? && ParseAmount(parts[1]).Some?
    ensures r.Success? ==> r.value == (ParseAmount(parts[0]).value, ParseAmount(parts[1]).value)
    ensures ParseAmount(parts[0]).None? ==> r == Failure(ValueError(NotAFloat))
  {
    var current :- FloatOf(Some(parts[0]));
    if |parts| < 2 then Failure(ValueError(WrongPartCount))
    else
      var target :- FloatOf(Some(parts[1]));
      if |parts| > 2 then
        var _ :- FloatOf(Some(parts[2]));
        Failure(ValueError(WrongPartCount))
      else Success((current, target))
  }

  /** The savings-goal branch of `_import_from_csv`. */
  function DecodeGoal(row: Row): (r: Result<GoalEntry, Error>)
    ensures r.Success? ==> r.value.id.None? && r.value.contributions.None?
    ensures r.Success? ==> |row| >= 6 && |Split(row[1], '/')| == 2
    ensures r.Success? ==> ParseAmount(Split(row[1], '/')[0]) == Some(r.value.currentAmount)
                           && ParseAmount(Split(row[1], '/')[1]) == Some(r.value.targetAmount)
    ensures r.Success? ==> r.value.name == row[2] && r.value.category == row[4]
    ensures r.Success? ==> r.value.deadline == (if row[3] == "" then None else Some(row[3]))
    ensures r.Success? ==> |Split(row[5], ':')| >= 2
                           && ParseInt(Strip(Split(row[5], ':')[1])) == Some(r.value.priority)
  {
    var parts :- SplitOf(Cell(row, 1), '/');
    var amounts :- GoalAmounts(parts);
    var pieces :- SplitOf(Cell(row, 5), ':');
    var digits :- Pick(pieces, 1);
    var priority :- IntOf(Strip(digits));
    var deadline := if row[3] != "" then Some(row[3]) else None;
    Success(GoalEntry(None, row[2], amounts.1, amounts.0, row[4], deadline, priority, None))
  }

  /** One row: an entry, None for a row whose Type is none of the three kinds, or the
      error that aborts the whole import. */
  function DecodeRow(row: Row): (r: Result<Option<Decoded>, Error>)
    ensures Cell(row, 0) !in {Some("Income"), Some("Expense"), Some("Savings Goal")} ==> r == Success(None)
  {
    if Cell(row, 0) == Some("Income") then
      var e :- DecodeIncome(row);
      Success(Some(IncomeRec(e)))
    else if Cell(row, 0) == Some("Expense") then
      var e :- DecodeExpense(row);
      Success(Some(ExpenseRec(e)))
    else if Cell(row, 0) == Some("Savings Goal") then
      var g :- DecodeGoal(row);
      Success(Some(GoalRec(g)))
    else Success(None)
  }

  /** The three lists `_import_from_csv` builds. */
  datatype Collected = Collected(incomes: seq<IncomeEntry>, expenses: seq<ExpenseEntry>, goals: seq<GoalEntry>)

  const NothingCollected := Collected([], [], [])

  /** Appends an entry read from a row to its own list. */
  function Add(acc: Collected, d: Option<Decoded>): Collected {
    match d
    case None => acc
    case Some(IncomeRec(e)) => acc.(incomes := acc.incomes + [e])
    case Some(ExpenseRec(e)) => acc.(expenses := acc.expenses + [e])
    case Some(GoalRec(g)) => acc.(goals := acc.goals + [g])
  }

  function Merge(a: Collected, b: Collected): Collected {
    Collected(a.incomes + b.incomes, a.expenses + b.expenses, a.goals + b.goals)
  }

  /** What `DecodeRow` makes of one row. */
  type RowResult = Result<Option<Decoded>, Error>

  /** Every data row decoded on its own. */
  function DecodeEach(rows: seq<Row>): (rs: seq<RowResult>)
    ensures |rs| == |rows| && forall k :: 0 <= k < |rows| ==> rs[k] == DecodeRow(rows[k])
  {
    Map(rows, DecodeRow)
  }

  /** The decoded rows gathered in order; the first failed row aborts the whole decode. */
  function Collect(rs: seq<RowResult>): Result<Collected, Error>
    decreases |rs|
  {
    if |rs| == 0 then Success(NothingCollected)
    else
      var acc :- Collect(rs[..|rs| - 1]);
      var d :- rs[|rs| - 1];
      Success(Add(acc, d))
  }

  /** The data rows read in order; the first malformed row aborts the whole decode. */
  function DecodeRows(rows: seq<Row>): Result<Collected, Error> {
    Collect(DecodeEach(rows))
  }

  /** The value `_import_from_csv` returns for a file whose first row is the header:
      all three collection keys, and no version key. */
  function DecodeTable(table: seq<Row>): (r: Result<Document, Error>)
    ensures r.Success? ==> r.value.incomes.Some? && r.value.expenses.Some? && r.value.savingsGoals.Some?
    ensures r.Success? ==> r.value.version.None?
    ensures r.Failure? <==> |table| > 1 && DecodeRows(table[1..]).Failure?
  {
    var c :- DecodeRows(if |table| == 0 then [] else table[1..]);
    Success(Document(Some(c.incomes), Some(c.expenses), Some(c.goals), None))
  }

  // ---------------------------------------------------------------------------
  // Round trips

  /** An income read back from its row: the id and the type tag are not in the row. */
  function ReadBackIncome(e: IncomeEntry): IncomeEntry {
    e.(id := None, typeTag := None)
  }

  /** An expense read back from its row: a missing recurring flag becomes false. */
  function ReadBackExpense(e: ExpenseEntry): ExpenseEntry {
    e.(id := None, typeTag := None, isRecurring := Some(RecurringFlag(e)))
  }

  /** A goal read back from its row: the id and the contribution history are not in the row. */
  function ReadBackGoal(g: GoalEntry): GoalEntry {
    g.(id := None, contributions := None)
  }

  /** A frequency text the Details cell carries through unchanged: no separator the
      reader splits on, no capital T (so no "True"), no surrounding blanks. */
  predicate SafeFrequency(f: string) {
    ',' !in f && ':' !in f && 'T' !in f && Trimmed(f)
  }

  /** The five frequency values all qualify. */
  lemma FrequencyValuesAreSafe(f: Frequency)
    ensures SafeFrequency(FrequencyValue(f))
  {
    var s := FrequencyValue(f);
    LowerCaseNotSpace(s[0]);
    LowerCaseNotSpace(s[|s| - 1]);
  }

  lemma LowerCaseNotSpace(c: char)
    requires 'a' <= c <= 'z'
    ensures !IsSpace(c)
  {
  }

  /** Expense categories and subcategories without '/' can be split apart again. */
  predicate SafeExpense(e: ExpenseEntry) {
    '/' !in e.category && '/' !in e.subcategory
  }

  /** A deadline is ISO text, never the empty string. */
  predicate SafeGoal(g: GoalEntry) {
    g.deadline != Some("")
  }

  /** The first comma-separated piece of an income's Details cell is its frequency tag. */
  lemma IncomeDetailsFirstPiece(f: string, isTarget: bool)
    requires ',' !in f
    ensures Split(IncomeDetails(f, isTarget), ',')[0] == "Frequency: " + f
  {
    var first := "Frequency: " + f;
    var rest := " Target: " + ShowBool(isTarget);
    assert IncomeDetails(f, isTarget) == first + [','] + rest;
    SplitAfter(first, rest, ',');
  }

  lemma FrequencyLabelSplit(f: string)
    requires ':' !in f
    ensures Split("Frequency: " + f, ':') == ["Frequency", [' '] + f]
  {
    var tail := [' '] + f;
    assert "Frequency: " + f == "Frequency" + [':'] + tail;
    SplitAfter("Frequency", tail, ':');
    SplitNone(tail, ':');
  }

  lemma StripLeadingBlank(s: string)
    requires Trimmed(s)
    ensures Strip([' '] + s) == s
  {
    StripBlank(s);
    StripTrimmed(s);
  }

  /** The reader gets the frequency back out of the Details cell. */
  lemma IncomeDetailsFrequency(f: string, isTarget: bool)
    requires SafeFrequency(f)
    ensures |Split(Split(IncomeDetails(f, isTarget), ',')[0], ':')| >= 2
    ensures Strip(Split(Split(IncomeDetails(f, isTarget), ',')[0], ':')[1]) == f
  {
    IncomeDetailsFirstPiece(f, isTarget);
    FrequencyLabelSplit(f);
    StripLeadingBlank(f);
  }

  /** A text with no capital T holds no "True". */
  lemma NoTrueWithoutT(s: string)
    requires 'T' !in s
    ensures !Contains(s, "True")
  {
    ContainsSkip(s, "", "True");
    assert s + "" == s;
  }

  lemma NoTrueInTargetFalse()
    ensures !Contains("Target: False", "True")
  {
    var s := "Target: False";
    assert s[..4] != "True" by {
      assert s[1] == 'a' && "True"[1] == 'r';
    }
    NoTrueWithoutT(s[1..]);
  }

  /** The reader gets the target flag back out of the Details cell. */
  lemma IncomeDetailsTarget(f: string, isTarget: bool)
    requires SafeFrequency(f)
    ensures Contains(IncomeDetails(f, isTarget), "True") == isTarget
  {
    var a := "Frequency: " + f + ", ";
    if isTarget {
      assert IncomeDetails(f, isTarget) == (a + "Target: ") + "True";
      ContainsSuffix(a + "Target: ", "True");
    } else {
      assert 'T' !in a;
      assert IncomeDetails(f, isTarget) == a + "Target: False";
      ContainsSkip(a, "Target: False", "True");
      NoTrueInTargetFalse();
    }
  }

  /** The reader gets the recurring flag back out of the Details cell. */
  lemma ExpenseDetailsFlag(b: bool)
    ensures Contains(ExpenseDetails(b), "True") == b
  {
    var tag := "Recurring: ";
    if b {
      assert ExpenseDetails(b) == tag + "True";
      ContainsSuffix(tag, "True");
    } else {
      assert ExpenseDetails(b) == tag + "False";
      assert 'T' !in tag + "False";
      NoTrueWithoutT(tag + "False");
    }
  }

  /** The Amount cell of a goal splits back into its two amounts. */
  lemma GoalAmountCellSplit(current: Cents, target: Cents)
    ensures Split(ShowAmount(current) + "/" + ShowAmount(target), '/') == [ShowAmount(current), ShowAmount(target)]
  {
    var c, t := ShowAmount(current), ShowAmount(target);
    assert '/' !in c && '/' !in t;
    assert c + "/" + t == c + ['/'] + t;
    SplitAfter(c, t, '/');
    SplitNone(t, '/');
  }

  /** The Details cell of a goal gives its priority back. */
  lemma PriorityCellSplit(priority: int)
    ensures |Split(GoalDetails(priority), ':')| >= 2
    ensures Strip(Split(GoalDetails(priority), ':')[1]) == ShowInt(priority)
  {
    var p := ShowInt(priority);
    assert ':' !in p;
    assert GoalDetails(priority) == "Priority" + [':'] + ([' '] + p);
    SplitAfter("Priority", [' '] + p, ':');
    SplitNone([' '] + p, ':');
    StripLeadingBlank(p);
  }

  lemma IncomeRowDecodes(e: IncomeEntry)
    requires SafeFrequency(e.frequency)
    ensures DecodeIncome(IncomeRow(e)) == Success(ReadBackIncome(e))
  {
    var row := IncomeRow(e);
    var details := IncomeDetails(e.frequency, e.isTarget);
    ParseShowAmount(e.amount);
    assert FloatOf(Cell(row, 1)) == Success(e.amount);
    assert SplitOf(Cell(row, 5), ',') == Success(Split(details, ','));
    IncomeDetailsFrequency(e.frequency, e.isTarget);
    var freq := Split(Split(details, ',')[0], ':')[1];
    assert Pick(Split(Split(details, ',')[0], ':'), 1) == Success(freq);
    IncomeDetailsTarget(e.frequency, e.isTarget);
    assert HasTrue(Cell(row, 5)) == Success(e.isTarget);
  }

  /** Reading an income's row gives the income back, without id and type tag. */
  lemma IncomeRowRoundTrip(e: IncomeEntry)
    requires SafeFrequency(e.frequency)
    ensures DecodeRow(IncomeRow(e)) == Success(Some(IncomeRec(ReadBackIncome(e))))
  {
    IncomeRowDecodes(e);
  }

  /** Reading an expense's row gives the expense back, category and subcategory split
      apart again. */
  lemma ExpenseRowRoundTrip(e: ExpenseEntry)
    requires SafeExpense(e)
    ensures DecodeRow(ExpenseRow(e)) == Success(Some(ExpenseRec(ReadBackExpense(e))))
  {
    assert e.category + "/" + e.subcategory == e.category + ['/'] + e.subcategory;
    SplitAfter(e.category, e.subcategory, '/');
    SplitNone(e.subcategory, '/');
    ExpenseDetailsFlag(RecurringFlag(e));
    ParseShowAmount(e.amount);
  }

  /** A subcategory holding '/' yields more than two parts, so its own row cannot be
      read back and aborts the import. */
  lemma ExpenseRowWithSlashFails(e: ExpenseEntry)
    requires '/' !in e.category && '/' in e.subcategory
    ensures DecodeRow(ExpenseRow(e)) == Failure(ValueError(WrongPartCount))
  {
    assert e.category + "/" + e.subcategory == e.category + ['/'] + e.subcategory;
    SplitAfter(e.category, e.subcategory, '/');
  }

  /** The Amount cell of a goal's row reads back as its two amounts. */
  lemma GoalAmountCellReads(g: GoalEntry)
    ensures var c, t := ShowAmount(g.currentAmount), ShowAmount(g.targetAmount);
      && SplitOf(Cell(GoalRow(g), 1), '/') == Success([c, t])
      && GoalAmounts([c, t]) == Success((g.currentAmount, g.targetAmount))
  {
    GoalAmountCellSplit(g.currentAmount, g.targetAmount);
    ParseShowAmount(g.currentAmount);
    ParseShowAmount(g.targetAmount);
  }

  /** The Details cell of a goal's row reads back as its priority. */
  lemma GoalPriorityCellReads(g: GoalEntry)
    ensures var pieces := Split(GoalDetails(g.priority), ':');
      && SplitOf(Cell(GoalRow(g), 5), ':') == Success(pieces)
      && Pick(pieces, 1) == Success(pieces[1])
      && IntOf(Strip(pieces[1])) == Success(g.priority)
  {
    PriorityCellSplit(g.priority);
    ParseShowInt(g.priority);
  }

  lemma GoalRowDecodes(g: GoalEntry)
    requires SafeGoal(g)
    ensures DecodeGoal(GoalRow(g)) == Success(ReadBackGoal(g))
  {
    GoalAmountCellReads(g);
    GoalPriorityCellReads(g);
  }

  /** Reading a goal's row gives the goal back, without id and contribution history. */
  lemma GoalRowRoundTrip(g: GoalEntry)
    requires SafeGoal(g)
    ensures DecodeRow(GoalRow(g)) == Success(Some(GoalRec(ReadBackGoal(g))))
  {
    GoalRowDecodes(g);
  }

  lemma AddMerge(a: Collected, b: Collected, d: Option<Decoded>)
    ensures Add(Merge(a, b), d) == Merge(a, Add(b, d))
  {
    match d
    case None =>
    case Some(IncomeRec(e)) => assert a.incomes + b.incomes + [e] == a.incomes + (b.incomes + [e]);
    case Some(ExpenseRec(e)) => assert a.expenses + b.expenses + [e] == a.expenses + (b.expenses + [e]);
    case Some(GoalRec(g)) => assert a.goals + b.goals + [g] == a.goals + (b.goals + [g]);
  }

  /** Gathering two runs of decoded rows one after the other: the earlier error wins,
      otherwise the lists are concatenated. */
  lemma {:induction false} CollectAppend(a: seq<RowResult>, b: seq<RowResult>)
    ensures Collect(a + b) ==
      match Collect(a)
      case Failure(err) => Failure(err)
      case Success(x) =>
        match Collect(b)
        case Failure(err) => Failure(err)
        case Success(y) => Success(Merge(x, y))
    decreases |b|
  {
    if |b| == 0 {
      assert a + b == a;
      match Collect(a)
      case Failure(_) =>
      case Success(x) => assert Merge(x, NothingCollected) == x;
    } else {
      var n := |b| - 1;
      assert (a + b)[..|a + b| - 1] == a + b[..n];
      assert (a + b)[|a + b| - 1] == b[n];
      CollectAppend(a, b[..n]);
      match Collect(a)
      case Failure(_) =>
      case Success(x) =>
        match Collect(b[..n])
        case Failure(_) =>
        case Success(y) =>
          match b[n]
          case Failure(_) =>
          case Success(d) => AddMerge(x, y, d);
    }
  }

  /** Gathering one more decoded row. */
  lemma CollectSnoc(rs: seq<RowResult>, x: RowResult)
    ensures Collect(rs + [x]) ==
      match Collect(rs)
      case Failure(err) => Failure(err)
      case Success(acc) =>
        match x
        case Failure(err) => Failure(err)
        case Success(d) => Success(Add(acc, d))
  {
    assert (rs + [x])[..|rs|] == rs;
  }

  /** A skipped row in the middle changes nothing. */
  lemma CollectSkip(x: seq<RowResult>, y: seq<RowResult>)
    ensures Collect(x + [Success(None)] + y) == Collect(x + y)
  {
    CollectSnoc(x, Success(None));
    CollectAppend(x + [Success(None)], y);
    CollectAppend(x, y);
  }

  /** A failed row in the middle makes the whole gathering fail, with its own error
      when the rows before it succeeded. */
  lemma CollectFails(x: seq<RowResult>, f: RowResult, y: seq<RowResult>)
    requires f.Failure?
    ensures Collect(x + [f] + y).Failure?
    ensures Collect(x).Success? ==> Collect(x + [f] + y) == Failure(f.error)
  {
    CollectSnoc(x, f);
    CollectAppend(x + [f], y);
  }

  lemma DecodeEachSplit(a: seq<Row>, row: Row, b: seq<Row>)
    ensures DecodeEach(a + [row] + b) == DecodeEach(a) + [DecodeRow(row)] + DecodeEach(b)
  {
    MapAppend(a, [row], DecodeRow);
    MapAppend(a + [row], b, DecodeRow);
  }

  /** Rows of a kind the reader does not know leave the result as it is. */
  lemma UnknownRowSkipped(a: seq<Row>, row: Row, b: seq<Row>)
    requires Cell(row, 0) !in {Some("Income"), Some("Expense"), Some("Savings Goal")}
    ensures DecodeRows(a + [row] + b) == DecodeRows(a + b)
  {
    DecodeEachSplit(a, row, b);
    MapAppend(a, b, DecodeRow);
    CollectSkip(DecodeEach(a), DecodeEach(b));
  }

  /** One malformed data row makes the whole table fail. */
  lemma RowFailureAbortsTable(table: seq<Row>, i: nat)
    requires 1 <= i < |table| && DecodeRow(table[i]).Failure?
    ensures DecodeTable(table).Failure?
  {
    var a, b := table[1..i], table[i + 1..];
    assert table[1..] == a + [table[i]] + b;
    DecodeEachSplit(a, table[i], b);
    CollectFails(DecodeEach(a), DecodeRow(table[i]), DecodeEach(b));
  }

  lemma DecodeEachStep(table: seq<Row>, i: nat)
    requires 1 <= i < |table|
    ensures DecodeEach(table[1..i + 1]) == DecodeEach(table[1..i]) + [DecodeRow(table[i])]
  {
    assert table[1..i + 1] == table[1..i] + [table[i]];
    MapAppend(table[1..i], [table[i]], DecodeRow);
  }

  /** Over any row reader, the first row read as a failure decides the result. */
  lemma MapFirstFailure(rows: seq<Row>, f: Row -> RowResult, i: nat)
    requires i < |rows| && f(rows[i]).Failure?
    requires Collect(Map(rows[..i], f)).Success?
    ensures Collect(Map(rows, f)) == Failure(f(rows[i]).error)
  {
    var a, b := rows[..i], rows[i + 1..];
    assert rows == a + [rows[i]] + b;
    MapAppend(a, [rows[i]], f);
    MapAppend(a + [rows[i]], b, f);
    assert Map([rows[i]], f) == [f(rows[i])];
    assert Map(rows, f) == Map(a, f) + [f(rows[i])] + Map(b, f);
    CollectFails(Map(a, f), f(rows[i]), Map(b, f));
  }

  /** The first malformed data row decides the error of the whole table. */
  lemma FirstFailureDecides(table: seq<Row>, i: nat)
    requires 1 <= i < |table| && DecodeRow(table[i]).Failure?
    requires Collect(DecodeEach(table[1..i])).Success?
    ensures DecodeTable(table) == Failure(DecodeRow(table[i]).error)
  {
    var rows := table[1..];
    assert rows[..i - 1] == table[1..i] && rows[i - 1] == table[i];
    MapFirstFailure(rows, DecodeRow, i - 1);
  }

  /** An Expense row whose Category cell does not split into exactly two parts on '/'
      is refused. */
  lemma ExpenseCategoryMalformed(row: Row)
    requires Cell(row, 0) == Some("Expense") && |row| > 4 && |Split(row[4], '/')| != 2
    ensures DecodeRow(row) == Failure(ValueError(WrongPartCount))
  {
  }

  /** A Savings Goal row whose Amount cell is not two numbers joined by '/' is refused. */
  lemma GoalAmountMalformed(row: Row)
    requires Cell(row, 0) == Some("Savings Goal") && |row| > 1
    requires var parts := Split(row[1], '/');
      |parts| != 2 || ParseAmount(parts[0]).None? || ParseAmount(parts[1]).None?
    ensures DecodeRow(row).Failure?
    ensures DecodeRow(row).error in {ValueError(NotAFloat), ValueError(WrongPartCount)}
  {
  }

  /** An Income or Savings Goal row whose Details cell holds no ':' is refused, with
      IndexError once its Amount cell has been read. */
  lemma DetailsWithoutColon(row: Row)
    requires Cell(row, 0) in {Some("Income"), Some("Savings Goal")} && |row| > 5 && ':' !in row[5]
    ensures DecodeRow(row).Failure?
    ensures Cell(row, 0) == Some("Income") && ParseAmount(row[1]).Some? ==> DecodeRow(row).error == IndexError
  {
    SplitKeepsAbsent(row[5], ',', ':');
    SplitNone(Split(row[5], ',')[0], ':');
    SplitNone(row[5], ':');
  }

  /** A decoded row that is a goal carries neither an id nor a contribution history. */
  predicate AnonymousGoal(x: RowResult) {
    x.Success? && x.value.Some? && x.value.value.GoalRec? ==>
      x.value.value.goal.id.None? && x.value.value.goal.contributions.None?
  }

  lemma DecodeRowAnonymous(row: Row)
    ensures AnonymousGoal(DecodeRow(row))
  {
  }

  lemma {:induction false} CollectAnonymous(rs: seq<RowResult>)
    requires forall k :: 0 <= k < |rs| ==> AnonymousGoal(rs[k])
    requires Collect(rs).Success?
    ensures forall g :: g in Collect(rs).value.goals ==> g.id.None? && g.contributions.None?
    decreases |rs|
  {
    if |rs| > 0 {
      var n := |rs| - 1;
      CollectAnonymous(rs[..n]);
    }
  }

  /** Every goal a CSV import yields lacks an id and a history. */
  lemma DecodedGoalsAnonymous(table: seq<Row>)
    requires DecodeTable(table).Success?
    ensures forall g :: g in DecodeTable(table).value.savingsGoals.value ==> g.id.None? && g.contributions.None?
  {
    if |table| > 0 {
      var rs := DecodeEach(table[1..]);
      forall k | 0 <= k < |rs| ensures AnonymousGoal(rs[k]) {
        DecodeRowAnonymous(table[1..][k]);
      }
      CollectAnonymous(rs);
    }
  }

  /** Decoding two runs of rows one after the other. */
  lemma DecodeRowsAppend(a: seq<Row>, b: seq<Row>)
    ensures DecodeRows(a + b) ==
      match DecodeRows(a)
      case Failure(err) => Failure(err)
      case Success(x) =>
        match DecodeRows(b)
        case Failure(err) => Failure(err)
        case Success(y) => Success(Merge(x, y))
  {
    MapAppend(a, b, DecodeRow);
    CollectAppend(DecodeEach(a), DecodeEach(b));
  }

  /** Rows that each decoded to an income gather into the list of those incomes. */
  lemma {:induction false} CollectIncomes(rs: seq<RowResult>, es: seq<IncomeEntry>)
    requires |rs| == |es|
    requires forall k :: 0 <= k < |rs| ==> rs[k] == Success(Some(IncomeRec(es[k])))
    ensures Collect(rs) == Success(Collected(es, [], []))
    decreases |rs|
  {
    if |rs| > 0 {
      var n := |rs| - 1;
      CollectIncomes(rs[..n], es[..n]);
      assert es == es[..n] + [es[n]];
    }
  }

  lemma {:induction false} CollectExpenses(rs: seq<RowResult>, es: seq<ExpenseEntry>)
    requires |rs| == |es|
    requires forall k :: 0 <= k < |rs| ==> rs[k] == Success(Some(ExpenseRec(es[k])))
    ensures Collect(rs) == Success(Collected([], es, []))
    decreases |rs|
  {
    if |rs| > 0 {
      var n := |rs| - 1;
      CollectExpenses(rs[..n], es[..n]);
      assert es == es[..n] + [es[n]];
    }
  }

  lemma {:induction false} CollectGoals(rs: seq<RowResult>, gs: seq<GoalEntry>)
    requires |rs| == |gs|
    requires forall k :: 0 <= k < |rs| ==> rs[k] == Success(Some(GoalRec(gs[k])))
    ensures Collect(rs) == Success(Collected([], [], gs))
    decreases |rs|
  {
    if |rs| > 0 {
      var n := |rs| - 1;
      CollectGoals(rs[..n], gs[..n]);
      assert gs == gs[..n] + [gs[n]];
    }
  }

  lemma IncomeRowsDecode(s: seq<IncomeEntry>)
    requires forall k :: 0 <= k < |s| ==> SafeFrequency(s[k].frequency)
    ensures DecodeRows(IncomeRows(s)) == Success(Collected(Map(s, ReadBackIncome), [], []))
  {
    var rows, es := IncomeRows(s), Map(s, ReadBackIncome);
    forall k | 0 <= k < |rows| ensures DecodeRow(rows[k]) == Success(Some(IncomeRec(es[k]))) {
      IncomeRowRoundTrip(s[k]);
    }
    CollectIncomes(DecodeEach(rows), es);
  }

  lemma ExpenseRowsDecode(s: seq<ExpenseEntry>)
    requires forall k :: 0 <= k < |s| ==> SafeExpense(s[k])
    ensures DecodeRows(ExpenseRows(s)) == Success(Collected([], Map(s, ReadBackExpense), []))
  {
    var rows, es := ExpenseRows(s), Map(s, ReadBackExpense);
    forall k | 0 <= k < |rows| ensures DecodeRow(rows[k]) == Success(Some(ExpenseRec(es[k]))) {
      ExpenseRowRoundTrip(s[k]);
    }
    CollectExpenses(DecodeEach(rows), es);
  }

  lemma GoalRowsDecode(s: seq<GoalEntry>)
    requires forall k :: 0 <= k < |s| ==> SafeGoal(s[k])
    ensures DecodeRows(GoalRows(s)) == Success(Collected([], [], Map(s, ReadBackGoal)))
  {
    var rows, gs := GoalRows(s), Map(s, ReadBackGoal);
    forall k | 0 <= k < |rows| ensures DecodeRow(rows[k]) == Success(Some(GoalRec(gs[k]))) {
      GoalRowRoundTrip(s[k]);
    }
    CollectGoals(DecodeEach(rows), gs);
  }

  lemma ExportTableRows(incomes: seq<IncomeEntry>, expenses: seq<ExpenseEntry>, goals: seq<GoalEntry>)
    ensures ExportTable(incomes, expenses, goals) ==
      [Header] + (IncomeRows(incomes) + ExpenseRows(expenses) + GoalRows(goals))
  {
    var ri, re, rg := IncomeRows(incomes), ExpenseRows(expenses), GoalRows(goals);
    assert [Header] + ri + re + rg == [Header] + (ri + re + rg);
  }

  lemma CollectThree(a: seq<RowResult>, b: seq<RowResult>, c: seq<RowResult>,
                     incomes: seq<IncomeEntry>, expenses: seq<ExpenseEntry>, goals: seq<GoalEntry>)
    requires Collect(a) == Success(Collected(incomes, [], []))
    requires Collect(b) == Success(Collected([], expenses, []))
    requires Collect(c) == Success(Collected([], [], goals))
    ensures Collect(a + b + c) == Success(Collected(incomes, expenses, goals))
  {
    CollectAppend(a, b);
    assert Merge(Collected(incomes, [], []), Collected([], expenses, [])) == Collected(incomes, expenses, []);
    CollectAppend(a + b, c);
    assert Merge(Collected(incomes, expenses, []), Collected([], [], goals)) == Collected(incomes, expenses, goals);
  }

  /** The three row groups of an export decode to the three lists, in order. */
  lemma DataRowsDecode(incomes: seq<IncomeEntry>, expenses: seq<ExpenseEntry>, goals: seq<GoalEntry>)
    requires forall k :: 0 <= k < |incomes| ==> SafeFrequency(incomes[k].frequency)
    requires forall k :: 0 <= k < |expenses| ==> SafeExpense(expenses[k])
    requires forall k :: 0 <= k < |goals| ==> SafeGoal(goals[k])
    ensures DecodeRows(IncomeRows(incomes) + ExpenseRows(expenses) + GoalRows(goals)) ==
      Success(Collected(Map(incomes, ReadBackIncome), Map(expenses, ReadBackExpense),
                        Map(goals, ReadBackGoal)))
  {
    var ri, re, rg := IncomeRows(incomes), ExpenseRows(expenses), GoalRows(goals);
    IncomeRowsDecode(incomes);
    ExpenseRowsDecode(expenses);
    GoalRowsDecode(goals);
    MapAppend(ri, re, DecodeRow);
    MapAppend(ri + re, rg, DecodeRow);
    CollectThree(DecodeEach(ri), DecodeEach(re), DecodeEach(rg), Map(incomes, ReadBackIncome),
                 Map(expenses, ReadBackExpense), Map(goals, ReadBackGoal));
  }

  /** Exporting a ledger and importing the table gives back every entry, in order and
      in its own list, less what the table cannot hold (ids, type tags, contribution
      histories, the version). */
  lemma TableRoundTrip(incomes: seq<IncomeEntry>, expenses: seq<ExpenseEntry>, goals: seq<GoalEntry>)
    requires forall k :: 0 <= k < |incomes| ==> SafeFrequency(incomes[k].frequency)
    requires forall k :: 0 <= k < |expenses| ==> SafeExpense(expenses[k])
    requires forall k :: 0 <= k < |goals| ==> SafeGoal(goals[k])
    ensures DecodeTable(ExportTable(incomes, expenses, goals)) ==
      Success(Document(Some(Map(incomes, ReadBackIncome)), Some(Map(expenses, ReadBackExpense)),
                       Some(Map(goals, ReadBackGoal)), None))
  {
    var data := IncomeRows(incomes) + ExpenseRows(expenses) + GoalRows(goals);
    ExportTableRows(incomes, expenses, goals);
    assert ([Header] + data)[1..] == data;
    DataRowsDecode(incomes, expenses, goals);
  }
}
