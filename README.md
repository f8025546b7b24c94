# Penny ledger engine, modelled in Dafny

This project models the ledger engine of Penny, a personal budget tool (`penny.py`).
The engine covers four things:

- the record kinds the ledger keeps: incomes, expenses and savings goals;
- the in-memory ledger `FinanceManager`, with its three lists and a version tag;
- the six-column CSV codec, which flattens each record into a row
  `Type, Amount, Description, Date, Category, Details` and reads rows back by splitting cells;
- the key check that `import_data` applies before it replaces the ledger.

Amounts are integers in cents (`Numbers.Cents`). Python's `str()` of an amount becomes
`Numbers.ShowAmount`, and `float()` becomes `Numbers.ParseAmount`. Python exceptions are
the `Base.Error` datatype, raised in the order the source evaluates its expressions.
Record ids, today's date and file contents are parameters.

Modules, one file each:

- `base.dfy`: `Option`, `Result`, `Outcome` and the exceptions.
- `text.dfy`: `str.split`, `str.join`, `str.strip` and the `in` substring test.
- `numbers.dfy`: decimal text for ints, bools and amounts, with their parsers.
- `records.dfy`: the record constructors, `to_dict`, and the `SavingsGoal` class.
- `summary.dfy`: `get_summary`.
- `csv_codec.dfy`: the row writers, the row readers and the whole-table decode.
- `ledger.dfy`: the `FinanceManager` class and `_import_from_csv`.
- `scenarios.dfy`: worked cases that combine the pieces.

Behaviours of `penny.py` that the model keeps as written:

- An Expense's Category cell is split on every `/` and must give exactly two parts. A
  subcategory holding `/` therefore cannot be read back (`CsvCodec.ExpenseRowWithSlashFails`).
- Rows whose Type is not `Income`, `Expense` or `Savings Goal` are skipped silently. They are
  not refused (`CsvCodec.UnknownRowSkipped`).
- Goals read from CSV have no `contributions` key and no `id` key at all. They do not get an
  empty history or a fresh id. As a consequence, `contribute_to_goal` after a CSV import raises
  KeyError on the first goal it examines (`Ledger.CsvGoalsRefuseContributions`).
- `contribute_to_goal` raises KeyError when an examined goal has no `id`, or when the matching
  goal has no `contributions`. The second error comes after the amount has been added.
- A row of a known Type that is shorter than the header reads its missing cells as `None`.
  When the cells it has read well, the first missing cell that `float`, `in` or `split` is applied to raises TypeError
  (under `float` or `in`) or AttributeError (under `split`). A short row of an unknown Type is
  still skipped, and a present cell that is malformed raises its own ValueError or IndexError
  first (`CsvCodec.DecodeIncome`, `CsvCodec.DecodeExpense`). Extra cells are ignored.

## Model

| member | source | states |
|---|---|---|
| Records.DateOrTodayAsWritten | penny.py:35 | as written, a missing date raises AttributeError, because the parameter `date` hides the `date` class; a supplied date is returned |
| Records.DateOrToday | penny.py:35 | as intended: the supplied date, or today's date when none is given |
| Records.NewTransactionAsWritten | penny.py:30-36 | as written: succeeds exactly when amount > 0 and a date is supplied; a non-positive amount raises ValueError first, a missing date then raises AttributeError; a success keeps the supplied date |
| Records.AsWrittenAgreesGivenDate | penny.py:35 | when a date is supplied, the constructor as written and as intended give the same result |
| Records.NewTransaction | penny.py:30-36 | succeeds exactly when amount > 0, otherwise raises ValueError "Amount must be positive"; the record keeps id, amount and description, dated as given or today |
| Records.IncomeAsWrittenAlwaysRaises | penny.py:47-49 | as written, every Income construction raises, through the date default at line 35: ValueError for a non-positive amount, AttributeError otherwise |
| Records.ExpenseAsWrittenAlwaysRaises | penny.py:65-67 | as written, every Expense construction raises, through the date default at line 35: ValueError for a non-positive amount, AttributeError otherwise |
| Records.NewIncomeAsWritten | penny.py:47-49 | as written, `Income.__init__` never returns an income, because it passes no date to the base constructor |
| Records.NewIncome | penny.py:47-52 | succeeds exactly when amount > 0, with that ValueError otherwise; a blank description becomes "Income from {source}" and a non-blank one is kept; source, frequency and target flag are kept; dated today |
| Records.NewExpenseAsWritten | penny.py:65-67 | as written, `Expense.__init__` never returns an expense, for the same reason |
| Records.NewExpense | penny.py:65-70 | succeeds exactly when amount > 0; a blank description becomes "{category} expense: {subcategory}" and a non-blank one is kept; category, subcategory and recurring flag are kept |
| Records.IncomeToDict | penny.py:54-62 | every field goes to its own key, the frequency as its enum value, with the type tag "income" |
| Records.IncomeToDictInjective | penny.py:54-62 | the income mapping loses nothing: equal mappings come from equal incomes |
| Records.ExpenseToDict | penny.py:72-80 | every field goes to its own key, the category as its enum value, with the type tag "expense" |
| Records.ExpenseToDictInjective | penny.py:72-80 | the expense mapping loses nothing: equal mappings come from equal expenses |
| Records.GoalGuard | penny.py:85-88 | passes exactly when target > 0 and 1 <= priority <= 5; the target check is made first |
| Records.SavingsGoal.Create | penny.py:83-97 | raises the first guard's error; otherwise a fresh goal with the given fields, nothing saved and an empty history, consistent |
| Records.SavingsGoal.AddContribution | penny.py:99-106 | a non-positive amount raises ValueError and changes nothing; otherwise the saved amount grows by the amount and exactly one entry (amount, date or today) is appended; keeps "saved = sum of history" |
| Records.SavingsGoal.AddContributionAsWritten | penny.py:99-106 | as written, with no date the amount is added and then AttributeError is raised with the history unchanged, so "saved = sum of history" breaks |
| Records.SavingsGoal.ToDict | penny.py:108-118 | every field goes to its own key, the category as its enum value, and the history is included |
| Summary.Filter | penny.py:177-178 | keeps exactly the elements that satisfy the test, and never more elements than the input |
| Summary.FilterAppend | penny.py:177-178 | filtering keeps list order: it distributes over concatenation |
| Summary.SumOfPartition | penny.py:173-177 | the sum over the kept elements plus the sum over the rest is the sum over the whole list |
| Summary.Summarize | penny.py:172-188 | net balance = income - expenses; expenses = sum of all expense amounts; savings = sum of saved amounts; targets are the target incomes and recurring expenses; goals are passed through |
| Summary.TotalIncomeExcludesTargets | penny.py:173-177 | total income plus the target incomes' amounts is the sum of all incomes |
| Summary.SummaryAfterIncome | penny.py:173-177 | one more income raises total income by its amount unless it is a target, in which case it is appended to the targets; the other figures stay the same |
| Summary.SummaryAfterExpense | penny.py:174-178 | one more expense raises total expenses and lowers the net balance by its amount, and is appended to the expense targets exactly when recurring |
| Summary.SummaryAfterGoalChange | penny.py:175 | replacing one goal moves total savings by the change in its saved amount and nothing else |
| Text.Split | penny.py:267 | `str.split`: at least one part, no part holds the separator, and joining the parts with the separator gives the text back |
| Text.SplitJoin | penny.py:271 | the other direction: splitting the join of separator-free parts gives those parts back |
| Text.SplitAfter | penny.py:281 | a separator-free text before the first separator is the first part, and the rest splits on its own |
| Text.LeftStrip | penny.py:267 | removes exactly the leading blanks: everything removed is blank, and the result does not start with one |
| Text.RightStrip | penny.py:267 | removes exactly the trailing blanks: everything removed is blank, and the result does not end with one |
| Text.Strip | penny.py:288 | `str.strip`: the result has no surrounding blanks |
| Text.StripRemovesSurroundingSpace | penny.py:288 | the text is its leading blanks, then the stripped text, then its trailing blanks; with the row above this fixes the result of `str.strip` |
| Text.StripTrimmed | penny.py:288 | a text without surrounding blanks is left unchanged |
| Numbers.ShowAmount | penny.py:210 | `str()` of an amount: a non-empty text of digits, a point and possibly a leading '-'; ParseShowAmount reads it back |
| Numbers.ParseAmount | penny.py:263 | `float()` of a text: only a non-empty text reads as an amount; ParseShowAmount gives the round trip |
| Numbers.ParseShowInt | penny.py:288 | `int(str(i)) == i` for every int |
| Numbers.ParseShowAmount | penny.py:263 | `float(str(x)) == x` for every amount with at most two decimals, negative ones included |
| CsvCodec.IncomeRow | penny.py:207-215 | six cells: "Income", amount text, description, date, source, "Frequency: f, Target: b" |
| CsvCodec.ExpenseRow | penny.py:217-225 | six cells: "Expense", amount text, description, date, "category/subcategory", "Recurring: b", where a missing flag prints False |
| CsvCodec.GoalRow | penny.py:227-235 | six cells: "Savings Goal", "current/target", name, the deadline or "" when none, category, "Priority: n" |
| CsvCodec.TableShape | penny.py:202-235 | the header first, then every income, every expense, every goal, each group in list order, and every row has six cells |
| CsvCodec.ExportTable | penny.py:202-235 | the table has one row per entry plus the header, which comes first |
| CsvCodec.DecodeIncome | penny.py:261-269 | a short row fails at the Amount cell with TypeError, a bad amount with ValueError; a decoded income has no id or type tag, its amount read from the Amount cell, the Description, Date and Category cells as they are, the frequency as the stripped text between the first ':' and the first ',' of Details, and the target flag exactly when "True" occurs in Details |
| CsvCodec.DecodeExpense | penny.py:270-279 | the Category cell is split first: a missing one raises AttributeError, one not in two parts ValueError; a decoded expense has the two parts as category and subcategory, the amount read from the Amount cell, and the recurring flag exactly when "True" occurs in Details |
| CsvCodec.GoalAmounts | penny.py:281 | `map(float, ...)` unpacked into two: succeeds exactly when there are two parts and both read as amounts, giving them in order; a first part that is no number raises ValueError |
| CsvCodec.DecodeGoal | penny.py:280-289 | a decoded goal has no id and no history; its Amount cell splits on '/' into exactly two parts, read as the current and the target amount; name and category are the Description and Category cells; an empty Date cell gives no deadline and any other the cell itself; the priority is the int of the stripped text after the first ':' of Details |
| CsvCodec.DecodeRow | penny.py:260-289 | a row whose Type is none of the three kinds is skipped |
| CsvCodec.DecodeTable | penny.py:254-291 | a successful decode has all three lists and no version; it fails exactly when there are data rows and reading them fails |
| CsvCodec.IncomeDetailsFrequency | penny.py:267 | the frequency comes back out of the Details cell when it holds no ',', ':' or 'T' and no surrounding blanks |
| CsvCodec.FrequencyValuesAreSafe | penny.py:11-16 | all five frequency values qualify for the reading at lines 267-268 |
| CsvCodec.IncomeDetailsTarget | penny.py:268 | "True" occurs in the income Details cell exactly when the income is a target |
| CsvCodec.ExpenseDetailsFlag | penny.py:278 | "True" occurs in the expense Details cell exactly when the expense is recurring |
| CsvCodec.GoalAmountCellSplit | penny.py:281 | the goal Amount cell splits on '/' into exactly the two amount texts |
| CsvCodec.PriorityCellSplit | penny.py:288 | the goal Details cell splits on ':' and the stripped second part is the priority's text |
| CsvCodec.IncomeRowRoundTrip | penny.py:261-269 | reading an income's row, as lines 207-215 write it, gives the income back, less id and type tag |
| CsvCodec.ExpenseRowRoundTrip | penny.py:270-279 | reading an expense's row, as lines 217-225 write it, gives the expense back when category and subcategory hold no '/'; a missing recurring flag comes back as false |
| CsvCodec.ExpenseRowWithSlashFails | penny.py:271 | a subcategory holding '/' makes its own row fail with ValueError |
| CsvCodec.GoalRowRoundTrip | penny.py:280-289 | reading a goal's row, as lines 227-235 write it, gives the goal back, less id and history; no deadline comes back as none |
| CsvCodec.CollectAppend | penny.py:260-289 | reading two runs of rows: the first failure wins, otherwise the three lists are concatenated |
| CsvCodec.UnknownRowSkipped | penny.py:260-289 | inserting a row of unknown Type anywhere leaves the decode unchanged |
| CsvCodec.RowFailureAbortsTable | penny.py:258-289 | one malformed data row anywhere makes the whole table fail |
| CsvCodec.FirstFailureDecides | penny.py:258-289 | the first malformed data row's error is the table's error |
| CsvCodec.ExpenseCategoryMalformed | penny.py:271 | an Expense Category cell that does not split into two parts on '/' gives ValueError |
| CsvCodec.GoalAmountMalformed | penny.py:281 | a goal Amount cell that is not two numbers joined by '/' gives ValueError |
| CsvCodec.DetailsWithoutColon | penny.py:261-289 | an Income or Goal row whose Details cell has no ':' fails, with IndexError for an Income whose amount reads |
| CsvCodec.DecodedGoalsAnonymous | penny.py:282-289 | every goal a CSV import yields lacks an id and a history |
| CsvCodec.DecodeRowsAppend | penny.py:260-289 | decoding two runs of rows one after the other: the first failure wins, otherwise the lists are concatenated |
| CsvCodec.DataRowsDecode | penny.py:260-289 | the three row groups that lines 207-235 write read back as the three lists, in order |
| CsvCodec.TableRoundTrip | penny.py:254-291 | importing the table that lines 202-235 export gives back every entry, in order and in its own list, less ids, type tags, histories and the version |
| Ledger.FindGoalFrom | penny.py:161-162 | the search stops at the first goal with the wanted id, or at the first goal without an id; every goal before that has a different id |
| Ledger.FindGoalFirst | penny.py:161-162 | the first goal without an id or with the wanted id decides the search |
| Ledger.CsvGoalsRefuseContributions | penny.py:161-162 | after a CSV import with at least one goal, the search stops at once on a goal with no id |
| Ledger.Contributed | penny.py:163-167 | the saved amount grows by the amount; a history, when present, gains exactly one entry (amount, today); nothing else changes |
| Ledger.ContributedKeepsHistory | penny.py:163-167 | a goal whose saved amount equals its history's sum keeps that property |
| Ledger.ContributionRaisesSavings | penny.py:163 | a contribution raises total savings by exactly its amount and leaves the other figures alone |
| Ledger.FinanceManager.constructor | penny.py:121-128 | empty lists at version "0.0.1" |
| Ledger.FinanceManager.GetSummary | penny.py:172-188 | the summary of the current three lists: net balance = income - expenses, total income plus the target incomes' amounts is the sum of all incomes, the targets are the target incomes and the recurring expenses, expenses and savings are the sums over their lists, and the goals are passed through |
| Ledger.FinanceManager.AddIncome | penny.py:148-150 | appends exactly the income's mapping at the end of the incomes; the expenses, goals and version are unchanged; the summary moves by that income |
| Ledger.FinanceManager.AddExpense | penny.py:152-154 | appends exactly the expense's mapping at the end of the expenses; the rest is unchanged; the summary moves by that expense |
| Ledger.FinanceManager.AddSavingsGoal | penny.py:156-158 | appends exactly the goal's mapping at the end of the goals; the rest is unchanged; total savings moves by its saved amount |
| Ledger.FinanceManager.ContributeToGoal | penny.py:160-170 | no match: false, nothing changes. A goal without id reached first: KeyError, nothing changes. Otherwise only the first matching goal changes; the result is true, or KeyError when it has no history |
| Ledger.FinanceManager.ExportCsv | penny.py:202-235 | the rows written, one loop per list, are exactly the export table |
| Ledger.FinanceManager.ExportData | penny.py:190-200 | "json" gives the whole ledger, "csv" the export table, anything else ValueError |
| Ledger.FinanceManager.ImportData | penny.py:237-252 | an unknown suffix, a failed CSV decode or a missing collection raises and changes nothing; otherwise the ledger becomes exactly the imported document |
| Ledger.OwnDocumentsPassKeyCheck | penny.py:247-248 | the key check of `import_data` accepts the ledger's own JSON document and every successful CSV import |
| Ledger.ImportFromCsv | penny.py:254-291 | the loop over the rows computes the table decode: the first malformed row aborts, and the three lists fill in row order |
| Scenarios.SummaryOfTwo | penny.py:172-188 | one realized and one target income: the total counts only the first, and the second is the one target |
| Scenarios.IncomeTargetsScenario | penny.py:173-177 | a monthly income of 100 and a target income of 50 give a total of 100, with one target, "Freelance" |
| Scenarios.ExportOneExpense | penny.py:202-225 | a ledger holding one expense exports exactly the header and that expense's row |
| Scenarios.ExpenseRowScenario | penny.py:217-225 | a recurring business software expense of 30 exports as "30.0", "business/software", "Recurring: True" |
| Scenarios.LaptopScenario | penny.py:227-235 | a 1000 laptop goal with contributions of 250 and 100 exports "350.0/1000.0" and reads back as 350 of 1000, without a history |

## Left out

- File I/O: `load_data`, `save_data`, the JSON export write, and the opening and closing of files. The ledger starts empty, and each save is a no-op.
- `json.load`, `json.dump` and `_serializer`: a JSON document is given already parsed, as a `Records.Document`.
- The csv module's quoting and escaping: rows are sequences of cells that are already split.
- The CSV reader's header: cells are read by position, as if the first row were the standard header. A file whose header names the columns differently is not modelled.
- Record ids: Python's `hash()` is randomised per process, so ids are inputs.
- `date.today()` is a parameter, and dates are their ISO text, so date parsing is not modelled.
- Numbers.ParseAmount: only reads literals with at most two decimals and no exponent, `inf`, `nan`, `_` or surrounding blanks. Amounts are exact cents, not binary floats, so float rounding is not modelled.
- Numbers.ShowAmount: prints only amounts that are exact cents. Whole amounts passed as Python ints, which print without ".0", are not modelled, and neither is the exponent form (`1e+16`) that `str()` uses for floats of 1e16 or more: ShowAmount writes every digit.
- Numbers.ParseInt: reads only the sign-then-digits form of `int()`, without `_` or inner blanks.
- JSON null and a missing key are both `None` in the model. Records with missing or wrongly typed fields in an imported JSON document are not modelled: entries are typed. Two consequences: a JSON goal with `"id": null` is passed over by the comparison at penny.py:162, where the model raises KeyError("id"); and an expense with `"is_recurring": null` exports as "Recurring: None" at penny.py:224, where the model writes "False".
- `import_data` and `export_data` see only the file suffix or the format name. `export_data` returns the exported content, not the file path.
- Records.SavingsGoal.ToDict: the mapping copies the history. In the source it shares the list, so a later `add_contribution` on the goal object would also show in the ledger; that aliasing is not modelled. The same holds the other way: `contribute_to_goal` appends to the list the goal object still holds, and a goal added twice gives two entries that share one history.
- Default arguments (`description=""`, `is_target=False`, `is_recurring=False`, `deadline=None`, `priority=3`, `format="json"`) are explicit parameters. A call that omits one is the call that passes its default, so no behaviour is lost.
- `interactive_mode`, the `*_interactive` helpers, `show_summary` and `main`: these are prompts, argument parsing and printing.

## Findings

| source | as written | input that shows it | evidently intended | confidence | as-written member | corrected member |
|---|---|---|---|---|---|---|
| penny.py:35 | `date or date.today()` where the parameter `date` hides the `date` class, and `Income`/`Expense` pass no date | `Income(100.0, "Job", Frequency.MONTHLY)`: any positive amount gives AttributeError | a missing date defaults to today's | not executed | Records.IncomeAsWrittenAlwaysRaises | Records.NewIncome |
| penny.py:105 | `(date or date.today())` inside `add_contribution`, after `current_amount` has been increased | `goal.add_contribution(250.0)` with no date: the amount is added, then AttributeError, with no history entry | a missing date defaults to today's, and the history stays in step | not executed | Records.SavingsGoal.AddContributionAsWritten | Records.SavingsGoal.AddContribution |
