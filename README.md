# Home budget ledger — a Dafny model

This project models the ledger logic of `budget.py`, a command-line tool that keeps
one JSON document with a single monthly spending `limit`, a list of `transactions`
(date, amount, category, description) and a list of `fixed_costs` templates.
The model covers:

- month filtering (`filter_by_month`): the entries whose `date` string starts with a
  `YYYY-MM` key, in their original order, silently skipping entries whose date is
  missing or not a string;
- exact totalling (`calculate_total`) and per-category grouping (`group_by_category`),
  which the source accumulates in `Decimal`; amounts are Dafny `real`s here;
- appending a transaction (`add_transaction`) and materialising the fixed costs
  (`apply_fixed_costs`), both in place on the document, modelled as the class
  `Storage.Data` whose `transactions` field the methods reassign;
- input validation: `validate_string` and the positivity check of `validate_amount`;
- the arithmetic of the `status`, `list`, `add` and `apply-fixed` commands, with the
  current month and today's date passed in as parameters.

This version of the ledger has one scalar limit, no schema migration, no ID
counters, no income and no record of the months in which fixed costs were already
applied. `apply_fixed_costs` stamps each new transaction with today's date, not
with the first day of the month, and every call appends another full batch.

Modules: `Wrappers` (Option, Result), `Storage` (records and the document class),
`Validation`, `Transactions`, `FixedCosts`, `Commands`. Each loop of the source is a
method proved against a recursive specification function (`Filtered`, `Total`,
`Grouped`, `Materialized`, `TemplateTotal`); the lemmas state what those functions mean.

## Model

| member | source | states |
|---|---|---|
| `Storage.Data.Empty` | budget.py:14-20 | a new document has limit 5000 and no transactions or fixed costs |
| `Validation.StripStart` | budget.py:92 | the leading-whitespace strip returns a suffix of the input, preceded only by whitespace, that does not start with whitespace |
| `Validation.StripEnd` | budget.py:92 | the trailing-whitespace strip returns a prefix of the input, followed only by whitespace, that does not end with whitespace |
| `Validation.StripIsTrimmedInfix` | budget.py:92 | `strip()` yields an infix of the input surrounded only by whitespace, with no whitespace at either end, and is empty exactly when the input is all whitespace |
| `Validation.StripIdempotent` | budget.py:92 | stripping an already stripped string changes nothing |
| `Validation.ValidateString` | budget.py:87-92 | a missing, empty or all-whitespace value is refused naming the field (both directions); any accepted value is returned stripped, non-empty and without surrounding whitespace |
| `Validation.ValidateAmountAsWritten` | budget.py:73-85 | the check as written: refused exactly when `float()` fails (not a number) or the value compares `<= 0` under IEEE rules (not positive); otherwise the parsed float is returned unchanged |
| `Validation.ValidateAmount` | budget.py:73-85 | the corrected check: accepted exactly when the parsed value is a finite number above zero, and then returns it; values the source compares `<= 0` (including -infinity) are refused as not positive, everything else as not a number |
| `Validation.ValidateAmountRefinesAsWritten` | budget.py:76-81 | the corrected check accepts exactly what the written one accepts except NaN and +infinity, returning the same value; whatever the written check refuses, the corrected one refuses with the same error; NaN and +infinity are refused as not a number |
| `Transactions.FilteredAppend` | budget.py:112-122 | filtering a concatenation is the concatenation of the filtered parts, so relative order is kept |
| `Transactions.FilteredMembers` | budget.py:112-122 | an entry is in the filtered list exactly when it is in the input and has a string date starting with the month key |
| `Transactions.FilteredIsSubsequence` | budget.py:112-122 | the filtered list is an order-preserving subsequence of the input |
| `Transactions.FilterByMonth` | budget.py:112-122 | the loop returns exactly the month's entries in input order, an order-preserving subsequence of the input |
| `Transactions.TotalAppend` | budget.py:124-129 | the total of a concatenation is the sum of the two totals |
| `Transactions.FilteredTotalBound` | budget.py:112-129 | with no negative amounts, the month's total lies between zero and the total of all entries |
| `Transactions.CalculateTotal` | budget.py:124-129 | the loop returns the exact sum of the amounts; zero for an empty list |
| `Transactions.GroupedKeys` | budget.py:141-147 | the keys of the grouping are exactly the categories that occur, compared by exact string equality |
| `Transactions.GroupedValues` | budget.py:141-147 | each value is the total of the entries of that category, and a category absent from the keys has no entries |
| `Transactions.GroupedSumsToTotal` | budget.py:141-147 | the per-category values add up to the total of the list |
| `Transactions.GroupByCategory` | budget.py:141-147 | the loop returns a dictionary keyed by exactly the categories present, each mapped to that category's exact total |
| `Transactions.AddTransaction` | budget.py:131-139 | the transactions grow by exactly one entry carrying the given date, amount, category and description; earlier entries, limit and templates are unchanged |
| `FixedCosts.MaterializedAt` | budget.py:176-183 | one new transaction per template at the same position, copying its amount, category and description and dated today |
| `FixedCosts.MaterializedTotal` | budget.py:173-187 | the materialised transactions total exactly the sum of the template amounts |
| `FixedCosts.MaterializedInMonth` | budget.py:176-183 | every materialised transaction falls in the month of today's date |
| `FixedCosts.ApplyFixedCosts` | budget.py:167-187 | with missing or empty templates returns (0, 0) and changes nothing; otherwise appends one dated transaction per template in order after the untouched existing ones, returning the template count and their exact total |
| `Commands.Status` | budget.py:216-223 | reports the limit, the exact total of the month's entries as spent, and a remaining amount that is negative exactly when spending exceeds the limit |
| `Commands.List` | budget.py:245-251 | the listing's keys are the categories used in the month and its values add up to the spent amount `status` reports |
| `Commands.SpentAfterAdd` | budget.py:219-221 | adding a transaction lowers the month's remaining budget by its amount exactly when it is dated in that month |
| `Commands.SpentAfterApply` | budget.py:219-221 | applying fixed costs in the current month raises the month's spending by exactly the template total |
| `Commands.ApplyTwiceCountsTwice` | budget.py:167-187 | a second application in the same month appends a second batch and counts the template total twice (not idempotent) |
| `Commands.Add` | budget.py:226-234 | amount, category and description are validated in that order and the first failure is reported with the document untouched; the command succeeds exactly when all three checks pass, and then exactly one entry with the stripped texts is appended |
| `Commands.ApplyFixed` | budget.py:237-242 | the document is saved exactly when there was at least one template; the appended batch, count and total are those of `apply_fixed_costs`; the limit and the templates are unchanged |

## Left out

- `load_data` and `save_data` (budget.py:22-69): file I/O, JSON parsing, the `.bak` backup copy, the corrupt-file and permission errors, and the required-keys check; the model's document always has a limit and a transaction list.
- `validate_date` (budget.py:94-104): it depends on the clock and on `strptime`'s lenient parsing; `Commands.Add` takes the date it returned as a parameter.
- `float(value)` text parsing in `validate_amount`: the parsed value (or its failure) is a parameter of type `Option<Float>`.
- `get_current_month` and `date.today()`: the month key and today's date are parameters.
- `FixedCosts.ApplyFixedCosts`: the source calls `date.today()` once per template, so a run spanning midnight could stamp two dates; the model stamps one date per batch.
- `format_status`, `format_category_list`, the `print` messages and the argparse dispatch (budget.py:151-163, 191-251): text formatting and I/O; `sys.exit(1)` is the `Failure`/error outcome.
- `Transactions.CalculateTotal`: sums are exact reals; Python's default decimal context rounds to 28 significant digits, which is not modelled.
- Amounts are the exact decimal values of their printed form (`Decimal(str(x))`); the binary rounding of inputs with more than 15 significant digits is not modelled.
- Stored entries missing `amount` or `category`, or with a non-numeric amount, make the source raise an uncaught exception; model records always carry these fields.
- A stored entry that is not a dictionary makes `filter_by_month` raise an uncaught `TypeError` (only `KeyError` and `AttributeError` are caught), and a non-string category is grouped under a key of its own type; model records are always records with string categories, so neither case is represented.
- `Commands.Add` uses the corrected `Validation.ValidateAmount` (see Findings), so it refuses NaN and +infinity, which the source accepts; every amount the source refuses is refused with the same error.

## Findings

| source | as written | input that shows it | evidently intended | confidence | as-written member | corrected member |
|---|---|---|---|---|---|---|
| budget.py:76-81 | after `float(value)` the only refusal is `amount <= 0`, which is false for NaN | `--amount nan` (also `inf`): `float("nan") <= 0` is false, so NaN is returned as the amount; `Validation.AsWrittenAcceptsNaN` | refuse non-finite values and return a finite amount strictly above zero | high; not executed | `Validation.ValidateAmountAsWritten` | `Validation.ValidateAmount` |
