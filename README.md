# Bank-statement normaliser and savings waterfall, in Dafny

This project models the core of a personal-finance tool in two parts.

- **Normalisation pipeline** (`streamlit/finance_utils.py`). It takes an uploaded bank statement and a source label and returns canonical transaction rows:
  - a per-source column rename, followed by date parsing, a title-cased source label and the merchant appended to the description;
  - the keyword classifiers for Category and Type;
  - the lenient amount parser, which takes its sign from the Type text;
  - the sign-based "Transaction Type", overridden to "Payment" for mobile card payments;
  - a `transaction_id` hashed from the row's content;
  - the insert-or-ignore save into the transactions table;
  - the recurring-charge detector that reads the stored rows back.
- **Savings waterfall** (`streamlit/pages/Waterfall.py`). A balance is spread over the savings goals:
  - the goals other than the catch-all ("Emergency Fund", in any letter case) are taken earliest target date first;
  - each is topped up to its target from what remains;
  - the catch-all takes the rest.

Modules, one per file:

| file | module | what it holds |
|---|---|---|
| `wrappers.dfy` | `Wrappers` | `Option`, `Result` |
| `text.dfy` | `Text` | `lower`, `strip`, `title`, substring `in`, `replace(c, "")`, `str(n)` |
| `dates.dfy` | `Dates` | dates, calendar months, `str(Timestamp)` |
| `amounts.dfy` | `Amounts` | Python floats as exact decimals plus `-0.0`, `±inf` and `nan`; `float(s)`; `repr(x)` |
| `cleaning.dfy` | `Cleaning` | `clean_category`, `clean_type`, `clean_amount` |
| `normalize.dfy` | `Normalize` | Pure functions over table values, plus a mutable `Frame` class whose methods make the same column assignments in place. `Normalize.Normalize` is proved equal to the pure pipeline, and the pure pipeline is proved equal to a row-by-row reference definition. |
| `store.dfy` | `Store` | `save_to_db` as a map keyed by `transaction_id`, with first-insert-wins semantics |
| `subscriptions.dfy` | `Subscriptions` | `find_monthly_subscriptions` |
| `waterfall.dfy` | `Waterfall` | the `Goal` class and `allocate_cash`, which updates the goals' `allocation` fields in place |

Python `float` values are modelled as exact decimals, so `clean_amount`, the `> 0` test, `abs`, and `repr` in the identifier key all work on exact values. `sha256` and `pd.to_datetime` are parameters of the pipeline, so every statement about identifiers holds for any hash function and any date parser.

### Cells that are not text

A Category or Type cell that is neither text nor missing (a number, in a column `pd.read_csv` read as numbers) makes `.lower()` raise inside `clean_category` or `clean_type`. A Description column with no text at all is stored as floats, and `.str.contains` raises on it. The model reports these cases as `NotText` errors, in the order the steps meet them (`Normalize.CoreMatchesReference`, `Normalize.UnmappedFailsOnFirstProblem`).

### Behaviour of the code worth knowing

These lemmas state what the code does in cases where a reader might expect otherwise:

- **Negative balances.** The balance input on the page has no lower bound (Waterfall.py:172), and `allocate_cash` does not clamp it. With a negative balance, the first ordinary goal gets `min(need, balance)`, which is the whole negative balance. Every later goal and the catch-all then get 0 (`Waterfall.NegativeBalanceFirstGoal`). A zero balance gives every goal 0.
- **No catch-all.** Without a catch-all goal, the leftover appears in no goal. `Waterfall.AllocateCash` returns exactly the ordinary goals, and `Waterfall.AllocationConserves` shows that the leftover is the part of the balance that is missing.
- **The negative sign rule never fires in the pipeline.** `clean_amount` forces a negative sign for the type words payment, withdrawal, debit and purchase. But `normalize` calls it after `clean_type` has already rewritten the Type column, so the Type it sees is "Income", "Spending", "Transfer", "Interest", "Other" or a title-cased text, and never one of those words (`Cleaning.CleanTypeNeverNegative`). In the pipeline, a parsed amount therefore keeps its sign or is made non-negative; it is never forced negative (`Cleaning.CleanedTypeKeepsOrLifts`). Called on the raw type words, `clean_amount` applies both sign rules (`Cleaning.PaymentAmount`, `Cleaning.DepositAmount`).
- **The "Amex" label.** The upload page offers "Amex" as a source label (streamlit/dashboard.py:8), but the mapping key is `american_express`. So "Amex" takes the pass-through path with no renaming (`Normalize.AmexIsNotMapped`).
- **The "pre-merged union" guard** has no effect, because that label, also offered at streamlit/dashboard.py:8, is not a mapping key either (`Normalize.MappedSourcesAreTheKeys`).

## Model

| member | source | states |
|---|---|---|
| Text.Strip | streamlit/finance_utils.py:25 | The result is the input with a run of white space removed from each end: everything before it and everything after it is white space, and it neither starts nor ends with a white-space character. |
| Text.StripPlain | streamlit/finance_utils.py:69 | A non-empty text with no white space at either end strips to itself. |
| Text.Remove | streamlit/finance_utils.py:69 | `replace(c, "")` leaves no `c` and never lengthens the text. |
| Text.RemoveAbsent | streamlit/finance_utils.py:69 | `replace(c, "")` of a text without `c` is that text. |
| Text.RemoveConcat | streamlit/finance_utils.py:69 | `replace(c, "")` of a concatenation is the concatenation of the pieces with `c` removed. |
| Text.RemoveLeading | streamlit/finance_utils.py:69 | Removing `c` from `c` followed by a text without `c` leaves that text. |
| Text.IntText | streamlit/finance_utils.py:146 | An integer prints as its decimal digits, after a `-` exactly when it is negative, with no decimal point. |
| Text.ContainsIff | streamlit/finance_utils.py:26 | Substring `in` holds exactly when the key occurs at some position of the text. |
| Text.LowerTitle | streamlit/finance_utils.py:50 | Lower-casing a title-cased text gives the lower-cased original. |
| Cleaning.FirstMatch | streamlit/finance_utils.py:26-49 | A label is returned exactly when some group matches. The label is that of the first matching group: every earlier group fails. |
| Cleaning.FirstRuleWins | streamlit/finance_utils.py:26-27 | When the first group matches, its label wins, whatever the later groups say. |
| Cleaning.CleanCategory | streamlit/finance_utils.py:21-50 | A missing category gives "Uncategorized". Otherwise the result is the label of the first category group matching the trimmed, lower-cased text; if no group matches, it is that text title-cased. |
| Cleaning.FoodBeforeGrocery | streamlit/finance_utils.py:26-31 | Any category whose cleaned text contains "food" is "Food & Drink", even when it also names a grocery. |
| Cleaning.CleanType | streamlit/finance_utils.py:52-65 | A missing type gives "Other". Otherwise the first matching type group decides, falling back to the title-cased text. |
| Cleaning.CleanTypeNeverNegative | streamlit/finance_utils.py:52-65 | No text that `clean_type` returns, once lower-cased, is one of the words that force a negative amount. |
| Cleaning.CleanAmount | streamlit/finance_utils.py:67-80 | An unparseable amount gives 0.0. A parsed value `v` gives `abs(v)` under a positive type word, `-abs(v)` under a negative one, and `v` itself under any other word. |
| Cleaning.PaymentForcesNegative | streamlit/finance_utils.py:75-76 | Under the type word "Payment", a value becomes minus its magnitude. |
| Cleaning.DepositForcesPositive | streamlit/finance_utils.py:73-74 | Under the type word "Deposit", a value becomes its magnitude. |
| Cleaning.PaymentAmount | streamlit/finance_utils.py:67-76 | `clean_amount` of a parseable amount under "Payment" is minus its magnitude. |
| Cleaning.DepositAmount | streamlit/finance_utils.py:67-74 | `clean_amount` of a parseable amount under "Deposit" is its magnitude. |
| Cleaning.AmountTextDropsSymbols | streamlit/finance_utils.py:69 | A `$` and a thousands separator are dropped: "$" + w + "," + f reads as w + f when w and f hold neither symbol and have no outer white space. |
| Cleaning.PaymentOfGrouped | streamlit/finance_utils.py:67-76 | `clean_amount` of "$" + w + "," + f under "Payment" is minus the magnitude of `float(w + f)`. |
| Cleaning.PaymentExample | streamlit/finance_utils.py:67-76 | `clean_amount` of "$1,234.56" under "Payment" is -1234.56. |
| Cleaning.DepositExample | streamlit/finance_utils.py:67-74 | `clean_amount` of "-50" under "Deposit" is 50.0. |
| Cleaning.CleanedTypeKeepsOrLifts | streamlit/finance_utils.py:130-131 | Applied to the already-cleaned Type, `clean_amount` either keeps the parsed value or replaces it by its magnitude. |
| Cleaning.IncomeNeverNegative | streamlit/finance_utils.py:130-131 | A row whose cleaned Type is "Income" never gets a negative amount. |
| Amounts.Magnitude | streamlit/finance_utils.py:74 | `abs(x)` of a finite value has the absolute value of `x`; `abs(-0.0)` is 0.0, `abs` of an infinity is +inf, and `abs` is NaN exactly for NaN. It is never negative, and positive exactly when `x` is non-zero and not NaN. |
| Amounts.NegatedMagnitude | streamlit/finance_utils.py:76 | `-abs(x)` of a non-zero finite value is minus its absolute value; of 0.0 and of -0.0 it is -0.0; of an infinity it is -inf; it is NaN exactly for NaN. It is never positive, negative exactly when `x` is non-zero and not NaN, and it has the magnitude of `x`. |
| Amounts.ParseNumber | streamlit/finance_utils.py:71 | A text read as a number contains at least one digit. |
| Amounts.ParseFloat | streamlit/finance_utils.py:71 | `float("")` raises. A negative result comes only from a text starting with `-`, and a positive one or 0.0 never does. A finite result or -0.0 comes only from a text containing a digit. |
| Amounts.ParseDecimalExample | streamlit/finance_utils.py:71 | `float("1234.56")` is 1234.56. |
| Amounts.ParseNegativeExample | streamlit/finance_utils.py:71 | `float("-50")` is -50.0. |
| Amounts.DecimalRepr | streamlit/finance_utils.py:146 | The printed form of a finite value is non-empty and starts with `-` exactly when the value is negative. |
| Amounts.Repr | streamlit/finance_utils.py:146 | The printed form of any float is non-empty and starts with `-` exactly when the value is negative or -0.0. |
| Normalize.MappedSourcesAreTheKeys | streamlit/finance_utils.py:115-116 | A label takes the remap branch exactly when its lower-cased form is one of the five mapping keys. |
| Normalize.AmexIsNotMapped | streamlit/finance_utils.py:106-116 | The label "Amex" takes the pass-through branch. |
| Normalize.RenameTable | streamlit/finance_utils.py:117 | The rename succeeds exactly when no two columns map to one name. Every row then keeps each value under the column's new name. |
| Normalize.ToDatetime | streamlit/finance_utils.py:118 | The column converts exactly when every cell converts, and the result holds each cell's conversion. |
| Normalize.PrepareByRows | streamlit/finance_utils.py:115-126 | When the remap branch succeeds, each of its rows is that row's renamed, dated, labelled and merchant-suffixed form. |
| Normalize.MappedRowColumns | streamlit/finance_utils.py:115-126 | On the remap branch, an output row carries the title-cased source label, the parsed date (a timestamp or NaT) and the renamed description with its merchant suffix. |
| Normalize.IntegerMerchantSuffix | streamlit/finance_utils.py:122-126 | A merchant column read as integers is appended as " - " and the integer's digits, with no ".0". |
| Normalize.UnmappedRowColumns | streamlit/finance_utils.py:115-163 | On the pass-through branch, the date, description and source of an output row are those of its input row. |
| Normalize.UnmappedFailsOnFirstProblem | streamlit/finance_utils.py:128-149 | On the pass-through branch, `normalize` succeeds exactly when the six columns it reads are present, Category and Type hold only text or missing cells, and Description holds some text (or the frame is empty). Otherwise it fails on the first of these problems that the steps meet. |
| Normalize.Frame.Assign | streamlit/finance_utils.py:129-149 | The frame's new contents are the column assignment applied to its old contents. |
| Normalize.Frame.AssignWhere | streamlit/finance_utils.py:138-139 | The frame's new contents are the masked assignment applied to its old contents. |
| Normalize.CleanFrame | streamlit/finance_utils.py:128-163 | The in-place cleaning steps leave the frame in the state the pure pipeline describes, and return its result. |
| Normalize.Normalize | streamlit/finance_utils.py:86-163 | The result is the pure pipeline's result. The caller's frame is unchanged on the remap branch, which works on the renamed copy; on the pass-through branch it is cleaned in place. |
| Normalize.CoreByRows | streamlit/finance_utils.py:128-163 | The column-by-column cleaning steps succeed under the same conditions and act on each row independently: each output row is the one-row assignments projected onto the nine columns. |
| Normalize.CoreFails | streamlit/finance_utils.py:128-149 | When the cleaning steps cannot run, they fail with the first problem in the order they meet them: Category missing or not text, Type missing or not text, Amount missing, Description missing or without text, Transaction Date missing, source missing. |
| Normalize.CoreRowProjects | streamlit/finance_utils.py:128-163 | The one-row assignments, projected, are the reference canonical row. |
| Normalize.CoreMatchesReference | streamlit/finance_utils.py:128-163 | The cleaning steps succeed exactly when the columns they read are present and the Category, Type and Description cells are of a kind the string operations accept. They then yield the reference canonical row for every input row, in order. Otherwise they fail on the first missing column or non-text cell they meet. |
| Normalize.NormalizeByRows | streamlit/finance_utils.py:86-163 | A successful `normalize` has one output row per input row, and each output row depends on its input row alone. |
| Normalize.ExpectedRowShape | streamlit/finance_utils.py:129-149 | Amount equals Amount_Changed. Transaction Type is "Payment" exactly for mobile payments, otherwise "Income" exactly when the amount is positive and "Spending" otherwise. A mobile payment's Type is "Payment". A Type of "Income" never carries a negative amount. The identifier hashes the row's content key. |
| Normalize.NormalizedOutputShape | streamlit/finance_utils.py:86-163 | Every row `normalize` returns has the properties above, on either branch. |
| Normalize.IdenticalRowsCollide | streamlit/finance_utils.py:145-149 | Two identical input rows become identical output rows, and so share one `transaction_id`. |
| Store.InsertAllKeys | streamlit/finance_utils.py:189-209 | After saving, the table holds exactly the old identifiers and the saved rows' identifiers. |
| Store.InsertAllKeepsStored | streamlit/finance_utils.py:196 | A stored row is never overwritten. |
| Store.InsertAllFirstWins | streamlit/finance_utils.py:189-209 | For a new identifier, the first saved row carrying it is the one stored. |
| Store.InsertAllStoredIds | streamlit/finance_utils.py:196 | Saving rows whose identifiers are all stored changes nothing. |
| Store.InsertAllIdempotent | streamlit/finance_utils.py:169-210 | Saving the same rows twice leaves the table as one save left it. |
| Store.TransactionStore.SaveToDb | streamlit/finance_utils.py:169-210 | The new table is the old one with each row inserted in order, and a row with a clashing identifier ignored. |
| Subscriptions.Outflows | streamlit/finance_utils.py:225 | The rows kept are exactly those with a negative amount. |
| Subscriptions.KeysOf | streamlit/finance_utils.py:229 | The groups are exactly the distinct (description, amount) pairs of the rows, each listed once. |
| Subscriptions.Earliest | streamlit/finance_utils.py:232 | The earliest month of a group is one of its months, and no month of the group precedes it. |
| Subscriptions.Latest | streamlit/finance_utils.py:233 | The latest month of a group is one of its months, and no month of the group follows it. |
| Subscriptions.Recurring | streamlit/finance_utils.py:238 | Exactly the groups seen in at least `min_months` distinct months are reported. |
| Subscriptions.DecimalMagnitude | streamlit/finance_utils.py:251 | `abs` of an outflow is its negation, and it is never negative. |
| Subscriptions.SortByKey | streamlit/finance_utils.py:252 | The sort is a permutation of its input, ordered largest first. |
| Subscriptions.SortDistinct | streamlit/finance_utils.py:252 | Sorting keeps the reported charges distinct. |
| Subscriptions.ReportDescribes | streamlit/finance_utils.py:228-251 | The report of a group has the group's description, its amount made positive, its month count and its first and last month. It is the only record with those properties. |
| Subscriptions.FindMonthlySubscriptionsReports | streamlit/finance_utils.py:223-253 | A record is reported exactly when it describes some outflow charge seen in at least `min_months` distinct months. |
| Subscriptions.ReportedEntryBounds | streamlit/finance_utils.py:238-251 | Every reported amount is positive, its month count is at least `min_months`, and its first month is not after its last. |
| Subscriptions.FindMonthlySubscriptionsOrdered | streamlit/finance_utils.py:229-252 | The report is ordered by amount, largest first, and no charge appears twice. |
| Waterfall.Goal.constructor | streamlit/pages/Waterfall.py:38-44 | A new goal has the given fields and allocation 0.0. |
| Waterfall.CatchAllIndex | streamlit/pages/Waterfall.py:145 | The catch-all is the first goal whose lower-cased name is "emergency fund"; when no goal has that name there is none. |
| Waterfall.OthersPermutation | streamlit/pages/Waterfall.py:146 | The ordinary goals and the catch-all together are the input goals, each once, and the catch-all is not among the ordinary goals. |
| Waterfall.SortByDate | streamlit/pages/Waterfall.py:148 | The sort is a permutation, ordered by target date. |
| Waterfall.SortByDateStable | streamlit/pages/Waterfall.py:148 | The sort is stable: goals with one target date keep their relative order. |
| Waterfall.FillInOrder | streamlit/pages/Waterfall.py:150-154 | Going through the sorted goals, each goal gets `min(need, remaining)` computed from the needs on entry, and the loop returns what remains. |
| Waterfall.AllocateCash | streamlit/pages/Waterfall.py:143-161 | The ordinary goals, sorted by date, receive the greedy fill and the catch-all receives the leftover. The display order is the catch-all followed by the sorted ordinary goals, and it is a permutation of the input goals. |
| Waterfall.FillConserves | streamlit/pages/Waterfall.py:150-154 | At every step, the amounts handed out plus what remains equal the balance. |
| Waterfall.AllocationConserves | streamlit/pages/Waterfall.py:150-157 | The ordinary goals' allocations plus the catch-all's share equal the balance. |
| Waterfall.NoCatchAllWithinBalance | streamlit/pages/Waterfall.py:150-154 | With a non-negative balance, the ordinary goals together never get more than the balance. |
| Waterfall.FillBounds | streamlit/pages/Waterfall.py:150-157 | With a non-negative balance, each goal gets between 0 and its need, and the leftover lies between 0 and the balance. |
| Waterfall.FillGreedy | streamlit/pages/Waterfall.py:150-154 | Once a goal is left short, every later goal gets nothing. |
| Waterfall.FillCoversNeeds | streamlit/pages/Waterfall.py:150-157 | When the balance covers every need, each goal is filled completely, and the catch-all gets the balance minus the total need. |
| Waterfall.NegativeBalanceFirstGoal | streamlit/pages/Waterfall.py:150-154 | With a negative balance, the first ordinary goal is allocated the whole negative balance, and every later goal and the leftover are 0. |
| Waterfall.ShortBalanceExample | streamlit/pages/Waterfall.py:150-157 | Balance 1500 over needs 1000 and 2000 fills them with 1000 and 500, leaving 0. |
| Waterfall.AmpleBalanceExample | streamlit/pages/Waterfall.py:150-157 | Balance 5000 over needs 1000 and 2000 fills both, leaving 2000 for the catch-all. |
| Waterfall.Needs | streamlit/pages/Waterfall.py:152 | Each goal's need is its target minus its allocation, floored at 0. |

## Left out

- **Postgres.** The connection, `CREATE SCHEMA`/`CREATE TABLE`, the commit, `load_recent` and the goal CRUD helpers (`init_db`, `ensure_emergency_fund`, `fetch_goal_dicts`, `add_goal`, `update_goal`, `delete_goal`) are database I/O. The store is modelled as a map of its rows.
- **UI and scheduling.** The Streamlit pages, `_rerun`, the progress display and the Airflow DAGs are user interface and scheduling. They are not part of this model.
- **SHA-256 and `pd.to_datetime`** are parameters. Their internals are not modelled, so no property depends on them.
- **Binary floating point.** Amounts are exact decimals: rounding to the nearest double is not modelled. `repr` prints the exact decimal's digits. For a text with more digits than a double holds, Python would print the shorter digits of the rounded value.
- **Amounts.ParseFloat** reads ASCII digits only. Python's `float` also accepts other Unicode decimal digits and surrounding Unicode white space.
- **Amounts.Repr** and **Amounts.ParseFloat** are not proved to round-trip (`float(repr(x)) == x`). Only the sign of the printed form and the listed examples are proved.
- **Numeric date columns.** `pd.to_datetime` reads a column of numbers as epoch timestamps. In the model, the date parser is a parameter over text, and a numeric date cell gives `UnparseableDate`.
- **Times of day and "NaT" text.** A date is a calendar day, so the identifier key always prints its time as `00:00:00`. For a date text with a time, such as "2024-01-05 13:45", Python prints that time in the key. The date parser parameter returns a date or fails, so it cannot turn a text cell such as "NaT" into NaT the way `pd.to_datetime` does.
- **Case mapping** covers ASCII letters only. The Unicode case rules of `str.lower` and `str.title` are not modelled.
- **Column presence** is checked once per column, as pandas does for a non-empty frame. What `apply` returns on a frame with no rows is not modelled: a row-wise `apply` there returns a frame rather than a column.
- **Duplicate column labels.** A rename that maps two columns to one name is an error in the model. pandas would keep a frame with duplicate labels.
- **Subscriptions.FindMonthlySubscriptions** reads stored rows with finite amounts, non-null dates and non-null descriptions. Rows that `groupby` drops for NaN keys are not modelled. The rename and sort the source makes in place act on its private copy, so they are modelled as values.
- **Subscriptions.SortByAmount** fixes one order (insertion order) among reports with equal amounts. `sort_values` leaves that order unspecified, so only the ordering by amount, the contents and distinctness are promised.
- **Waterfall.AllocateCash** requires the goals to be distinct objects, which holds for the page's caller: Waterfall.py:188 builds a fresh `Goal` for every stored row.
- **Waterfall.AllocateCash** computes with real numbers, so floating-point rounding of the balance and the allocations is not modelled.
