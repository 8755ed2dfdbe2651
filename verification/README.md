# Hand-built decision tree for transaction records — a verified model

The program lets an analyst build a binary decision tree by answering
prompts. It loads a bank statement, derives extra columns for each
transaction, and labels every transaction by walking the tree. This
project models the logic of `tree.py` as pure Dafny functions and methods,
and proves what that logic promises. The Tkinter front end is not modelled.

- `values.dfy` (`Values`): `Option`, `Result`, and the cell values a row
  holds. A cell is a string, a number, or a date stamp. Records are maps
  from column name to cell.
- `tree.dfy` (`Tree`): the node (`Leaf` or `Split`) and the evaluator.
  `Route` is one split's decision. `Predict` is `_predict_recursively`.
  The `KeyError`, `TypeError` and `ValueError` the code can raise are
  explicit error outcomes.
- `build.dfy` (`Build`): `_build_tree_recursively`, with the dialogs
  replaced by a finite script of answers read in pre-order. `Script` is the
  inverse: it lists the answers that build a given tree.
- `batch.dfy` (`Batch`): `predict_gui`. It checks its two guards, then
  evaluates the tree on every row in iteration order.
- `text.dfy` (`Text`): Python's `sub in s` and `str.replace(',', '')`.
- `daily.dfy` (`Daily`): the per-date group-by columns, grouped by raw date
  text. The reference definitions count and sum over prefixes of the
  rows, and the lemmas relate them to date groups. The enrichment uses the
  reference definitions. `DailyColumns` is an alternative formulation with
  running per-date tallies, proved equal to the reference definitions.
- `enrich.dfy` (`Enrichment`): `classify_transaction` and the column
  arithmetic of `load_csv`, followed by the final sort.
- `sorting.dfy` (`Sorting`): sorting by (date key, sequence number).
- `session.dfy` (`Session`): the column names and cell types of the loaded
  table, what those types do to a split, batch prediction on the loaded
  table, and an end-to-end property of a one-split tree.

Parsing a number (`float(...)`, `astype(float)`) is the abstract parameter
`parseNum: string -> Option<real>`. Parsing a date (`pd.to_datetime`) is the
abstract parameter `parseDate: string -> Option<int>`, whose integer is an
ordering key. Amounts are exact reals.

Behaviour of the code that is easy to misread, and that the model keeps:

- A split on an attribute the record lacks raises `KeyError` (tree.py:52).
  It does not fall through to the right child.
- `==` matches only string cells (tree.py:53). A numeric cell under `==`
  goes right.
- For `>=` and `<=`, `float(node.value)` is evaluated before the
  comparison. An unparseable value therefore raises `ValueError` even when
  the cell is a string. A non-numeric cell raises `TypeError` only when the
  value parses.
- The builder has no depth limit and no cancellation.
- Loading an empty table fails when `df['Balance INR'][0]` is read
  (tree.py:80). This happens after the balance column has been parsed and
  before the debit column is.

## Model

| member | source | states |
|---|---|---|
| Tree.Route | tree.py:52-60 | A split raises exactly when the attribute is missing, or when the condition is `>=`/`<=` and either the value does not parse or the cell is not a number. The error is `KeyError`, then `ValueError`, then `TypeError`, in that order of precedence. It goes left exactly on an exact string match under `==` or an inclusive numeric bound under `>=`/`<=`. Everything else, including unknown conditions, goes right. |
| Tree.Predict | tree.py:48-60 | A leaf answers its own result whatever the record holds. Any successful answer is the label of some leaf of the tree. Any error names an attribute or comparison value that some split of the tree holds. |
| Tree.SafePredictSucceeds | tree.py:52-60 | Evaluation never raises when no split can raise on the record. |
| Tree.PredictReadsOnlyTestedAttributes | tree.py:48-60 | Two records that agree on every attribute the tree tests get the same answer. |
| Build.BuildFrom | tree.py:25-43 | A successful build reads exactly the pre-order answer script of the tree it returns, and reads at least one answer. The sentinel `result` is never a split attribute. Every node stores its build path: the root stores the given path, and each child stores the parent's path plus ` -> attr cond value (left)` or `(right)`. |
| Build.BuildTree | tree.py:22-23 | The root is built under the empty path. The tree has the protocol's shape, and the script starts with that tree's answers. |
| Build.BuildFromScript | tree.py:29-43 | Round trip: building from a tree's answer script, followed by any further answers, reproduces that tree exactly and leaves exactly the further answers unread. |
| Build.BuildTreeScript | tree.py:22-43 | Round trip at the root: any tree the builder can produce under the empty path is rebuilt from its own script, with nothing left over. |
| Build.LeavesOutnumberSplits | tree.py:38-43 | Every split has both children, so a tree has exactly one more leaf than it has splits. |
| Build.ScriptLength | tree.py:29-43 | A tree's script has two answers per leaf (`result` and the label) and three per split (attribute, value, condition). |
| Build.BuildConsumption | tree.py:29-43 | The number of answers a successful build reads is twice its leaves plus three times its splits. |
| Batch.PredictAll | tree.py:120-131 | An empty table is rejected first. Otherwise a missing root is rejected. Otherwise the batch succeeds exactly when every row evaluates. On success there is one entry per row, in iteration order, and entry i holds row i's index label and its prediction. When a row raises, the result names the first such row and its error. |
| Text.Contains | tree.py:63-67 | `sub in s` holds exactly when `sub` occurs in `s` at some position. |
| Text.StripCommas | tree.py:78 | The result has no commas and is no longer than the input. Text without commas is unchanged. |
| Text.StripCommasAppend | tree.py:82-83 | Comma removal works piece by piece: stripping a concatenation gives the concatenation of the stripped parts. |
| Text.StripCommasKeepsOthers | tree.py:78 | Every character other than a comma is kept, as often as it occurs. |
| Text.StripCommasIdempotent | tree.py:78 | Stripping commas twice gives the same result as stripping once. |
| Enrichment.Classify | tree.py:62-70 | The type is one of the four labels. "AU QR" wins whenever it occurs. "IMPS" wins only without "AU QR". "PSP SETTLEMENT" wins only without both of those. "Other" is returned exactly when none of the three occurs. |
| Enrichment.CleanBalance | tree.py:78 | The balance cleaning changes only commas: comma-free text goes to the parser as it is. A cell that is a lone `-` after comma removal is parsed like any other text, not read as 0. |
| Enrichment.CleanAmount | tree.py:82-83 | A debit or credit cell fails exactly when it is not a lone `-` after comma removal and its comma-free text does not parse. A lone `-` reads as 0. Otherwise the value is the parse of the comma-free text. |
| Enrichment.BalanceLacksDashRule | tree.py:78-83 | The balance cleaning and the debit/credit cleaning agree on every cell except one that is a lone `-` after comma removal. That cell reads as 0 only as a debit or credit. |
| Enrichment.CleaningIgnoresCommas | tree.py:78-83 | Both cleanings see a cell only through its comma-free text: cleaning the comma-free text gives the same result as cleaning the cell. |
| Enrichment.ParseColumn | tree.py:78-83 | A column converts exactly when every one of its cells parses. Cell i of the result is cell i's parsed value. |
| Enrichment.PreviousBalances | tree.py:80 | Row 0's previous balance is its own balance. For i > 0, row i's previous balance is the balance of row i-1. |
| Enrichment.Ratio | tree.py:93 | The divisor is 1 exactly when the previous balance is 0. Otherwise the ratio times the previous balance is the amount. |
| Enrichment.Enrich | tree.py:78-94 | The load fails with the balance column's error, then on an empty table, then with the debit column's error, then with the credit column's error, then on a date. Each failure happens exactly when the earlier steps succeed and that step does not. On success: row i comes from raw row i. Commas are stripped from all three amounts. A debit or credit that is exactly `-` after stripping is 0; balance has no such rule. Previous balance, amount = credit - debit, type, ratio, and the per-date count, totals and sequence hold as stated above and below. |
| Enrichment.Load | tree.py:76-96 | The load fails exactly when enrichment fails, and with the same error. On success the table is ordered by (date key, sequence number) and is a permutation of the enriched rows in file order. |
| Daily.CountIsGroupSize | tree.py:88 | The per-date count equals the number of rows whose raw date matches. |
| Daily.SequenceWithinGroup | tree.py:92 | A row's sequence number lies between 1 and the size of its date group. |
| Daily.SequenceIncreasesInGroup | tree.py:92 | Within a date group, a later row has a strictly larger sequence number, so numbers never repeat. |
| Daily.SequenceCoversGroup | tree.py:88-92 | Every number from 1 to the group's size is the sequence number of some row in the group. Together with the two lemmas above, the numbers in a group are exactly 1..count. |
| Daily.DailyColumns | tree.py:88-92 | A single pass with running per-date maps, followed by a read-back pass, produces for every row: the number of rows with its raw date; the debit and credit sums over those rows; and 1 plus the number of earlier rows with the same raw date. These are the values of the reference definitions `CountOf`, `SumOf` and `SequenceAt`. |
| Sorting.SortBy | tree.py:96 | The result is ordered by (date key, sequence number) and is a permutation of the input. |
| Session.ToRecord | tree.py:78-94 | A loaded row, as `iterrows` hands it to the tree (tree.py:129), has exactly thirteen columns. `Trans Date` is a timestamp after tree.py:94. `Description/Narration` and `Transaction Type` are strings, and the ten amount and derived columns are numbers. `Transaction Type` holds the row's type. |
| Session.DateBoundRaises | tree.py:52-60 | A `>=` or `<=` split on `Trans Date` whose value parses raises `TypeError` on every loaded row. |
| Session.NumberEqualityGoesRight | tree.py:53-60 | An `==` split on any number column sends every loaded row right, whatever its value. |
| Session.TableRows | tree.py:129 | `iterrows` yields one row per table row, in table order. Row i carries table row i's index label and its typed record. |
| Session.PredictTable | tree.py:120-131 | Batch prediction on the loaded table. The guards come first: an empty table, then a missing root. The batch succeeds exactly when the tree evaluates on every row's record. Entry i then pairs table row i's index label with the tree's answer on that row's record. |
| Session.LoadedTablePassesGuard | tree.py:76-96 | A table that loaded has exactly one row per CSV row and at least one row. The empty-table guard of `predict_gui` (tree.py:121) therefore never fires after a successful load. |
| Session.LoadedRowClassified | tree.py:84-96 | After the sort, every row of the loaded table still carries the transaction type its own description gives. |
| Session.FlagImps | tree.py:53-131 | On any table that loaded, batch prediction with the IMPS tree always succeeds. It gives one entry per table row, in table order, with that row's index label. The entry is "Fraud" exactly when the row's description mentions "IMPS" and not "AU QR". |
| Session.ImpsTreeFlagsImps | tree.py:53-70 | On any enriched row, a tree that splits on `Transaction Type == IMPS` answers "Fraud" exactly when the description contains "IMPS" and not "AU QR". Otherwise it answers "Not Fraud". |

## Left out

- The Tkinter window, buttons, labels, message boxes, `current_path.set`
  and `update_idletasks` (tree.py:26-27, 37, 40, 135-157). They are
  presentation only.
- File dialogs, `read_csv` and `to_csv` (tree.py:73, 77, 103-108). Rows
  arrive as a sequence of the five source columns. Any further CSV columns
  are not modelled.
- `save_csv` and the merge at tree.py:107. The merge assigns predictions by
  pandas index label, not by position. The model stops at the list of
  predictions, each paired with its row's index label.
- `build_tree_gui` (tree.py:113-118). Its empty-table guard only decides
  whether the build dialog opens.
- Split values that `float()` reads as nan or ±inf. `Option<real>` has no
  such values. In the source, a nan split value under `>=` or `<=` compares
  False with every number and so sends every numeric record right, and
  `>= inf` is False for every finite number.
- Float rounding, NaN cells, and the text formats `float()` and
  `pd.to_datetime` accept. Amounts are exact reals, and both parsers are
  abstract parameters.
- A column that pandas reads as numbers has no `.str` accessor, so the load
  fails on it. The model's cells are always text.
- Cancelled dialogs (`askstring` returning `None`). Script answers are
  plain strings. A script that runs out before the tree is complete gives
  `None`: the interactive program would still be waiting for an answer.
- Nodes with other combinations of fields. `Node` has exactly the two
  shapes the builder creates.
- The global `df` and `tree`. The table and the tree are passed
  explicitly. When a load fails, the source has already replaced `df` with
  the partly processed frame. The model returns an error and no table.
- Enrichment.Load: the contract does not fix the order of rows with equal
  (date key, sequence number). Such ties can occur when two different date
  texts parse to the same date. pandas' order for ties is not modelled.
- Batch.PredictAll: an exception in the source escapes the Tk callback.
  The model reports it as a `RowFailed` result.
