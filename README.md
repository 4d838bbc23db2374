# Query-intent execution engine, modelled in Dafny

This project models the core of a fleet-telemetry question answering tool.
A natural-language question is turned elsewhere into a **query intent**:
AND-ed filter conditions, an optional sort column and direction, and an
optional row limit. The **query engine** then checks the intent against a
table's columns and executes it over an in-memory table: filter, sort,
truncate, renumber.

The model covers the engine class `QueryEngine` and the intent data model:

| Dafny module | file | models |
|---|---|---|
| `QueryTypes` | `query_types.dfy` | `src/types/query_types.py`: the `SortOrder` and `FilterOperator` enumerations, `FilterCondition`, and `QueryIntent` with its field defaults (Dafny default parameters) |
| `Ordering` | `ordering.dfy` | how a cell compares with a filter value: numbers numerically, strings by character code as Python `str` does; the six operators |
| `Frames` | `frames.dfy` | the part of a pandas `DataFrame` the engine uses: a schema of typed columns, rows addressed by position, boolean-mask selection, `sort_values`, `head`, `reset_index`, as a `DataFrame` class whose methods return new frames |
| `Engine` | `query_engine.dfy` | `src/query_engine.py`: `Validate` and `Execute` as specification functions, the `QueryEngine` class with `ValidateQueryIntent`, `ExecuteQuery` and its filter loop `FilterCopy` proved against them, and the properties of execution |
| `Sample` | `sample.dfy` | the four-vehicle table of `tests/test_query_engine.py` and the results its tests expect |

Representation choices:

- A row is a `map<string, Scalar>` with `Scalar = Num(int) | Str(string)`.
  Python `int` and `float` values are both `Num`. A fractional column is
  kept as a fixed-point integer in tenths, so `battery_health_percent`
  92.4 is `Num(924)` and the test threshold 90 is `Num(900)`.
- A table's schema maps each column to the kind of its values (`NumKind`
  or `StrKind`). `WellFormed` says every row has exactly those columns.
- `validate_query_intent` raises `ValueError` or returns `True`. The model
  returns `Outcome.Fail(MissingFilterColumn(c))`,
  `Fail(MissingSortColumn(c))` or `Pass`. `Message` gives the raised text.
- `execute_query` can raise through pandas. The model returns
  `Err(KeyError(c))` for a column the table lacks, met in the same order as
  the code meets it. It returns `Err(TypeMismatch(..))` for `>`, `<`, `>=`
  or `<=` between a column and a value of the other kind. `==` and `!=`
  between kinds do not raise: pandas answers all-false and all-true, and
  so does the model.
- `if query_intent.sort_by:` treats an empty string as unset. The model
  does the same in `SortColumn`, in validation as well as in execution.

Behaviours of the code that the model keeps on purpose:

- The sort is pandas' default `sort_values`, which is not stable. Only
  sortedness and permutation are proved; nothing is claimed about ties.
- `sort_order == NONE` with a sort column sorts descending
  (`NoneSortsDescending`), because the code tests only for `ASC`.
- `limit` may be any integer. `head(-k)` drops the last `k` rows, and the
  model does the same (`HeadRows`).
- A validation error is a `ValueError` whose only payload is its message,
  which names the column (`Message`).
- Validation checks column names only. A comparison between a column and
  a value of the other kind shows up when executing, as described above.

## Model

| member | source | states |
|---|---|---|
| `QueryTypes.SortOrderClosed` | src/types/query_types.py:10-13 | a sort order is one of exactly three distinct values, each found again from its enumeration value |
| `QueryTypes.SortOrderOf` | src/types/query_types.py:10-13 | looking a sort order up by its value yields only an order carrying that value |
| `QueryTypes.OperatorClosed` | src/types/query_types.py:16-22 | an operator is one of exactly six distinct values, each found again from its symbol |
| `QueryTypes.OperatorOf` | src/types/query_types.py:16-22 | looking an operator up by a symbol yields only the operator with that symbol |
| `QueryTypes.OperatorOfRejectsOthers` | src/types/query_types.py:16-22 | a string that is none of the six symbols names no operator |
| `QueryTypes.IntentDefaults` | src/types/query_types.py:36-50 | an intent given only its query plan has no filters, no sort column, order DESC and no limit |
| `Ordering.StrLe` | src/query_engine.py:33-40 | Python's `<=` on strings, by character code; a prefix of a string comes first (total order: `LeTotalOrder`) |
| `Ordering.Le` | src/query_engine.py:33-40 | the order of cells: a value precedes itself, and a value that does not precede another differs from it and, between strings, follows it (total order: `LeTotalOrder`) |
| `Ordering.Holds` | src/query_engine.py:31-42 | the six operators on a cell and a value: on equal values exactly `==`, `>=`, `<=` hold; `>` and `>=` hold only when the value does not exceed the cell, `<` and `<=` only when the cell does not exceed the value |
| `Ordering.LeTotalOrder` | src/query_engine.py:33-40 | the order used by the ordering operators and by the sort is reflexive, total, antisymmetric and transitive |
| `Ordering.NumericOperators` | src/query_engine.py:31-42 | on numbers EQ, GT, LT, GTE, LTE, NEQ are `==`, `>`, `<`, `>=`, `<=`, `!=` |
| `Ordering.StringOperators` | src/query_engine.py:33-40 | on strings LT and GT are the strict forms of one lexicographic order, and GTE and LTE add equality |
| `Ordering.MixedKindEquality` | src/query_engine.py:31-32 | equality between a number and a string is false, and inequality is true |
| `Frames.Satisfies` | src/query_engine.py:31-42 | one boolean-mask entry: a row satisfies a condition on a cell equal to the value exactly for `==`, `>=` and `<=` |
| `Frames.SatisfiesAll` | src/query_engine.py:30-42 | the conditions are AND-ed: a row passes iff it satisfies every listed condition (row selection: `SelectMembership`) |
| `Frames.Select` | src/query_engine.py:30-42 | filtering never yields more rows than it is given |
| `Frames.SelectCount` | src/query_engine.py:30-42 | each satisfying row is kept exactly as often as it occurs in the input; other rows are dropped |
| `Frames.SelectSubMultiset` | src/query_engine.py:30-42 | filtering yields a sub-multiset of its input |
| `Frames.SelectMembership` | src/query_engine.py:30-42 | a row is kept iff it is an input row satisfying every condition (AND semantics) |
| `Frames.SelectIsSubsequence` | src/query_engine.py:30-42 | kept rows keep their original relative order |
| `Frames.SelectNarrowing` | src/query_engine.py:30-42 | narrowing by one more condition equals filtering by the extended condition list |
| `Frames.SelectOrderIrrelevant` | src/query_engine.py:30-42 | the result depends only on which conditions are listed, not on their order or repetition |
| `Frames.Insert` | src/query_engine.py:47 | insertion into a row sequence adds exactly that row |
| `Frames.InsertSorted` | src/query_engine.py:47 | insertion into a sorted sequence keeps it sorted |
| `Frames.SortRows` | src/query_engine.py:45-47 | sorting by a column yields a permutation of its input, non-decreasing when ascending and non-increasing otherwise |
| `Frames.HeadRows` | src/query_engine.py:50-51 | `head(n)` is a prefix of its input, of length `min(n, len)` for `n >= 0` and `max(0, len + n)` for negative `n` |
| `Frames.DataFrame.constructor` | tests/test_query_engine.py:42 | a frame holds exactly the given columns and rows |
| `Frames.DataFrame.Copy` | src/query_engine.py:27 | `copy()` returns a fresh frame with the same columns and rows |
| `Frames.DataFrame.Where` | src/query_engine.py:31-42 | a boolean mask on one condition returns a fresh frame holding the satisfying rows in order |
| `Frames.DataFrame.SortValues` | src/query_engine.py:47 | `sort_values` returns a fresh frame holding the sorted rows |
| `Frames.DataFrame.Head` | src/query_engine.py:51 | `head` returns a fresh frame holding the leading rows |
| `Frames.DataFrame.ResetIndex` | src/query_engine.py:53 | `reset_index(drop=True)` returns a fresh frame with the same rows, numbered from zero |
| `Engine.SortColumn` | src/query_engine.py:20 | a sort column is in effect iff `sort_by` is set and non-empty |
| `Engine.FirstMissingFilter` | src/query_engine.py:15-19 | it finds the first filter whose column is missing, with every earlier filter column present, or none when all are present |
| `Engine.Validate` | src/query_engine.py:12-24 | validation passes iff every filter column and any non-empty sort column exist; a sort-column error means every filter column exists; a filter-column error names a missing filter column |
| `Engine.ValidateErrorOrder` | src/query_engine.py:15-19 | when filter `k` is the first with a missing column, validation reports exactly that column |
| `Engine.Message` | src/query_engine.py:17-22 | the raised text starts with "Column '" for a filter column and "Sort column '" for the sort column, followed by the column name, a closing quote and " does not exist" |
| `Engine.QueryEngine.constructor` | src/query_engine.py:9-10 | the engine holds the given frame itself, not a copy |
| `Engine.QueryEngine.ValidateQueryIntent` | src/query_engine.py:12-24 | the loop over the filters, then the sort check, returns what `Validate` specifies |
| `Engine.StepError` | src/query_engine.py:30-42 | a condition can be evaluated iff its column exists and, for an ordering operator, the value's kind matches the column's |
| `Engine.FirstStepError` | src/query_engine.py:30-42 | it finds the first condition that cannot be evaluated, with every earlier one evaluable |
| `Engine.ApplyFilters` | src/query_engine.py:30-42 | the filter stage succeeds iff every condition can be evaluated, then with the rows satisfying all of them; a failure is the error of some listed condition (the first one: `FilterStageErrors`) |
| `Engine.SortStage` | src/query_engine.py:44-47 | with a sort column the rows are permuted into ascending order for `ASC` and descending otherwise; a missing sort column is a `KeyError` naming it; without one the rows pass unchanged |
| `Engine.LimitStage` | src/query_engine.py:49-51 | the limit stage keeps a prefix of the rows, of the length `LimitedLength` gives: all rows without a limit, `min(n, len)` for `n >= 0`, all but the last `-n` otherwise |
| `Engine.Execute` | src/query_engine.py:26-53 | executing an intent fails iff some condition cannot be evaluated or the sort column is missing, and a `KeyError` always names a column the table lacks (results: `ExecuteLength`, `ExecuteRows`, `ExecuteSorted`) |
| `Engine.QueryEngine.FilterCopy` | src/query_engine.py:27-42 | the filter loop over a copy, with invariant "the copy is the input filtered by the first `i` conditions", returns the filter stage's result or the first condition's error |
| `Engine.QueryEngine.ExecuteQuery` | src/query_engine.py:26-53 | execution leaves the engine's frame unchanged and returns a fresh frame whose rows are `Execute` of the table, or `Execute`'s error |
| `Engine.NarrowingStep` | src/query_engine.py:30-32 | one pass of the loop narrows the selection by the first `i` conditions to the selection by the first `i + 1` |
| `Engine.FilterStageSemantics` | src/query_engine.py:30-42 | after the filter stage a row is present iff it is a table row satisfying every condition, and order is kept |
| `Engine.FilterStageErrors` | src/query_engine.py:30-42 | the filter stage fails with the error of the first condition that cannot be evaluated |
| `Engine.ValidatedIntentExecutes` | src/query_engine.py:12-53 | a validated intent never hits a missing column, and executes without error when its ordering conditions match their columns' kinds |
| `Engine.KeyErrorMatchesValidation` | src/query_engine.py:12-53 | a missing column met during execution is exactly the column validation would have reported |
| `Engine.ExecuteSorted` | src/query_engine.py:45-51 | with a sort column the result is non-decreasing for ASC and non-increasing otherwise, also after truncation |
| `Engine.ExecuteLength` | src/query_engine.py:50-53 | the result has `LimitedLength` rows: `min(n, filtered)` for a limit `n >= 0`, `max(0, filtered + n)` for a negative limit `n`, all filtered rows without a limit; never more rows than the table |
| `Engine.ExecuteRows` | src/query_engine.py:26-53 | result rows are filtered rows, which are table rows; without a sort the result is a prefix of the filtered rows; without truncation it is a permutation of them |
| `Engine.SortedPrefixPrecedes` | src/query_engine.py:47-51 | in a sorted sequence every row of a prefix may precede every row after it |
| `Engine.ExecuteKeepsLeadingRows` | src/query_engine.py:45-51 | a truncated sorted result keeps the leading rows: each kept row may precede each filtered row cut off |
| `Engine.LimitZeroIsEmpty` | src/query_engine.py:50-51 | a limit of zero gives an empty result |
| `Engine.NoneSortsDescending` | src/query_engine.py:46 | a sort column with order NONE sorts exactly as DESC does |
| `Engine.QueryPlanIrrelevant` | src/query_engine.py:26-53 | changing only the query plan never changes the result |
| `Engine.DefaultIntentReturnsTable` | src/query_engine.py:26-53 | an intent with default fields, or with an empty sort column name, returns the whole table in its order |
| `Sample.FleetSampled` | tests/test_query_engine.py:12-37 | the sample table carries the four vehicles' ids, battery readings and odometers, and every row has the table's columns |
| `Sample.FleetWellFormed` | tests/test_query_engine.py:12-37 | the sample table is a well-formed table of its four columns: every row has them all, each holding a value of the column's kind |
| `Sample.SampleEngine` | tests/test_query_engine.py:39-43 | the fixture: a fresh engine over a fresh frame holding the sample table |
| `Sample.ValidationOnEngine` | tests/test_query_engine.py:47-69 | the engine's validation method passes the valid intent and reports `non_existent_col` and `random_col` as the missing filter and sort columns |
| `Sample.ValidIntentScenario` | tests/test_query_engine.py:47-53 | an existing filter column and an existing sort column pass validation |
| `Sample.InvalidFilterColumnScenario` | tests/test_query_engine.py:55-61 | a filter on `non_existent_col` fails, naming that column |
| `Sample.InvalidSortColumnScenario` | tests/test_query_engine.py:63-69 | sorting by `random_col` fails, naming that column |
| `Sample.FilterEqualScenario` | tests/test_query_engine.py:73-80 | equality on `vehicle_id` returns exactly that vehicle's row |
| `Sample.FilterGreaterScenario` | tests/test_query_engine.py:82-89 | battery above 95% returns exactly the 97.7% vehicle |
| `Sample.FilterAtMostScenario` | tests/test_query_engine.py:91-100 | odometer at most 41831 returns the 36744 and 41831 vehicles |
| `Sample.FilterNotEqualScenario` | tests/test_query_engine.py:102-109 | inequality on `vehicle_id` returns the three other vehicles |
| `Sample.MultipleFiltersScenario` | tests/test_query_engine.py:111-124 | battery above 90% AND odometer below 50000 returns exactly the two expected vehicles |
| `Sample.SortedEnds` | src/query_engine.py:45-47 | a sorted permutation starts with the strictly first row and ends with the strictly last |
| `Sample.SortAscendingScenario` | tests/test_query_engine.py:128-137 | ascending by battery puts the 77.4% vehicle first and the 97.7% vehicle last |
| `Sample.SortDescendingScenario` | tests/test_query_engine.py:139-148 | descending by odometer puts the 115326 km vehicle first and the 36744 km vehicle last |
| `Sample.LimitScenario` | tests/test_query_engine.py:152-158 | a limit of two keeps the first two rows |
| `Sample.CombinedScenario` | tests/test_query_engine.py:162-177 | battery above 90%, ascending by odometer, limit 1 returns exactly the CAR040TYT7D5 row |
| `Sample.SampleTableScenarios` | tests/test_query_engine.py:73-177 | every execution scenario above holds on the literal sample table |
| `Sample.FilteringOnEngine` | tests/test_query_engine.py:73-124 | the engine's execute method returns, for each filtering test, a frame holding exactly the expected rows, and leaves the engine's table as it was |
| `Sample.SortingOnEngine` | tests/test_query_engine.py:128-177 | the engine's execute method returns the expected first and last rows for the two sorting tests, the first two rows for the limit test and the CAR040TYT7D5 row for the combined test |

## Left out

- Intent generation through a language model (`src/nlu_system/`): an
  external, non-deterministic service. Intents are taken as given, and
  validation is what stands between a generated intent and execution.
- Loading the telemetry JSON and its record validation (`src/load_data.py`,
  `src/types/input_types.py`), path construction (`src/locator.py`) and the
  command line with its table printing (`main.py`): I/O and rendering.
  Only the four column names and their kinds are used, by the sample.
- Floating point: fractional values are fixed-point integers in tenths, so
  rounding and NaN are not modelled.
- Row index labels: rows are addressed by position, so the intermediate
  labels that `reset_index(drop=True)` discards are not modelled.
- Sort stability: pandas' default sort is not stable, and the model places
  ties in an order of its own that no lemma relies on.
- `Engine.StepError`: pandas raises a type error for an ordering operator
  between a string column and a number only when the frame has rows. The
  model raises it whenever the frame has no rows too, whether the table
  was empty from the start or an earlier condition emptied it.
- `Ordering.Le`: a number is placed before any string only to make the
  order total. Well-formed columns never mix kinds, so this is never used
  to compare two cells of one column.
- Python's own cross-type comparisons of `bool`, `None` and other values
  that the intent's value type excludes.
- The engine's aliasing of the caller's frame is modelled by the
  constructor. No operation here mutates a frame, so the model shows no
  effect of that aliasing.
