# DISCO data simulator: a model of the synthetic record generator

This project models `generate_and_save_synthetic_data` of the DISCO data
simulator (app.py:8-64) and proves properties of it. For each customer, the
generator writes one row per month of synthetic electricity-meter records.
It marks a sampled sub-population of customers as tampering and gives each
of them a contiguous window of tampering months. It then applies two layers
of missing readings. The first is a 10% null draw inside tampering months.
The second is a background 0.5% null mask per numeric column, which only
touches rows outside tampering months. Finally it sorts the table by
(`customer_id`, `month`).

The model works as follows:

- Every random draw of a run is an input, a `Generator.Draws` value:
  - the permutation behind `choice(replace=False)`;
  - each customer's payment history, category, tamper duration and start month;
  - the per-month `rand() < 0.1` outcomes;
  - the two background masks.

  `Generator.DrawsFit` requires the draws to have numpy's shapes and ranges:
  - `randint(2, 6)` gives 2..5;
  - `randint(3, high)` gives 3..high-1 when that range is non-empty.
- A numeric reading is `Present` or `Missing`. Its value is not modelled.
- The row-emission loops are modelled by `Generator.BuildRows`, whose `while` loop over customers calls `Generator.EmitCustomerRows`, the `while` loop over months.
- The background pass is modelled by `Generator.NullColumn` and `Generator.ApplyBackgroundNulls`. They update an `array<Row>` in place, as `df.loc[...] = np.nan` updates the frame.
- The whole run is `Generator.GenerateSyntheticData`. It is proved equal to the functional description `Generator.SyntheticData`, and the lemmas in `GeneratorProperties` are about that function.

Behaviour of the code that the model keeps:

- **Sample size.** The tampering sample size is `int(num_customers * tampering_rate)`, which truncates toward zero rather than rounding: 7 customers at rate 0.5 give a sample of 3, not 4.
- **Sampling errors.** `np.random.choice(..., replace=False)` raises in these cases, checked in numpy's order:
  - the population is empty and the size is not 0;
  - the size exceeds the population;
  - the size is negative.

  Otherwise the sample is the first `size` entries of a permutation.
- **Start-month error.** `randint(3, num_months - d + 1)` raises when `num_months < d + 3`. The whole run then fails (`EmptyStartMonthRange`). With fewer than 8 months, a tampering customer can therefore crash the generator.
- **Empty table error.** When the loops emit no rows, `pd.DataFrame([])` has no columns. `df['is_tampering_month']` at app.py:59 then raises `KeyError` (`MissingColumn`). This happens when there are no customers or no months, provided the earlier checks pass.
- **No tampering in the last month.** The start month is at most `num_months - d`. So a tampering window never includes month `num_months` (`GeneratorProperties.TamperingWindow`).
- **ID order.** Zero padding makes string order agree with numeric order only below 100000 customers (`CustomerIds.CustomerIdOrder`). From customer 100000 on, IDs have six digits:
  - string order then differs from numeric order (`CustomerIds.CustomerIdOrderPastPadding`);
  - the final sort really reorders rows (`GeneratorProperties.FinalTableReorderedPastPadding`).

  Below 100000 customers the sort leaves the rows in the order the loops emitted them (`GeneratorProperties.FinalTableInGeneratedOrder`).

Modules:

- `Wrappers`: Option and Result.
- `StringOrder`: Python's comparison of `str` values.
- `CustomerIds`: `f'CUST_{i:05d}'`.
- `Records`: the row datatype.
- `RowOrder`: the (`customer_id`, `month`) order and the sort.
- `Generator`: the operations.
- `GeneratorProperties`: the properties of a run.

## Model

| member | source | states |
|---|---|---|
| StringOrder.StrLess | app.py:61 | Python's `<` on `str`: the first differing character decides, and a proper prefix sorts first |
| CustomerIds.ZeroPadded | app.py:10 | `{i:05d}`: all digits, at least `width` of them |
| CustomerIds.CustomerId | app.py:10 | the ID `CUST_` followed by the zero-padded number |
| RowOrder.KeyLess | app.py:61 | the sort key: customer_id under Python's string order, then month |
| Generator.CustomerIdList | app.py:10 | the ID list, customer i at position i |
| Generator.SampleSize | app.py:14 | the sample size `int(num_customers * tampering_rate)` |
| Generator.TamperingCustomers | app.py:12-16 | the tampering sample drawn from the ID list |
| Generator.StartRangeNonEmpty | app.py:28 | `randint(3, num_months - d + 1)` has a value to draw |
| Generator.TamperDuration | app.py:27 | the sampled customer's drawn duration, 0 for any other customer |
| Generator.TamperStartMonth | app.py:28 | the sampled customer's drawn start month, -1 for any other customer |
| Generator.InTamperingWindow | app.py:35 | the month condition: a sampled customer, with start ≤ month < start + duration |
| Generator.MonthRow | app.py:30-53 | one inner-loop row: both readings missing iff a window month drew the 10% null; the month label iff inside the window |
| Generator.CustomerRows | app.py:30-53 | one customer's rows for months 1 to num_months |
| Generator.Table | app.py:18-53 | the customers' rows concatenated in ID-list order |
| Generator.WindowsFit | app.py:25-28 | every sampled customer has a start month to draw |
| Generator.Rows | app.py:18-53 | the loops' outcome: the table, or the start-month error |
| Generator.ChecksPass | app.py:12-28 | numpy accepts the sample size, and every sampled customer has a start month to draw |
| Generator.NullColumnWhere | app.py:59 | one column set missing where the mask is set and the row is not a tampering month |
| Generator.BackgroundNulled | app.py:57-59 | the consumption pass followed by the billed-amount pass |
| Generator.FinalTable | app.py:55-61 | the nulled rows sorted by (customer_id, month) |
| Generator.SyntheticData | app.py:8-61 | the run's outcome: sampling error, start-month error, empty-table `KeyError`, or the final table, in the order the source raises them |
| StringOrder.StrLessIrreflexive | app.py:61 | no ID sorts strictly before itself under Python's string comparison |
| StringOrder.StrLessTransitive | app.py:61 | string comparison is transitive |
| StringOrder.StrLessTotal | app.py:61 | any two distinct strings are ordered one way or the other |
| StringOrder.StrLessAsymmetric | app.py:61 | two strings are never each less than the other |
| StringOrder.StrLessCommonPrefix | app.py:61 | a shared prefix such as `CUST_` does not change the comparison |
| StringOrder.StrLessExtend | app.py:61 | for equal-length strings, appending anything keeps the order |
| CustomerIds.ZeroPaddedValue | app.py:10 | the `:05d` digits read back as the number |
| CustomerIds.ZeroPaddedLength | app.py:10 | a number below 10^width pads to exactly `width` digits |
| CustomerIds.ZeroPaddedOrder | app.py:10 | below 10^width, a smaller number pads to a lexicographically smaller string |
| CustomerIds.CustomerIdRoundTrip | app.py:10 | parsing `CUST_{i:05d}` returns i |
| CustomerIds.CustomerIdInjective | app.py:10 | distinct customers get distinct IDs |
| CustomerIds.CustomerIdLength | app.py:10 | an ID below 100000 is exactly 10 characters |
| CustomerIds.CustomerIdOrder | app.py:10 | for i < j < 100000, ID i sorts strictly before ID j |
| CustomerIds.CustomerIdOrderPastPadding | app.py:10 | `CUST_100000` sorts before `CUST_99999` |
| RowOrder.KeyLessIrreflexive | app.py:61 | no row sorts before itself under (customer_id, month) |
| RowOrder.KeyLessAsymmetric | app.py:61 | the sort key order is asymmetric |
| RowOrder.KeyLessTotal | app.py:61 | any two rows have equal keys or are ordered one way or the other |
| RowOrder.NotKeyLessTransitive | app.py:61 | "not after" is transitive, so the stable sort's comparison is consistent |
| RowOrder.Insert | app.py:61 | insertion keeps the rows as a multiset and adds one |
| RowOrder.SortByKey | app.py:61 | the sort returns a permutation of its input |
| RowOrder.InsertSorted | app.py:61 | inserting into a sorted table keeps it sorted |
| RowOrder.SortByKeySorted | app.py:61 | the result is sorted by (customer_id, month) |
| RowOrder.SortedPermutationsAgree | app.py:61 | two sorted permutations of one table with distinct keys are equal, so any correct sort gives this result |
| RowOrder.InsertKeysDistinct | app.py:61 | insertion keeps keys distinct when the new key is new |
| RowOrder.SortByKeyKeysDistinct | app.py:61 | sorting keeps keys distinct |
| RowOrder.SortByKeyKeepsAscending | app.py:61 | a table already strictly ascending is returned unchanged |
| Generator.Trunc | app.py:14 | `int()` truncates toward zero: the result is the integer part, on both signs |
| Generator.ChooseWithoutReplacement | app.py:12-16 | fails exactly when the size is negative or exceeds the population, with numpy's error for each case; otherwise returns `size` distinct members of the population |
| Generator.TableLength | app.py:18-53 | the loops emit num_customers × num_months rows |
| Generator.GeneratedRows | app.py:18-53 | in a run whose checks pass, the loops emit num_customers × num_months rows |
| Generator.EmitCustomerRows | app.py:30-53 | the inner loop appends exactly `CustomerRows`, the customer's rows for months 1 to num_months, to `data` |
| Generator.BuildRows | app.py:18-53 | the nested loops produce exactly `Rows`: the table, or the error of the first sampled customer whose start-month range is empty |
| Generator.NullColumn | app.py:57-59 | one column pass nulls that column exactly where the mask is set and the row is not a tampering month, in place |
| Generator.ApplyBackgroundNulls | app.py:57-59 | both column passes, in place, equal the functional background pass |
| Generator.GenerateSyntheticData | app.py:8-61 | the whole run returns exactly `SyntheticData`: numpy's sampling error, the start-month error, the `KeyError` of an empty table, or the nulled and sorted table |
| GeneratorProperties.CustomerIdListDistinct | app.py:10 | the ID list has no duplicates |
| GeneratorProperties.TamperingSample | app.py:12-16 | the tampering set fails exactly on an out-of-range size; otherwise it has exactly `int(n * rate)` distinct IDs, all from the ID list |
| GeneratorProperties.SampleSizeTruncates | app.py:14 | 7 customers at rate 0.5 give 3 and -7 give -3: `int()` truncates toward zero rather than rounding |
| GeneratorProperties.SampleFitsForRateInUnitInterval | app.py:12-16 | for n ≥ 0 and rate in [0, 1], the size is the floor of n × rate and sampling succeeds |
| GeneratorProperties.TableRow | app.py:18-53 | row c × months + j is the row emitted for customer c, month j + 1 |
| GeneratorProperties.FlattenSplit | app.py:18-53 | every row index splits into a customer and a month |
| GeneratorProperties.TableRowSplit | app.py:18-53 | every emitted row is some customer's row for some month |
| GeneratorProperties.TableRowColumns | app.py:30-53 | row c × months + j has: customer c's ID; month j + 1; its payment history and category; the customer label iff sampled; the month label iff the month is inside [start, start + duration); both readings missing iff a tampering month drew the 10% null |
| GeneratorProperties.TableLabelInvariants | app.py:34-52 | before the background pass: the two readings are missing together; only tampering months have missing readings; a non-tampering customer has no tampering month |
| GeneratorProperties.PerCustomerConstants | app.py:22-52 | payment history, category and customer label are constant across a customer's rows |
| GeneratorProperties.TableKeysDistinct | app.py:18-53 | no two emitted rows share (customer_id, month) |
| GeneratorProperties.TableAscending | app.py:18-53 | below 100000 customers the loops emit rows in strictly ascending key order |
| GeneratorProperties.TableOutOfOrderPastPadding | app.py:18-53 | beyond 100000 customers the emitted rows are not sorted |
| GeneratorProperties.CountTamperingMonthsPrefix | app.py:30-42 | the tampering months among a customer's first k rows are those of the window up to k |
| GeneratorProperties.TableSlice | app.py:18-53 | customer c's num_months rows of the table are exactly the rows its inner loop emitted |
| GeneratorProperties.TamperingCustomerRows | app.py:30-42 | a tampering customer's month label holds exactly inside [start, start + duration), and the labels number the window's months up to the last month |
| GeneratorProperties.TamperingWindow | app.py:27-42 | a sampled customer has duration 2..5 and start ≥ 3; the window ends before the last month; the month label holds exactly inside the window; there are exactly `duration` tampering months |
| GeneratorProperties.WindowsFitNeedsMonths | app.py:27-28 | the start-month draw is possible for every sampled customer iff num_months ≥ duration + 3 for each |
| GeneratorProperties.BackgroundPass | app.py:57-59 | the pass: keeps the length; leaves tampering-month rows untouched; changes only the two readings; makes a reading missing iff it already was, or its mask is set outside a tampering month |
| GeneratorProperties.BackgroundPassAt | app.py:57-59 | the row-by-row form of the background pass |
| GeneratorProperties.BackgroundKeepsKeys | app.py:57-59 | the background pass keeps key order and key distinctness |
| GeneratorProperties.SyntheticDataOutcome | app.py:8-61 | a bad size fails with a sampling error. The run succeeds iff the sampling and start-month checks pass and there is at least one customer and one month; it then returns the final table. With a valid size, the start-month error occurs iff some sampled customer has fewer than duration + 3 months. Once both checks pass, the run fails iff the table is empty, and then with `MissingColumn` |
| GeneratorProperties.NoCustomersRaisesKeyError | app.py:55-59 | with no customers the run fails with the empty frame's `KeyError`, whatever the months and the rate |
| GeneratorProperties.NegativeMonthsRaiseStartMonthError | app.py:12-28 | one customer, sampled at rate 1.0 with `num_months = -1`: the run fails on the start-month `randint`, not with a sampling error or the `KeyError` |
| GeneratorProperties.FinalTableSorted | app.py:55-61 | the final table: has n × m rows; is sorted and has distinct keys; is a permutation of the nulled rows; is the only sorted permutation of them |
| GeneratorProperties.FinalTableInGeneratedOrder | app.py:18-61 | below 100000 customers the sort is the identity on the nulled rows |
| GeneratorProperties.FinalTableReorderedPastPadding | app.py:18-61 | beyond 100000 customers the sort changes the row order |
| GeneratorProperties.NulledRowColumns | app.py:30-59 | after the background pass, row c × months + j satisfies all the column facts. A reading is missing iff, inside the tampering window, the 10% null was drawn; or, outside it, that column's mask is set |
| GeneratorProperties.FinalTableRow | app.py:8-61 | below 100000 customers, the same column facts hold for row c × months + j of the final sorted table |

## Left out

- The float-valued readings are not modelled: `np.random.uniform`, `np.random.normal`, `max(0, ...)`, the reduction factor and the tariff (app.py:19-20, 31-32, 36-38). Each reading is only `Present` or `Missing`; the draws that do not affect the structure of the table are not inputs.
- Probabilities are not modelled: the weights of `np.random.choice(..., p=...)` (app.py:22-23), the meaning of `rand() < 0.1` and `< 0.005`, and the uniformity of the sample. Their outcomes are inputs.
- `np.random.seed(42)` (app.py:6) and the random generator's state are left out, because every draw is an input.
- Generator.SampleSize: computes `int(n * rate)` from the exact real product. The rounding of the floating-point multiplication before truncation is not modelled; for example, Python gives `int(100 * 0.29) == 28`, where the model gives 29. A NaN or infinite `tampering_rate` cannot be expressed as a `real`, so the `ValueError` or `OverflowError` that `int()` raises on it (app.py:14) is not modelled either.
- `df.to_csv(filename)` and the returned file name (app.py:63-64) are file output and are left out.
- `run_simulator` and the Gradio interface (app.py:66-82) are user interface and are left out. `run_simulator` passes its arguments through unchanged. The model's `num_customers` and `num_months` are integers: a non-integer count, such as a float from `gr.Number`, makes `range()` at app.py:10 raise `TypeError`, and that is not modelled.
- Negative `num_customers` or `num_months` give empty ranges (`Generator.RangeLength`). The run then fails, as in the source:
  - with numpy's sampling error when the size is out of range;
  - with the start-month error when the size is in range but not 0 and `num_months` is negative (`GeneratorProperties.NegativeMonthsRaiseStartMonthError`);
  - with the `KeyError` of the empty table otherwise.
- Generator.NullColumn: `mask & (df['is_tampering_month'] == 0)` is vectorised in pandas; it is modelled as a loop over the rows, which gives the same result because each row is updated independently.
- RowOrder.SortByKey: pandas' `sort_values` is modelled by an insertion sort. `RowOrder.SortedPermutationsAgree` shows the result is the only sorted permutation, since the keys are distinct. So no other algorithm could give a different table. `reset_index` only renumbers rows, and row positions are already indices in the model.
- The DataFrame construction (app.py:55) is modelled as copying the row list into an array. Column dtypes such as `NaN` forcing floats are not modelled.
