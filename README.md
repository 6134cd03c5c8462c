# Sales dashboard: CSV import and report aggregation

A Dafny model of the two pieces of logic in the Django sales dashboard
`d3app/views.py`:

- **The CSV importer** (`import_csv`). Each CSV row goes through a fixed
  sequence of get-or-create upserts: the customer, the product group, the
  product, the order. Then the order line keyed by (order code, product code)
  is created, or its quantity is increased. Existing entities are never
  changed. A missing or unparsable unit price becomes 0. A bad timestamp or
  quantity stops the whole import, and every earlier upsert stays in place.
- **The dashboard reports** (`data_visualization`, reports Q1 to Q12). They
  are computed from the joined order lines and the order list: group-by
  sums, per-period buckets with averages over distinct order dates,
  per-group and per-month-and-group sell probabilities, fixed label formats
  and explicit sort orders.

Modules:

| file | module | contents |
|---|---|---|
| `wrappers.dfy` | `Wrappers` | `Option` |
| `domain.dfy` | `Domain` | the entities, the tables as maps keyed by code, CSV rows, joined order lines, referential consistency |
| `importer.dfy` | `Importer` | `Step`/`ApplyAll`, the functional meaning of a row and a run of rows; their lemmas; the `Store` class, whose methods update the tables in place and are proved against `Step`/`ApplyAll` |
| `grouping.dfy` | `Grouping` | the dictionary-of-accumulators loop (`Accumulate`) proved against `Buckets`/`KeyOrder`; database GROUP BY with SUM (`GroupSums`) |
| `sorting.dfy` | `Sorting` | the stable sort applied to report rows, proved sorted and a permutation |
| `labels.dfy` | `Labels` | two-digit labels, weekday names and order, day, hour, month and group labels, code-point string order |
| `reports.dfy` | `Reports` | Q1 to Q8, Q11 and Q12 |

`int()` and `strptime` are not modelled. They are the two fields of
`Importer.Parsers`, partial functions that return `None` on rejected text.
The database's `Extract*` and `DATE` functions are not modelled either. A
`Timestamp` arrives already split into year, month, day, hour, week day
(1 = Sunday, as the database numbers it) and a calendar-date key. Averages
and probabilities are exact `real` values. A database query result is a
`seq`. A GROUP BY without ORDER BY has no defined row order; the model
chooses order of first appearance, as in `Grouping.KeyOrder`. Python dictionaries iterate in insertion order, so the
report loops list their buckets in the same order.

## Model

| member | source | states |
|---|---|---|
| Importer.GetOrCreate | d3app/views.py:22-52 | get-or-create adds the key; every existing entry keeps its value; an absent key gets the given defaults |
| Importer.AddQuantity | d3app/views.py:53-60 | the order line holds its old quantity (0 if new) plus the row's; every other order line is unchanged |
| Importer.UnitPrice | d3app/views.py:33-36 | a missing unit-price column or unparsable text gives 0; otherwise the price is the parsed integer |
| Importer.UpsertEntities | d3app/views.py:21-44 | the customer, group and product upserts leave orders and order lines untouched |
| Importer.Step | d3app/views.py:20-60 | one pass of the loop body: the three upserts, then the timestamp, the order, the quantity and the order line; its behaviour is stated by `StepUpsertsEntities`, `StepOutcome`, `StepAccumulates` and `StepConsistent` |
| Importer.StepUpsertsEntities | d3app/views.py:21-44 | after any row, even a failing one, the customer, group and product tables gain exactly the row's keys, and those entities are: the old value, or one built from the row with a blank name stored as none and a bad price as 0; nothing existing is lost or changed |
| Importer.PriceNeverFails | d3app/views.py:33-44 | the unit price never decides whether a row fails; a new product from a row with a bad or missing price has price 0 |
| Importer.StepOutcome | d3app/views.py:45-60 | a row succeeds exactly when its timestamp and quantity parse; a bad timestamp fails with no order and no order-line change; a bad quantity fails after the order exists, with no order-line change |
| Importer.StepAccumulates | d3app/views.py:46-60 | after a well-formed row, its order line holds the old quantity plus the row's, no other order line changes, and the order is the existing one or one made from the row |
| Importer.StepConsistent | d3app/views.py:21-57 | a row, even one that fails part way, keeps every reference (product to group, order to customer, order line to order and product) pointing at an existing entity |
| Importer.ApplyAll | d3app/views.py:18-66 | the loop over the rows inside one `try`, stopping at the first exception; its behaviour is stated by the `Import*` lemmas below |
| Importer.ImportNeverOverwrites | d3app/views.py:20-60 | a run of rows never changes or removes an existing customer, group, product or order, and removes no order line |
| Importer.ImportConsistent | d3app/views.py:20-60 | a run of rows keeps the tables referentially consistent |
| Importer.ImportSucceedsIff | d3app/views.py:20-66 | an import succeeds exactly when every row's timestamp and quantity parse |
| Importer.ImportAppend | d3app/views.py:20-60 | importing `a + b` is importing `a` and then, unless it failed, `b` |
| Importer.FirstFailureStops | d3app/views.py:20-66 | at the first malformed row the import stops with that row's error; earlier rows stay applied; the row's customer, group and product exist; a bad timestamp leaves orders and order lines as they were before the row |
| Importer.ImportQuantityAt | d3app/views.py:53-60 | after a successful import, each order line's quantity is its old quantity plus the quantities of all rows naming it |
| Importer.ImportLineKeys | d3app/views.py:53-60 | after a successful import, the order lines are the old ones plus the (order, product) pairs of the rows |
| Importer.ImportCovers | d3app/views.py:20-52 | after a successful import, every row's customer, group, product and order exist |
| Importer.ReimportKeepsEntities | d3app/views.py:20-52 | re-importing rows whose entities all exist changes no entity table |
| Importer.ReimportDoubles | d3app/views.py:20-60 | importing the same well-formed rows twice, starting with no order lines, succeeds, keeps the same order lines and entities, and doubles every quantity |
| Importer.Store.UpsertCustomer | d3app/views.py:22-28 | the customer table becomes the get-or-create of the old one |
| Importer.Store.UpsertGroup | d3app/views.py:29-32 | the group table becomes the get-or-create of the old one |
| Importer.Store.UpsertProduct | d3app/views.py:37-44 | the product table becomes the get-or-create of the old one |
| Importer.Store.UpsertOrder | d3app/views.py:46-52 | the order table becomes the get-or-create of the old one |
| Importer.Store.AccumulateLine | d3app/views.py:53-60 | the order-line table gets the line created or its quantity increased |
| Importer.Store.ImportRow | d3app/views.py:20-60 | the store's tables and the returned error are exactly those of `Step` on the old tables |
| Importer.Store.ImportAll | d3app/views.py:18-66 | the store's tables and the returned error are exactly those of `ApplyAll` on the old tables: rows in order, stopping at the first failure |
| Grouping.Accumulate | d3app/views.py:134-142 | the accumulator loop yields the buckets in first-insertion order and, per bucket, the summed amounts and the set of tags (`Buckets`, `KeyOrder`) |
| Grouping.BucketsCorrect | d3app/views.py:134-142 | a bucket exists exactly for the input rows' keys; it holds those rows' summed quantity and revenue and their tag set, which has at least one element |
| Grouping.KeyOrderCorrect | d3app/views.py:143-152 | the dictionary's iteration order lists each key of the input exactly once |
| Grouping.SumOverBuckets | d3app/views.py:134-152 | the buckets' totals, taken in iteration order, add up to the total of all input rows |
| Grouping.BucketsTagged | d3app/views.py:173-179 | every bucket the loop creates has a non-empty date set, so the unguarded averages never divide by zero |
| Grouping.GroupSums | d3app/views.py:93-100 | a GROUP BY yields one row per distinct key, in order of first appearance |
| Grouping.GroupSumsRows | d3app/views.py:93-100 | each GROUP BY row's key occurs in the input, and its sums are the sums over the input rows with that key |
| Grouping.GroupSumsKeys | d3app/views.py:93-100 | every input key has a GROUP BY row; that the keys are distinct is `KeyOrderCorrect` |
| Grouping.GroupSumsTotal | d3app/views.py:93-100 | the GROUP BY rows together sum to all input rows |
| Sorting.Sort | d3app/views.py:154 | the sorted rows are ordered by the given key and are a permutation of the input |
| Labels.TwoDigitsRoundTrip | d3app/views.py:119 | a zero-padded two-digit label has two characters and reads back as its number |
| Labels.TwoDigitsInjective | d3app/views.py:119 | distinct numbers get distinct two-digit labels |
| Labels.MonthTitle | d3app/views.py:260-263 | the `Tháng MM` label; `MonthTitleOrder` and `Reports.Q8JoinedKey` state its properties |
| Labels.DayLabel | d3app/views.py:166 | the `Ngày NN` label; `DayLabelKey` states that it reads back |
| Labels.HourLabel | d3app/views.py:195 | the `HH:00-HH:59` label; `HourLabelKey` states that it reads back |
| Labels.WeekdayName | d3app/views.py:137 | the name at index w-1 of the Sunday-first list; `WeekdayNameRank` states its rank and that names are distinct |
| Labels.GroupLabel | d3app/views.py:227 | the `[code] name` label of Q7 and Q8 |
| Labels.DayLabelKey | d3app/views.py:166-182 | a day label's text after its space reads back as the day |
| Labels.HourLabelKey | d3app/views.py:195-211 | an hour label's text before its first colon reads back as the hour |
| Labels.WeekdayNameRank | d3app/views.py:137-154 | week day w is named by index w-1 (1 is Sunday); its position in the Monday-to-Sunday order is (w+5) mod 7; distinct week days have distinct names |
| Labels.LexTotal | d3app/views.py:288 | any two distinct strings are ordered one way round by code-point comparison |
| Labels.TwoDigitsOrder | d3app/views.py:260-263 | two-digit labels compare as strings as their numbers do |
| Labels.MonthTitleOrder | d3app/views.py:263-288 | `Tháng MM` labels compare as strings as their months do |
| Reports.Q1 | d3app/views.py:80-90 | one line-report row per order line, in the order of the lines; `Q1FromTables` and `Q1Total` state its contents and sums |
| Reports.Q1FromTables | d3app/views.py:71-90 | each line-report row shows its line's product, group and quantity, and revenue equal to quantity times the product's unit price |
| Reports.Q1Total | d3app/views.py:80-90 | the line report's quantities and revenues sum to those of all lines |
| Reports.Q2 | d3app/views.py:93-108 | the GROUP BY (group code, group name) with summed quantity and revenue; `Q2Totals` states its rows |
| Reports.Q2Totals | d3app/views.py:92-108 | one row per (group code, group name), holding that group's summed quantity and revenue; the rows' sums equal the line report's sums |
| Reports.Q3 | d3app/views.py:111-124 | the GROUP BY month with summed quantity and revenue, labelled `MM`; `Q3Rows` and `Q3Totals` state its rows |
| Reports.Q3Rows | d3app/views.py:110-125 | each month row's label is two digits that read back as a month of the lines, and the row holds that month's sums |
| Reports.Q3Totals | d3app/views.py:111-124 | every month of the lines has a row labelled with that month, no label appears twice, and the rows sum to all lines |
| Reports.Q11 | d3app/views.py:342-352 | one row per order |
| Reports.Q11FromTables | d3app/views.py:342-352 | each row pairs an order's code with its customer's code, and that customer exists |
| Reports.Q12 | d3app/views.py:356-367 | the GROUP BY customer with summed revenue; `Q12Totals` states its rows |
| Reports.Q12Totals | d3app/views.py:355-367 | one row per customer, holding that customer's summed revenue; the rows sum to the revenue of all lines |
| Reports.PeriodTableReport | d3app/views.py:143-152 | sorted in any order, the period rows are one per bucket, each with the bucket's sums and both averages over its distinct-date count, which is at least 1 |
| Reports.Q4Entries | d3app/views.py:127-137 | the GROUP BY (week day, date) rows, keyed by weekday name and tagged by date, that the weekday loop reads |
| Reports.Q4 | d3app/views.py:127-154 | the weekday report describes every weekday bucket once, with averages over its distinct dates, ordered Monday to Sunday |
| Reports.Q4Labels | d3app/views.py:134-137 | every weekday bucket is the name of a week day of the lines, ranked (w+5) mod 7 |
| Reports.Q5Entries | d3app/views.py:156-166 | the GROUP BY (day, date) rows, keyed by `Ngày NN` and tagged by date, that the day loop reads |
| Reports.Q5 | d3app/views.py:155-182 | the day report describes every day bucket once, with averages over its distinct dates, in ascending order of the day number in its label |
| Reports.Q5Labels | d3app/views.py:164-166 | every day bucket is the label `Ngày NN` of a day of the lines, and its number reads back as that day |
| Reports.Q6Entries | d3app/views.py:185-195 | the GROUP BY (hour, date) rows, keyed by `HH:00-HH:59` and tagged by date, that the hour loop reads |
| Reports.Q6 | d3app/views.py:184-211 | the hour report describes every hour bucket once, with averages over its distinct dates, in ascending order of the hour in its label |
| Reports.Q6Labels | d3app/views.py:193-195 | every hour bucket is the label `HH:00-HH:59` of an hour of the lines, and its hour reads back |
| Reports.Q4TagIsLineDate | d3app/views.py:127-142 | the date a weekday bucket records for a query row is the date of one of the lines |
| Reports.Q5TagIsLineDate | d3app/views.py:156-171 | the date a day bucket records for a query row is the date of one of the lines |
| Reports.Q6TagIsLineDate | d3app/views.py:185-200 | the date an hour bucket records for a query row is the date of one of the lines |
| Reports.Q4OneDate | d3app/views.py:143-152 | when all orders fall on one date, each weekday row's averages equal its totals |
| Reports.Q5OneDate | d3app/views.py:172-181 | when all orders fall on one date, each day row's averages equal its totals |
| Reports.Q6OneDate | d3app/views.py:201-210 | when all orders fall on one date, each hour row's averages equal its totals |
| Reports.PeriodEntriesTotal | d3app/views.py:127-200 | the per-date query rows behind Q4, Q5 and Q6 sum to all lines |
| Reports.LinesHaveOrders | d3app/views.py:213-222 | every order line of consistent tables belongs to one of the listed orders |
| Reports.SellProbability | d3app/views.py:239 | a count over the total times 100, and 0 when the total is 0; `SellProbabilityBounds` states its range |
| Reports.SellProbabilityBounds | d3app/views.py:239 | a count no larger than the total gives a percentage between 0 and 100 |
| Reports.ShareTableReport | d3app/views.py:233-241 | sorted in any order, the share rows are one per bucket, each with the bucket's sums, its distinct-order count and that count's percentage of the key's divisor |
| Reports.Q7Entries | d3app/views.py:214-227 | the GROUP BY (order, group code, group name) rows, keyed by `[code] name` and tagged by order code, that the group-share loop reads |
| Reports.Q7OrdersBounded | d3app/views.py:213-232 | when every line's order is listed, a group's distinct orders are no more than the number of orders |
| Reports.Q7 | d3app/views.py:213-243 | the group-share report describes every `[code] name` bucket once, with distinct orders over all orders times 100 (0 with no orders), in descending order of that value; when every line's order is listed, each value is between 0 and 100 |
| Reports.Q8Entries | d3app/views.py:246-265 | the GROUP BY (order, order time, group) rows, keyed by (`Tháng MM`, `[code] name`) and tagged by order code, that the month-share loop reads |
| Reports.MonthDivisor | d3app/views.py:255-284 | a month's divisor is its order count when the month has orders, and exactly 1 when it has none |
| Reports.ByMonthThenGroupTotal | d3app/views.py:288 | comparing rows by (month label, group label) as strings relates any two rows at least one way round, which is all the sort needs |
| Reports.Q8 | d3app/views.py:245-288 | the month-share report describes every (month, group) bucket once, with distinct orders over that month's divisor times 100, ordered by month label and then group label |
| Reports.Q8JoinedKey | d3app/views.py:263-266 | the joined key `month|group` determines month and group, because month labels have fixed length |
| Reports.ShareEntriesTotal | d3app/views.py:213-256 | the per-order query rows behind Q7 and Q8 sum to all lines |

## Left out

- File opening and `csv.DictReader` are I/O. The import takes a sequence of rows with their fields as text.
- A short CSV row, where `DictReader` fills missing fields with None, is not modelled. In the program it raises a type error and fails the import.
- A missing column other than the unit price is not modelled. It raises KeyError and fails the import.
- `int()` and `strptime` are not modelled. They are parameters (`Importer.Parsers`). The CSV path and encoding are not modelled.
- `DatabaseError`, `MultipleObjectsReturned` and other database failures are not modelled, since the tables are in-memory maps that cannot fail.
- HTTP responses, decorators, `render` and `json.dumps` are presentation, and so is `d3app/urls.py`. The `try`/`except` around the import is the `error` result.
- The Django ORM, SQL `DATE` and the `Extract*` functions are not modelled. The reports take the joined order lines (`Domain.Line`) and the order list (`Domain.OrderRow`), and `Domain.LinesOf` and `Domain.OrdersOf` say when those lists come from the tables. Calendar and week-day arithmetic are not modelled: timestamps arrive decomposed.
- The database returns GROUP BY rows in no defined order. The model chooses order of first appearance, and that choice fixes the modelled row order of Q2, Q3 and Q12 and of the dictionary buckets behind Q4 to Q8, hence Q7's order among equal percentages. The rows' contents do not depend on the choice.
- Floating-point rounding of averages and probabilities is not modelled: they are exact reals.
- Q9 and Q10 are not modelled. They are the same per-order-line query and projection, and add nothing beyond Q1 and the grouping lemmas.
- In Q4, Q5 and Q6, `str(date)` is not modelled. It is injective, so the `date` key stands for it directly.
- Q8's bucket key is the pair (month label, group label), not the joined text `month|group`. `Reports.Q8JoinedKey` shows the two keyings are the same. Q8's month label is written with `strftime('%m')`, modelled as the month in two digits.
- `list.sort` sorts in place. The model sorts a sequence value with `Sorting.Sort`, an insertion sort that keeps equal rows in input order. That stability is not stated as a property.
- The Q5 and Q6 sort keys are `int()` of part of the label. The model's key is the label's digits read as a number, with 0 for text shorter than a label. `Reports.Q5Labels`/`Reports.Q6Labels` show every bucket label reads back as its number.
- Reports.Q8: no [0, 100] bound is proved for the month-share percentage.
- Concurrent imports are not modelled.
