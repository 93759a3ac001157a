# Inventory stock ledger, modelled in Dafny

This project models the core of a Django inventory-management application. It
covers four groups of code:

- **The stock-quantity ledger** (`inventory/views.py`). Its state has three parts:
  - the Quantity table, one balance per (item, department), with optional expiry and
    depreciation dates;
  - the append-only StockHistory table of deliveries;
  - the append-only IssuedOutHistory table of issues.

  Four handlers change that state: bulk receive (`item_details`), bulk issue
  (`issue_out`), engraved receive (`add_engraved_stock`) and engraved issue
  (`engraved_issue_out`). They are methods of the class `Ledger.StockLedger`. Each
  contract states the full new state, and also every failure and what a failure leaves
  untouched.
- **The read-only views** over those tables (`inventory/views.py`):
  - the delivery and LPO summaries;
  - the filtered, newest-first list of issues (`AllIssuedOutView.get_queryset`).
- **The model layer** (`inventory/models.py`):
  - the normalisation in `StockHistory.save`;
  - the age-banded `condition`;
  - the "latest stock history of this item" attributes of `IssuedOutHistory`.
- **The delivery form** (`inventory/forms.py`): `StockHistoryForm` removes the
  optional fields that the item's capability flags rule out. It is a class whose
  constructor pops fields from its field list.
- **The report builders** (`inventory/context.py`), which fold the tables in Python:
  - the guarded percentages;
  - the per-day stock movement;
  - the per-name distributions of the department report;
  - the per-department, per-category and per-item sums of the cost report.

  The loops are methods. Each is proved against a specification predicate. Lemmas
  then show that the totals equal the sums of their parts, and that row order does not
  change the sums. Row order does fix the order of the chart columns and the
  distribution labels. A Python dictionary keeps its keys in insertion order, so
  these follow the first appearance of each day or name.

## Conventions

- Money is integer cents.
- Calendar dates are day numbers.
- An issue's timestamp is in seconds; `DayOf` gives its calendar day.
- "Today" and "now" are parameters.
- Entity ids are `nat`.
- A failed `get_object_or_404`, a failed form validation and a refused request all
  become `Failure(error)` outcomes.
- Balances are a `map` keyed by (item, department). The ledger keeps that pair unique.
  An issue addresses its Quantity row by the key the caller supplies, which is never
  compared with the item being issued.

In places the code does not do what one might expect. The model follows the code:

- One might expect re-issuing an engraved unit that is already issued to fail; the
  code does not. It looks the number up without regard to the `issued` flag, so a
  second issue succeeds (`Ledger.IssuedFlagIgnored`).
- The decrement in `engraved_issue_out` is saved before the engraved number is looked
  up. A lookup that then fails still leaves the balance one lower
  (`Ledger.StockLedger.IssueEngraved`).
- The list of issues compares its end date with midnight of that day. An issue later
  on the end date is therefore not listed (`Queries.EndDateDropsRestOfDay`).
- The combined report calls `latest('date_added')` without a guard. When an issued
  item has no stock history the whole report fails (`Reports.CombinedStockMovement`
  returns `None`). The department report guards the same lookup, and there such a row
  adds no value.
- The delivery form treats item id 0 as "no item" (`if item_id:`) and then offers all
  ten fields. It also looks the item up before validation. The view's own 404 lookup
  comes only after validation.

## Model

| member | source | states |
|---|---|---|
| Models.DayOf | inventory/context.py:184-188 | the calendar day of a moment is the day whose midnight-to-midnight span contains it |
| Models.DayOfMonotone | inventory/context.py:188 | a later moment never falls on an earlier day |
| Models.Save | inventory/models.py:195-201 | a saved row's total cost is quantity × unit cost; a missing date becomes today and a present one is kept; every other field is the draft's |
| Models.SaveIgnoresTotalCost | inventory/models.py:200 | whatever total the caller passes, the saved row is the same and consistent |
| Models.ResaveIsIdentity | inventory/views.py:786-787 | saving a consistent row again (after flipping `issued`) changes nothing |
| Models.ConditionOfAge | inventory/models.py:207-216 | age < 365 gives "Newly Purchased", 365 ≤ age < 1825 gives "Functional", age ≥ 1825 gives "Obsolete", each as an if-and-only-if |
| Models.ConditionMonotone | inventory/models.py:211-216 | an older row is never in a fresher band |
| Models.LabelsDistinct | inventory/models.py:212-216 | the three bands have three different labels |
| Models.LatestIndex | inventory/models.py:293 | None exactly when the item has no stock history; otherwise a row of that item with the greatest `date_added` |
| Models.LatestDateUnique | inventory/models.py:293 | all rows that qualify as latest carry the same date, so the purchase date does not depend on how ties are broken |
| Models.IssuedUnitCost | inventory/models.py:298-305 | 0 without stock history, otherwise the unit cost of a latest row |
| Models.DatePurchased | inventory/models.py:307-314 | None exactly without stock history, otherwise the date of a latest row |
| Models.IssuedCondition | inventory/models.py:289-296 | "No Stock History" without stock history, otherwise the condition label of a latest row |
| Models.DerivedFromOneRow | inventory/models.py:289-314 | condition, unit cost and purchase date all come from one and the same latest row |
| Models.UserTitle | inventory/models.py:316-326 | None when nobody has the name, "Multiple employees found" when several do, otherwise that one employee's title |
| Forms.Removed | inventory/forms.py:89-96 | a field is removed if and only if an item is given and its flag for that field is off |
| Forms.RemovedStepwise | inventory/forms.py:91-96 | the removed set is what the three successive `pop`s remove, one flag at a time |
| Forms.KeptFields | inventory/forms.py:80-96 | a field is kept if and only if no item is given or its flag allows it; with an item, expiry, depreciation and engraved number are kept exactly when `expires`, `depreciates` and `engraved` hold |
| Forms.KeptWithoutItem | inventory/forms.py:82-89 | without an item id all ten Meta fields stay, in their declared order |
| Forms.MandatoryFieldsAlwaysKept | inventory/forms.py:82-96 | quantity, unit cost, LPO, supplier, delivery number, department and date added are kept whatever the flags |
| Forms.Without | inventory/forms.py:92 | popping a field leaves exactly the other fields |
| Forms.StockHistoryForm.constructor | inventory/forms.py:85-96 | the form's fields are the Meta fields less those its item's flags rule out |
| Forms.StockHistoryForm.PopField | inventory/forms.py:91-96 | each pop removes one more field from the declared list |
| Forms.StockHistoryForm.Pop | inventory/forms.py:92 | `fields.pop(f)` leaves the other fields in order |
| Ledger.FormItem | inventory/forms.py:88-90 | id 0 means no item; any other id means that item |
| Ledger.OfferedDates | inventory/views.py:170-173 | the form built for the item offers an expiry date or a depreciation date exactly when the item's flags keep that field |
| Ledger.EngravedRows | inventory/views.py:692-706 | one row per engraved number, in order, each of quantity 1 with its own number, total cost equal to the unit cost, not issued |
| Ledger.RowsWithEngraved | inventory/views.py:784 | the positions of exactly the rows with that engraved number, in increasing order |
| Ledger.IssuedFlagIgnored | inventory/views.py:784-787 | marking a unit issued does not change which rows the engraved-number lookup finds |
| Ledger.StockLedger.IssueLookup | inventory/views.py:257-266 | no error exactly when the Quantity row, the employee in that department, the department and the item all exist; the Quantity row is looked up first |
| Ledger.StockLedger.SaveStock | inventory/models.py:195-201 | appends the saved row and keeps every row consistent |
| Ledger.StockLedger.Credit | inventory/views.py:176-197 | adds the quantity to the (item, department) row or creates it; an offered date overwrites the stored one and otherwise it is kept |
| Ledger.StockLedger.ReceiveBulk | inventory/views.py:162-198 | unknown item or invalid form fails and changes nothing; success appends exactly one saved row and raises exactly that balance by the quantity, overwriting only the dates the form offers |
| Ledger.StockLedger.IssueBulk | inventory/views.py:249-288 | a failed lookup or an amount above the balance fails and changes nothing; success lowers the row by the amount and appends one issue row with the recipient, department and office copied |
| Ledger.StockLedger.ReceiveEngraved | inventory/views.py:673-721 | unknown item, count mismatch or unknown department writes nothing; success appends one quantity-1 row per number and raises only that balance by their count |
| Ledger.StockLedger.IssueEngraved | inventory/views.py:755-802 | a failed lookup or a zero balance changes nothing; otherwise the balance drops by 1 first, then a unique matching row is marked issued and one issue row appended, and no match or several matches fail with the balance already lowered |
| Queries.ItemsOfBound | inventory/views.py:565 | there are no more distinct items than rows |
| Queries.Summarise | inventory/views.py:552-565 | the total value is the sum of total cost; the item count is the number of distinct items, 0 exactly when there are no rows; one line per row carrying its name, quantity, unit cost and total |
| Queries.DeliveryDetails | inventory/views.py:541-565 | the summary of exactly the rows with that delivery number; 0 value and 0 items when none match |
| Queries.FirstWithLpo | inventory/views.py:637 | None exactly when no row has the LPO; otherwise the position of a row with it, and no earlier row has it |
| Queries.LpoDetailsOf | inventory/views.py:611-637 | the summary of the rows with that LPO; "N/A" supplier and 0 value when none match, otherwise the supplier of the first matching row in insertion order (`first()`) |
| Queries.TotalCostIsValue | inventory/models.py:200 | over saved rows, the sum of total cost is the sum of quantity × unit cost |
| Queries.DeliveryValue | inventory/views.py:563 | a delivery's total value is the worth of what it delivered |
| Queries.FilterIssued | inventory/views.py:894-926 | exactly the issues that pass every filter the valid form sets, each once, sorted newest first |
| Queries.InvalidFormListsAll | inventory/views.py:904 | an invalid form lists every issue once |
| Queries.EndDateDropsRestOfDay | inventory/views.py:923-924 | an issue on the end date is listed only if it is at that day's midnight |
| Queries.StartDateKeepsWholeDay | inventory/views.py:921-922 | every issue on or after the start day passes the start filter |
| Ordering.SortDesc | inventory/views.py:926 | the result is sorted by the key, largest first, and is a permutation of the input |
| Reports.CalculatePercentage | inventory/context.py:89-90 | 0 for a non-positive whole, otherwise part / whole × 100 |
| Reports.GuardedPercent | inventory/context.py:33-38 | 0 for a zero base, otherwise part / base × 100 |
| Reports.GuardsAgree | inventory/context.py:33-38 | on counts the two guards give the same percentage |
| Reports.PercentageOfPart | inventory/context.py:89-90 | a part of a whole lies between 0 and 100 percent |
| Reports.DashboardRatios | inventory/context.py:33-38 | monthly change, low-stock percentage and turnover rate are 0 on an empty base and plain percentages otherwise |
| Reports.IssueValueOf | inventory/context.py:305-307 | an issue is worth its quantity × the latest unit cost of its item, or 0 without stock history |
| Reports.AddDeliveries | inventory/context.py:183-186 | after the delivery loop each day of a delivery has one entry holding that day's quantity and cost sums, no other days appear, and the days are listed in the order the loop first meets them |
| Reports.AddIssues | inventory/context.py:187-190 | the issue loop adds each day's issued quantity and value to the entries; a day is created, and appended to the key order, only on its first issue |
| Reports.DatesStep | inventory/context.py:183-190 | one turn of either loop appends the row's day to the key order exactly when the day is new |
| Reports.AppendUnseenConcat | inventory/context.py:182-193 | running the issue loop after the delivery loop gives the key order of one pass over the deliveries followed by the issues |
| Reports.DaysAppended | inventory/context.py:183-190 | a loop keeps the days it started with, in front and unchanged, and adds each new day of its rows exactly once; every row's day ends up present, and every added day is some row's day |
| Reports.AppendUnseenOrder | inventory/context.py:193 | after any number of rows, the key order is the order the days are first met |
| Reports.MovementDates | inventory/context.py:182-193 | the two loops leave distinct columns: every day of a delivery or issue, nothing else, in first-seen order over the deliveries followed by the issues |
| Reports.StockMovement | inventory/context.py:182-197 | five series of equal length, one distinct column per day of a delivery or issue, in the order `list(stock_movement.keys())` gives (the deliveries' days as first met, then the days met only among the issues), each column holding that day's sums |
| Reports.MovementColumnOrder | inventory/context.py:193 | of two columns, the earlier one's day first appears earlier among the deliveries followed by the issues |
| Reports.ChartTotals | inventory/context.py:193-197 | the added, issued and value-added series add up to the totals over all rows |
| Reports.MovementOrderFree | inventory/context.py:178-179 | each day's sums are the same whatever order the rows are visited in |
| Reports.CombinedStockMovement | inventory/context.py:176-197 | fails exactly when an issued item has no stock history; otherwise the movement chart over the deliveries sorted newest first and the issues sorted newest first, valuing issues at the latest unit cost |
| Reports.NewestFirstColumns | inventory/context.py:177-193 | over rows sorted newest first, the columns list every delivery day before any day that has only issues, and within each of the two groups the days run newest first |
| Reports.ColumnFirstMet | inventory/context.py:193 | a column's day is first met among the deliveries exactly when it is a delivery day, and otherwise among the issues |
| Reports.SortedDaysDecrease | inventory/context.py:177-178 | among deliveries sorted by date added and issues sorted by timestamp, a later position in the same group never holds a later day |
| Reports.FirstNamedIsFirst | inventory/context.py:290-292 | no row before the first one of a name carries that name |
| Reports.FirstNamedAtMost | inventory/context.py:290-292 | a name's first appearance is no later than any row that carries it |
| Reports.FirstSeenPairs | inventory/context.py:323 | when labels are in first-seen order, any earlier label's first row comes before any later label's |
| Reports.Tally | inventory/context.py:290-295 | the loop never makes more labels than there are rows |
| Reports.TallyOrder | inventory/context.py:290-292 | after any number of rows the labels are in the order their names are first met, the last of them among those rows |
| Reports.TallyIsDistribution | inventory/context.py:290-295 | over all the rows the loop's labels are distinct and in the order their names are first met (the order `list(distribution.keys())` shows), the keys are exactly the labels and every row's name, and each entry holds the sums of quantity and value over the rows of that name |
| Reports.Distribute | inventory/context.py:290-295 | the loop computes `Tally` of the rows, and so a distribution: one entry per name, created in first-seen order, holding the sum of quantity and value over the rows of that name |
| Reports.DistributionTotals | inventory/context.py:316-319 | the totals of a distribution equal the sums over all its rows: merging by name loses nothing |
| Reports.DepartmentReportOf | inventory/context.py:281-319 | a missing department fails; otherwise the item and issued distributions and the movement chart cover exactly the department's rows, and the four totals are sums over them |
| Reports.CostLines | inventory/context.py:775-784 | one line per key, in order, with the total cost and issued quantity of that key's rows, 0 when there are none |
| Reports.CostReportOf | inventory/context.py:770-817 | department, category and item lines as above, and total inventory cost as the sum over all stock rows |
| Reports.CostLinesAddUp | inventory/context.py:775-817 | when each row belongs to exactly one listed key, the lines add up to the total inventory cost and the total issued count |
| Folds.Regroup | inventory/context.py:316-319 | summing the per-key buckets over distinct keys that cover every row gives the plain sum |
| Folds.SumWherePermutation | inventory/context.py:183-190 | a bucket sum does not depend on the order of the rows |

Stored quantities are never negative. The type `QuantityRow.quantity: nat` enforces
this, and both issue methods prove that their decrement stays a `nat`.
`Reports.HoldingValue` is quantity × `Models.IssuedUnitCost`. A Quantity row whose item
has no stock history therefore adds its quantity to the department total but no value.

## Left out

- Ledger.StockLedger.IssueBulk: requires `issued >= 0`. The handler never checks the lower bound of the posted quantity, so a negative amount would raise the balance; this is assumed not to happen.
- Ledger.FormValid: reduces Django's form validation to the checks that decide the outcome here. The department must exist, LPO, supplier and delivery number must be non-empty, the date added must be given, and so must every date field the form offers. The field-level parsing of numbers and dates is not modelled.
- Reports.MonthlyChange, Reports.LowStockPercentage, Reports.TurnoverRate: these have no contracts of their own. `Reports.DashboardRatios` states what they compute.
- Reports.DashboardRatios: states the exact ratios. The dashboard rounds each of them to two decimals (`round(…, 2)`, inventory/context.py:54-57); that floating-point rounding is not modelled.
- HTTP plumbing is not modelled: request parsing, JSON and HTML responses, login, AJAX detection, pagination and `get_context_data`.
- Parse errors are not modelled. `int()` on a missing or malformed quantity, and malformed date strings, raise before any change. The model takes parsed values.
- Duplicate rows are excluded by assumption. `MultipleObjectsReturned` on duplicate Quantity rows cannot arise, because balances are keyed by (item, department). A duplicate engraved number is modelled (`MultipleStockHistory`).
- Concurrency is not modelled. The read-modify-write on balances is unlocked in the source; each handler here is one atomic step.
- Wall-clock reads (`timezone.now()`, `date.today()`) are parameters. Time zones are not modelled: an issue's calendar day is `DayOf` of its timestamp in site time.
- Floating point and JSON are not modelled. Money is integer cents, and the `float()` conversions for JSON are left out. Percentages are exact reals, without floating-point rounding.
- Models.UserTitle: takes the recipient's name. The source passes the Employee instance itself to `name=`, which is taken to match on the employee's name (its string form).
- `icontains` matching is modelled as a plain substring test, without case folding.
- `DecimalField` digit limits and Django's own model validation are not modelled.
- Aggregates that exist only in SQL are not modelled: the annotated `items` of each cost-report line, the dashboard's per-department sums, monthly trends, top-issued lists and the other ORM annotations. The counts fed to the dashboard ratios are parameters.
- Database row order is taken as insertion order. The delivery and LPO summaries list rows in that order, and `first()` is the first such row. Ties in `order_by('-date_added')` and in `latest()` are broken one fixed way: among the rows of the latest date, the one added last. `Models.LatestDateUnique` shows that the purchase date does not depend on that choice. Tied rows may carry different unit costs, so the values built from the latest unit cost follow that one choice. `Reports.MovementOrderFree` is a different fact: the per-day sums do not depend on the order the rows are visited in.
- The department report reads each Quantity row as a `Holding` (item, department, quantity). The expiry and depreciation dates of a Quantity row play no part there.
- Plain CRUD views, the asset list, routing, the admin, migrations and the accounts app have no ledger behaviour and are not modelled.
