/** The report builders of inventory/context.py that fold the tables in Python: the
    guarded percentages, the per-day stock movement, the per-name distributions of the
    department report, and the per-entity sums of the cost report. */
module Reports {
  import opened Models
  import opened Folds
  import opened Ordering
  import Queries

  /** `calculate_percentage`: `part / whole * 100`, or 0 for a non-positive whole. */
  function CalculatePercentage(part: int, whole: int): (r: real)
    ensures whole <= 0 ==> r == 0.0
    ensures whole > 0 ==> r * (whole as real) == (part as real) * 100.0
  {
    if whole > 0 then (part as real / whole as real) * 100.0 else 0.0
  }

  /** `(part / whole) * 100 if whole else 0`: the dashboard's guard on a count. */
  function GuardedPercent(part: int, whole: int): (r: real)
    ensures whole == 0 ==> r == 0.0
    ensures whole != 0 ==> r * (whole as real) == (part as real) * 100.0
  {
    if whole != 0 then (part as real / whole as real) * 100.0 else 0.0
  }

  /** On counts the two guards agree. */
  lemma GuardsAgree(part: int, whole: nat)
    ensures CalculatePercentage(part, whole) == GuardedPercent(part, whole)
  {
  }

  /** A part of a positive whole is between 0 and 100 percent. */
  lemma PercentageOfPart(part: nat, whole: int)
    requires part <= whole
    ensures 0.0 <= CalculatePercentage(part, whole) <= 100.0
  {
    if whole > 0 {
      var r := CalculatePercentage(part, whole);
      assert r * (whole as real) <= (whole as real) * 100.0;
    }
  }

  function MonthlyChange(newThisMonth: nat, newLastMonth: nat): real
  {
    GuardedPercent(newThisMonth - newLastMonth, newLastMonth)
  }

  function LowStockPercentage(lowStockItems: nat, totalItems: nat): real
  {
    GuardedPercent(lowStockItems, totalItems)
  }

  function TurnoverRate(itemsIssued: nat, currentStock: nat): real
  {
    GuardedPercent(itemsIssued, currentStock)
  }

  /** The three dashboard ratios are 0 on an empty base and a plain percentage otherwise. */
  lemma DashboardRatios(newThisMonth: nat, newLastMonth: nat, low: nat, total: nat, issued: nat, stock: nat)
    ensures newLastMonth == 0 ==> MonthlyChange(newThisMonth, newLastMonth) == 0.0
    ensures newLastMonth > 0 ==>
              MonthlyChange(newThisMonth, newLastMonth) * (newLastMonth as real)
              == ((newThisMonth - newLastMonth) as real) * 100.0
    ensures total == 0 ==> LowStockPercentage(low, total) == 0.0
    ensures total > 0 ==> LowStockPercentage(low, total) * (total as real) == (low as real) * 100.0
    ensures stock == 0 ==> TurnoverRate(issued, stock) == 0.0
    ensures stock > 0 ==> TurnoverRate(issued, stock) * (stock as real) == (issued as real) * 100.0
  {
  }

  // ---------------------------------------------------------------------------
  // Row projections, named so that one function value is used everywhere.

  function StockDay(r: StockRow): Date
  {
    r.dateAdded
  }

  function StockQuantity(r: StockRow): int
  {
    r.quantity
  }

  function StockTotal(r: StockRow): int
  {
    r.totalCost
  }

  function StockDepartment(r: StockRow): DeptId
  {
    r.department
  }

  function StockItem(r: StockRow): ItemId
  {
    r.item
  }

  function IssueDay(r: IssueRow): Date
  {
    DayOf(r.date)
  }

  function IssueQuantity(r: IssueRow): int
  {
    r.quantityIssuedOut
  }

  function IssueDepartment(r: IssueRow): DeptId
  {
    r.department
  }

  function IssueItem(r: IssueRow): ItemId
  {
    r.item
  }

  function IssueTime(r: IssueRow): int
  {
    r.date
  }

  function StockCategory(items: map<ItemId, InventoryItem>): StockRow -> string
  {
    (r: StockRow) => Queries.CategoryOf(items, r.item)
  }

  function IssueCategory(items: map<ItemId, InventoryItem>): IssueRow -> string
  {
    (r: IssueRow) => Queries.CategoryOf(items, r.item)
  }

  function IssueName(items: map<ItemId, InventoryItem>): IssueRow -> string
  {
    (r: IssueRow) => Queries.NameOf(items, r.item)
  }

  /** Issued quantity times the item's latest unit cost; an item without stock history
      adds nothing, as the department report's `if latest_stock` guard has it. */
  function IssueValue(h: seq<StockRow>): IssueRow -> int
  {
    (r: IssueRow) => r.quantityIssuedOut * IssuedUnitCost(h, r.item)
  }

  lemma IssueValueOf(h: seq<StockRow>, r: IssueRow)
    ensures !HasHistory(h, r.item) ==> IssueValue(h)(r) == 0
    ensures HasHistory(h, r.item) ==>
              exists j :: IsLatest(h, r.item, j) && IssueValue(h)(r) == r.quantityIssuedOut * h[j].unitCost
  {
    if HasHistory(h, r.item) {
      var j := LatestIndex(h, r.item).value;
      assert IsLatest(h, r.item, j) && IssuedUnitCost(h, r.item) == h[j].unitCost;
    }
  }

  // ---------------------------------------------------------------------------
  // First-seen order: a Python dictionary keeps its keys in insertion order, so the
  // labels and columns read off one follow the first appearance of each key.

  /** The position of the first row named `target`, or `|rows|` when there is none. */
  function FirstNamed<T, K(==)>(rows: seq<T>, name: T -> K, target: K): (r: nat)
    ensures r <= |rows|
    ensures r < |rows| ==> name(rows[r]) == target
  {
    if |rows| == 0 then 0
    else if name(rows[0]) == target then 0
    else FirstNamed(rows[1..], name, target) + 1
  }

  /** A row carrying the name puts a bound on its first appearance. */
  lemma FirstNamedAtMost<T, K>(rows: seq<T>, name: T -> K, target: K, j: int)
    requires 0 <= j < |rows| && name(rows[j]) == target
    ensures FirstNamed(rows, name, target) <= j
  {
    FirstNamedIsFirst(rows, name, target);
  }

  /** No row before that position carries the name. */
  lemma {:induction false} FirstNamedIsFirst<T, K>(rows: seq<T>, name: T -> K, target: K)
    ensures forall j :: 0 <= j < FirstNamed(rows, name, target) ==> name(rows[j]) != target
  {
    if |rows| > 0 && name(rows[0]) != target {
      FirstNamedIsFirst(rows[1..], name, target);
      assert forall j :: 1 <= j < |rows| ==> rows[j] == rows[1..][j - 1];
    }
  }

  /** The labels are in the order in which their names are first met among the rows:
      each label is first met after the one before it. */
  predicate FirstSeenOrder<T, K(==)>(labels: seq<K>, rows: seq<T>, name: T -> K)
  {
    |labels| <= 1
    || (FirstSeenOrder(labels[..|labels| - 1], rows, name)
        && FirstNamed(rows, name, labels[|labels| - 2]) < FirstNamed(rows, name, labels[|labels| - 1]))
  }

  /** Any earlier label is first met before any later one. */
  lemma {:induction false} FirstSeenPairs<T, K>(labels: seq<K>, rows: seq<T>, name: T -> K)
    requires FirstSeenOrder(labels, rows, name)
    ensures forall k, l :: 0 <= k < l < |labels| ==>
              FirstNamed(rows, name, labels[k]) < FirstNamed(rows, name, labels[l])
  {
    if |labels| > 1 {
      var front := labels[..|labels| - 1];
      FirstSeenPairs(front, rows, name);
      forall k, l | 0 <= k < l < |labels|
        ensures FirstNamed(rows, name, labels[k]) < FirstNamed(rows, name, labels[l])
      {
        assert labels[k] == front[k];
        if l < |labels| - 1 {
          assert labels[l] == front[l];
        } else if k < |labels| - 2 {
          assert labels[|labels| - 2] == front[|labels| - 2];
        }
      }
    }
  }

  function Itself<K>(x: K): K
  {
    x
  }

  /** `acc` followed by each key of `keys` not met before, in the order of first
      appearance: the keys of a dictionary holding `acc` once `keys` are inserted. */
  function AppendUnseen<K(==)>(acc: seq<K>, keys: seq<K>): seq<K>
  {
    if |keys| == 0 then acc
    else
      var before := AppendUnseen(acc, keys[..|keys| - 1]);
      if keys[|keys| - 1] in before then before else before + [keys[|keys| - 1]]
  }

  /** Inserting keys never moves or drops the keys already held. */
  lemma {:induction false} AppendUnseenKeepsAcc<K>(acc: seq<K>, keys: seq<K>)
    ensures var r := AppendUnseen(acc, keys);
            |acc| <= |r| && r[..|acc|] == acc
  {
    if |keys| > 0 {
      AppendUnseenKeepsAcc(acc, keys[..|keys| - 1]);
    }
  }

  /** Inserting two lists of keys one after the other is inserting their concatenation. */
  lemma {:induction false} AppendUnseenConcat<K>(acc: seq<K>, a: seq<K>, b: seq<K>)
    ensures AppendUnseen(AppendUnseen(acc, a), b) == AppendUnseen(acc, a + b)
  {
    if |b| == 0 {
      assert a + b == a;
    } else {
      AppendUnseenConcat(acc, a, b[..|b| - 1]);
      assert (a + b)[..|a + b| - 1] == a + b[..|b| - 1];
    }
  }

  /** The keys held are those already there and those inserted. */
  lemma {:induction false} AppendUnseenMembers<K>(acc: seq<K>, keys: seq<K>)
    ensures forall x :: x in AppendUnseen(acc, keys) <==> x in acc || x in keys
  {
    if |keys| > 0 {
      AppendUnseenMembers(acc, keys[..|keys| - 1]);
      assert keys == keys[..|keys| - 1] + [keys[|keys| - 1]];
    }
  }

  /** Each key is held once. */
  lemma {:induction false} AppendUnseenDistinct<K>(acc: seq<K>, keys: seq<K>)
    requires Distinct(acc)
    ensures Distinct(AppendUnseen(acc, keys))
  {
    if |keys| > 0 {
      AppendUnseenDistinct(acc, keys[..|keys| - 1]);
    }
  }

  /** Inserting one more key appends it exactly when it is not held yet. */
  lemma AppendUnseenStep<K>(acc: seq<K>, keys: seq<K>, x: K)
    ensures var before := AppendUnseen(acc, keys);
            AppendUnseen(acc, keys + [x]) == if x in before then before else before + [x]
  {
    assert (keys + [x])[..|keys|] == keys;
  }

  /** The keys inserted after `acc` are new ones taken from `keys`. */
  lemma AppendUnseenNew<K>(acc: seq<K>, keys: seq<K>)
    requires Distinct(acc)
    ensures var r := AppendUnseen(acc, keys);
            Distinct(r)
            && (forall x :: x in r <==> x in acc || x in keys)
            && forall k :: |acc| <= k < |r| ==> r[k] !in acc && r[k] in keys
  {
    var r := AppendUnseen(acc, keys);
    AppendUnseenKeepsAcc(acc, keys);
    AppendUnseenDistinct(acc, keys);
    AppendUnseenMembers(acc, keys);
    forall k, i | |acc| <= k < |r| && 0 <= i < |acc| ensures acc[i] != r[k] {
      assert acc[i] == r[..|acc|][i] == r[i];
    }
  }

  /** Inserted into an empty dictionary, the first `n` keys come out in first-seen order. */
  lemma {:induction false} AppendUnseenOrder<K>(keys: seq<K>, n: int)
    requires 0 <= n <= |keys|
    ensures OrderSoFar(AppendUnseen([], keys[..n]), keys, Itself, n)
  {
    if n > 0 {
      AppendUnseenOrder(keys, n - 1);
      var before := AppendUnseen([], keys[..n - 1]);
      assert keys[..n][..n - 1] == keys[..n - 1];
      if keys[n - 1] !in before {
        AppendUnseenMembers([], keys[..n - 1]);
        var after := before + [keys[n - 1]];
        assert after[..|after| - 1] == before;
        FirstNamedIsFirst(keys, Itself, keys[n - 1]);
        assert forall j :: 0 <= j < n - 1 ==> keys[j] == keys[..n - 1][j];
        assert FirstNamed(keys, Itself, keys[n - 1]) == n - 1;
      }
    }
  }

  // ---------------------------------------------------------------------------
  // Stock movement: a dictionary from day to four running sums.

  datatype Movement = Movement(added: int, issued: int, valueAdded: int, valueIssued: int)

  /** The chart series: position k of every list belongs to `dates[k]`. */
  datatype Chart = Chart(dates: seq<Date>, added: seq<int>, issued: seq<int>, valueAdded: seq<int>, valueIssued: seq<int>)

  predicate DayOfSomeRow(stock: seq<StockRow>, issued: seq<IssueRow>, d: Date)
  {
    (exists i :: 0 <= i < |stock| && StockDay(stock[i]) == d)
    || (exists i :: 0 <= i < |issued| && IssueDay(issued[i]) == d)
  }

  /** The day of each row, in row order. */
  function Days<T>(rows: seq<T>, day: T -> Date): seq<Date>
  {
    seq(|rows|, i requires 0 <= i < |rows| => day(rows[i]))
  }

  /** The days of the first `n + 1` rows are those of the first `n`, then the next row's. */
  lemma DaysStep<T>(rows: seq<T>, day: T -> Date, n: int)
    requires 0 <= n < |rows|
    ensures Days(rows[..n + 1], day) == Days(rows[..n], day) + [day(rows[n])]
  {
  }

  /** What the stock-movement loops promise: one column per day that has a delivery or
      an issue, each day once, in the order the days are first met (the deliveries'
      days in visiting order, then the days with issues only), and in every column the
      sums over that day's rows. */
  ghost predicate IsMovementChart(c: Chart, stock: seq<StockRow>, issued: seq<IssueRow>, issueValue: IssueRow -> int)
  {
    |c.added| == |c.dates| && |c.issued| == |c.dates|
    && |c.valueAdded| == |c.dates| && |c.valueIssued| == |c.dates|
    && Distinct(c.dates)
    && c.dates == AppendUnseen([], Days(stock, StockDay) + Days(issued, IssueDay))
    && (forall i :: 0 <= i < |stock| ==> StockDay(stock[i]) in c.dates)
    && (forall i :: 0 <= i < |issued| ==> IssueDay(issued[i]) in c.dates)
    && (forall k :: 0 <= k < |c.dates| ==> DayOfSomeRow(stock, issued, c.dates[k]))
    && (forall k :: 0 <= k < |c.dates| ==>
          c.added[k] == SumWhere(stock, StockDay, StockQuantity, c.dates[k])
          && c.issued[k] == SumWhere(issued, IssueDay, IssueQuantity, c.dates[k])
          && c.valueAdded[k] == SumWhere(stock, StockDay, StockTotal, c.dates[k])
          && c.valueIssued[k] == SumWhere(issued, IssueDay, issueValue, c.dates[k]))
  }

  /** The running sums of a day not yet in the dictionary: `defaultdict`'s zeros. */
  function Entry(movement: map<Date, Movement>, d: Date): Movement
  {
    if d in movement then movement[d] else Movement(0, 0, 0, 0)
  }

  /** The first loop of the stock movement: one pass over the deliveries. */
  method AddDeliveries(stock: seq<StockRow>) returns (dates: seq<Date>, movement: map<Date, Movement>)
    ensures dates == AppendUnseen([], Days(stock, StockDay))
    ensures forall d :: d in movement <==> d in dates
    ensures forall d :: Entry(movement, d) == Movement(SumWhere(stock, StockDay, StockQuantity, d), 0,
                                                       SumWhere(stock, StockDay, StockTotal, d), 0)
  {
    dates := [];
    movement := map[];
    var i := 0;
    while i < |stock|
      invariant 0 <= i <= |stock|
      invariant dates == AppendUnseen([], Days(stock[..i], StockDay))
      invariant forall d :: d in movement <==> d in dates
      invariant forall d :: Entry(movement, d) == Movement(SumWhere(stock[..i], StockDay, StockQuantity, d), 0,
                                                           SumWhere(stock[..i], StockDay, StockTotal, d), 0)
    {
      var row := stock[i];
      var key := StockDay(row);
      assert stock[..i + 1][..i] == stock[..i];
      DatesStep([], stock, StockDay, i);
      if key !in movement {
        dates := dates + [key];
      }
      var m := Entry(movement, key);
      movement := movement[key := m.(added := m.added + row.quantity, valueAdded := m.valueAdded + row.totalCost)];
      i := i + 1;
    }
    assert stock[..i] == stock;
  }

  /** A day's running sums once the issues `rows` have been added to them. */
  function WithIssues(m: Movement, rows: seq<IssueRow>, issueValue: IssueRow -> int, d: Date): Movement
  {
    m.(issued := m.issued + SumWhere(rows, IssueDay, IssueQuantity, d),
       valueIssued := m.valueIssued + SumWhere(rows, IssueDay, issueValue, d))
  }

  /** One turn of the issue loop keeps every day's sums equal to those over the rows seen. */
  lemma IssueStep(movement0: map<Date, Movement>, before: map<Date, Movement>, rows: seq<IssueRow>,
                  row: IssueRow, issueValue: IssueRow -> int)
    requires forall d :: Entry(before, d) == WithIssues(Entry(movement0, d), rows, issueValue, d)
    ensures var m := Entry(before, IssueDay(row));
            var after := before[IssueDay(row) := m.(issued := m.issued + row.quantityIssuedOut,
                                                    valueIssued := m.valueIssued + issueValue(row))];
            forall d :: Entry(after, d) == WithIssues(Entry(movement0, d), rows + [row], issueValue, d)
  {
    var m := Entry(before, IssueDay(row));
    var after := before[IssueDay(row) := m.(issued := m.issued + row.quantityIssuedOut,
                                            valueIssued := m.valueIssued + issueValue(row))];
    forall d ensures Entry(after, d) == WithIssues(Entry(movement0, d), rows + [row], issueValue, d) {
      SumWhereAppend(rows, row, IssueDay, IssueQuantity, d);
      SumWhereAppend(rows, row, IssueDay, issueValue, d);
    }
  }

  /** The second loop of the stock movement: one pass over the issues, into the
      dictionary the first loop left. */
  method AddIssues(issued: seq<IssueRow>, issueValue: IssueRow -> int, dates0: seq<Date>, movement0: map<Date, Movement>)
    returns (dates: seq<Date>, movement: map<Date, Movement>)
    requires Distinct(dates0)
    requires forall d :: d in movement0 <==> d in dates0
    ensures dates == AppendUnseen(dates0, Days(issued, IssueDay))
    ensures forall d :: d in movement <==> d in dates
    ensures forall d :: Entry(movement, d) == WithIssues(Entry(movement0, d), issued, issueValue, d)
  {
    dates := dates0;
    movement := movement0;
    var i := 0;
    while i < |issued|
      invariant 0 <= i <= |issued|
      invariant dates == AppendUnseen(dates0, Days(issued[..i], IssueDay))
      invariant forall d :: d in movement <==> d in dates
      invariant forall d :: Entry(movement, d) == WithIssues(Entry(movement0, d), issued[..i], issueValue, d)
    {
      var row := issued[i];
      var key := IssueDay(row);
      assert issued[..i + 1] == issued[..i] + [row];
      DatesStep(dates0, issued, IssueDay, i);
      IssueStep(movement0, movement, issued[..i], row, issueValue);
      if key !in movement {
        dates := dates + [key];
      }
      var m := Entry(movement, key);
      movement := movement[key := m.(issued := m.issued + row.quantityIssuedOut,
                                     valueIssued := m.valueIssued + issueValue(row))];
      i := i + 1;
    }
    assert issued[..i] == issued;
  }

  /** One turn of either loop adds the row's day as a column when it is new. */
  lemma DatesStep<T>(dates0: seq<Date>, rows: seq<T>, day: T -> Date, n: int)
    requires 0 <= n < |rows|
    ensures var before := AppendUnseen(dates0, Days(rows[..n], day));
            AppendUnseen(dates0, Days(rows[..n + 1], day)) == if day(rows[n]) in before then before else before + [day(rows[n])]
  {
    DaysStep(rows, day, n);
    AppendUnseenStep(dates0, Days(rows[..n], day), day(rows[n]));
  }

  /** A loop's columns: those it found, then each new day of its rows once. */
  lemma DaysAppended<T>(dates0: seq<Date>, rows: seq<T>, day: T -> Date)
    requires Distinct(dates0)
    ensures var dates := AppendUnseen(dates0, Days(rows, day));
            Distinct(dates)
            && |dates0| <= |dates| && dates[..|dates0|] == dates0
            && (forall j :: 0 <= j < |rows| ==> day(rows[j]) in dates)
            && forall k :: |dates0| <= k < |dates| ==> exists j :: 0 <= j < |rows| && day(rows[j]) == dates[k]
  {
    var days := Days(rows, day);
    var dates := AppendUnseen(dates0, days);
    AppendUnseenNew(dates0, days);
    AppendUnseenKeepsAcc(dates0, days);
    forall j | 0 <= j < |rows| ensures day(rows[j]) in dates {
      assert days[j] in dates;
    }
    forall k | |dates0| <= k < |dates| ensures exists j :: 0 <= j < |rows| && day(rows[j]) == dates[k] {
      var j :| 0 <= j < |days| && days[j] == dates[k];
    }
  }

  /** The columns the two loops leave: every day of a row once, each of them some row's
      day, in the order the days are first met. */
  lemma MovementDates(stock: seq<StockRow>, issued: seq<IssueRow>, dates0: seq<Date>, dates: seq<Date>)
    requires dates0 == AppendUnseen([], Days(stock, StockDay))
    requires dates == AppendUnseen(dates0, Days(issued, IssueDay))
    ensures Distinct(dates)
    ensures dates == AppendUnseen([], Days(stock, StockDay) + Days(issued, IssueDay))
    ensures forall i :: 0 <= i < |stock| ==> StockDay(stock[i]) in dates
    ensures forall i :: 0 <= i < |issued| ==> IssueDay(issued[i]) in dates
    ensures forall k :: 0 <= k < |dates| ==> DayOfSomeRow(stock, issued, dates[k])
  {
    AppendUnseenConcat([], Days(stock, StockDay), Days(issued, IssueDay));
    DaysAppended([], stock, StockDay);
    DaysAppended(dates0, issued, IssueDay);
    forall k | 0 <= k < |dates| ensures DayOfSomeRow(stock, issued, dates[k]) {
      if k < |dates0| {
        assert dates[k] == dates0[k];
      }
    }
  }

  /** The two `for` loops filling `stock_movement`, then the five series read off it. */
  method StockMovement(stock: seq<StockRow>, issued: seq<IssueRow>, issueValue: IssueRow -> int) returns (c: Chart)
    ensures IsMovementChart(c, stock, issued, issueValue)
  {
    var dates0, movement0 := AddDeliveries(stock);
    AppendUnseenDistinct([], Days(stock, StockDay));
    var dates, movement := AddIssues(issued, issueValue, dates0, movement0);
    MovementDates(stock, issued, dates0, dates);
    c := Chart(dates,
               seq(|dates|, k requires 0 <= k < |dates| => movement[dates[k]].added),
               seq(|dates|, k requires 0 <= k < |dates| => movement[dates[k]].issued),
               seq(|dates|, k requires 0 <= k < |dates| => movement[dates[k]].valueAdded),
               seq(|dates|, k requires 0 <= k < |dates| => movement[dates[k]].valueIssued));
    assert forall k :: 0 <= k < |dates| ==> movement[dates[k]] == Entry(movement, dates[k]);
  }

  /** Sum of the entries of a series. */
  function SeriesTotal(s: seq<int>): int
  {
    if |s| == 0 then 0 else SeriesTotal(s[..|s| - 1]) + s[|s| - 1]
  }

  /** Adding up one bucket per key of a list is adding up the buckets' series. */
  lemma {:induction false} SeriesOfBuckets<T>(keys: seq<Date>, series: seq<int>, s: seq<T>, key: T -> Date, val: T -> int)
    requires |series| == |keys|
    requires forall k :: 0 <= k < |keys| ==> series[k] == SumWhere(s, key, val, keys[k])
    ensures SeriesTotal(series) == SumOverKeys(keys, s, key, val)
  {
    if |keys| > 0 {
      SeriesOfBuckets(keys[..|keys| - 1], series[..|series| - 1], s, key, val);
    }
  }

  /** The chart loses nothing: the `added` and `issued` series add up to all that was
      delivered and issued. */
  lemma ChartTotals(c: Chart, stock: seq<StockRow>, issued: seq<IssueRow>, issueValue: IssueRow -> int)
    requires IsMovementChart(c, stock, issued, issueValue)
    ensures SeriesTotal(c.added) == SumOf(stock, StockQuantity)
    ensures SeriesTotal(c.issued) == SumOf(issued, IssueQuantity)
    ensures SeriesTotal(c.valueAdded) == SumOf(stock, StockTotal)
  {
    SeriesOfBuckets(c.dates, c.added, stock, StockDay, StockQuantity);
    Regroup(c.dates, stock, StockDay, StockQuantity);
    SeriesOfBuckets(c.dates, c.issued, issued, IssueDay, IssueQuantity);
    Regroup(c.dates, issued, IssueDay, IssueQuantity);
    SeriesOfBuckets(c.dates, c.valueAdded, stock, StockDay, StockTotal);
    Regroup(c.dates, stock, StockDay, StockTotal);
  }

  /** The columns run in the order their days are first met: over the deliveries'
      days followed by the issues' days, an earlier column's day first appears before
      a later column's. */
  lemma MovementColumnOrder(c: Chart, stock: seq<StockRow>, issued: seq<IssueRow>, issueValue: IssueRow -> int)
    requires IsMovementChart(c, stock, issued, issueValue)
    ensures var days := Days(stock, StockDay) + Days(issued, IssueDay);
            forall k, l :: 0 <= k < l < |c.dates| ==>
              FirstNamed(days, Itself, c.dates[k]) < FirstNamed(days, Itself, c.dates[l])
  {
    var days := Days(stock, StockDay) + Days(issued, IssueDay);
    assert days[..|days|] == days;
    AppendUnseenOrder(days, |days|);
    FirstSeenPairs(c.dates, days, Itself);
  }

  /** The visiting order changes only the order of the columns: each day's sums are the
      same over any arrangement of the rows. */
  lemma MovementOrderFree(c: Chart, stock: seq<StockRow>, stock': seq<StockRow>,
                          issued: seq<IssueRow>, issued': seq<IssueRow>, issueValue: IssueRow -> int)
    requires multiset(stock') == multiset(stock) && multiset(issued') == multiset(issued)
    requires IsMovementChart(c, stock', issued', issueValue)
    ensures forall k :: 0 <= k < |c.dates| ==>
              c.added[k] == SumWhere(stock, StockDay, StockQuantity, c.dates[k])
              && c.issued[k] == SumWhere(issued, IssueDay, IssueQuantity, c.dates[k])
              && c.valueAdded[k] == SumWhere(stock, StockDay, StockTotal, c.dates[k])
              && c.valueIssued[k] == SumWhere(issued, IssueDay, issueValue, c.dates[k])
  {
    forall k | 0 <= k < |c.dates|
      ensures c.added[k] == SumWhere(stock, StockDay, StockQuantity, c.dates[k])
      ensures c.issued[k] == SumWhere(issued, IssueDay, IssueQuantity, c.dates[k])
      ensures c.valueAdded[k] == SumWhere(stock, StockDay, StockTotal, c.dates[k])
      ensures c.valueIssued[k] == SumWhere(issued, IssueDay, issueValue, c.dates[k])
    {
      SumWherePermutation(stock', stock, StockDay, StockQuantity, c.dates[k]);
      SumWherePermutation(issued', issued, IssueDay, IssueQuantity, c.dates[k]);
      SumWherePermutation(stock', stock, StockDay, StockTotal, c.dates[k]);
      SumWherePermutation(issued', issued, IssueDay, issueValue, c.dates[k]);
    }
  }

  /** The stock movement of `get_combined_report_context`: all rows, newest first. Its
      `latest('date_added')` is unguarded, so an issued item without stock history makes
      the whole report fail (None). */
  method CombinedStockMovement(stock: seq<StockRow>, issued: seq<IssueRow>) returns (r: Option<Chart>)
    ensures r.None? <==> exists i :: 0 <= i < |issued| && !HasHistory(stock, issued[i].item)
    ensures r.Some? ==>
              IsMovementChart(r.value, SortDesc(stock, StockDay), SortDesc(issued, IssueTime), IssueValue(stock))
  {
    var i := 0;
    while i < |issued|
      invariant 0 <= i <= |issued|
      invariant forall j :: 0 <= j < i ==> HasHistory(stock, issued[j].item)
    {
      if LatestIndex(stock, issued[i].item).None? {
        return None;
      }
      i := i + 1;
    }
    var c := StockMovement(SortDesc(stock, StockDay), SortDesc(issued, IssueTime), IssueValue(stock));
    return Some(c);
  }

  /** Among deliveries sorted newest first followed by issues sorted newest first, a
      later position within the same part never holds a later day. */
  lemma SortedDaysDecrease(stock: seq<StockRow>, issued: seq<IssueRow>, p: int, q: int)
    requires SortedDesc(stock, StockDay) && SortedDesc(issued, IssueTime)
    requires var days := Days(stock, StockDay) + Days(issued, IssueDay); 0 <= p < q < |days|
    ensures var ds := Days(stock, StockDay);
            var days := ds + Days(issued, IssueDay);
            (q < |ds| || |ds| <= p) ==> days[p] >= days[q]
  {
    var ds := Days(stock, StockDay);
    var days := ds + Days(issued, IssueDay);
    if q < |ds| {
      assert days[p] == StockDay(stock[p]) && days[q] == StockDay(stock[q]);
    } else if |ds| <= p {
      var i, j := p - |ds|, q - |ds|;
      assert days[p] == IssueDay(issued[i]) && days[q] == IssueDay(issued[j]);
      DayOfMonotone(IssueTime(issued[j]), IssueTime(issued[i]));
    }
  }

  /** Where a column's day is first met among the deliveries followed by the issues:
      among the deliveries exactly when it is a delivery day. */
  lemma ColumnFirstMet(c: Chart, stock: seq<StockRow>, issued: seq<IssueRow>, issueValue: IssueRow -> int, k: int)
    requires IsMovementChart(c, stock, issued, issueValue)
    requires 0 <= k < |c.dates|
    ensures var ds := Days(stock, StockDay);
            var days := ds + Days(issued, IssueDay);
            var p := FirstNamed(days, Itself, c.dates[k]);
            p < |days| && days[p] == c.dates[k] && (p < |ds| <==> c.dates[k] in ds)
  {
    var ds := Days(stock, StockDay);
    var days := ds + Days(issued, IssueDay);
    var x := c.dates[k];
    assert DayOfSomeRow(stock, issued, x);
    if exists i :: 0 <= i < |stock| && StockDay(stock[i]) == x {
      var i :| 0 <= i < |stock| && StockDay(stock[i]) == x;
      assert days[i] == x;
      FirstNamedAtMost(days, Itself, x, i);
    } else {
      var i :| 0 <= i < |issued| && IssueDay(issued[i]) == x;
      assert days[|ds| + i] == x;
      FirstNamedAtMost(days, Itself, x, |ds| + i);
    }
    var p := FirstNamed(days, Itself, x);
    assert p < |ds| ==> days[p] == ds[p];
    if x in ds {
      var j :| 0 <= j < |ds| && ds[j] == x;
      assert days[j] == x;
      FirstNamedAtMost(days, Itself, x, j);
    }
  }

  /** Over rows sorted newest first, as the combined report reads them, the columns
      list the delivery days newest first and then the days with only issues, newest
      first. */
  lemma NewestFirstColumns(c: Chart, stock: seq<StockRow>, issued: seq<IssueRow>, issueValue: IssueRow -> int)
    requires IsMovementChart(c, stock, issued, issueValue)
    requires SortedDesc(stock, StockDay) && SortedDesc(issued, IssueTime)
    ensures forall k, l :: 0 <= k < l < |c.dates| && c.dates[l] in Days(stock, StockDay) ==>
              c.dates[k] in Days(stock, StockDay)
    ensures forall k, l :: 0 <= k < l < |c.dates| ==>
              (c.dates[k] in Days(stock, StockDay) <==> c.dates[l] in Days(stock, StockDay)) ==>
              c.dates[k] > c.dates[l]
  {
    var ds := Days(stock, StockDay);
    var days := ds + Days(issued, IssueDay);
    MovementColumnOrder(c, stock, issued, issueValue);
    forall k, l | 0 <= k < l < |c.dates|
      ensures c.dates[l] in ds ==> c.dates[k] in ds
      ensures (c.dates[k] in ds <==> c.dates[l] in ds) ==> c.dates[k] > c.dates[l]
    {
      ColumnFirstMet(c, stock, issued, issueValue, k);
      ColumnFirstMet(c, stock, issued, issueValue, l);
      assert c.dates[k] != c.dates[l];
      SortedDaysDecrease(stock, issued, FirstNamed(days, Itself, c.dates[k]), FirstNamed(days, Itself, c.dates[l]));
    }
  }

  // ---------------------------------------------------------------------------
  // Distributions: a dictionary from item name to (quantity, value).

  datatype Share = Share(quantity: int, value: int)

  /** A Quantity row as the department report reads it. */
  datatype Holding = Holding(item: ItemId, department: DeptId, quantity: nat)

  function HoldingName(items: map<ItemId, InventoryItem>): Holding -> string
  {
    (q: Holding) => Queries.NameOf(items, q.item)
  }

  function HoldingQuantity(q: Holding): int
  {
    q.quantity
  }

  /** Quantity times the item's latest unit cost; nothing without stock history. */
  function HoldingValue(h: seq<StockRow>): Holding -> int
  {
    (q: Holding) => q.quantity * IssuedUnitCost(h, q.item)
  }

  /** A name's entry, or `defaultdict`'s zeros for a name not yet met. */
  function ShareOf(dist: map<string, Share>, l: string): Share
  {
    if l in dist then dist[l] else Share(0, 0)
  }

  function SharesOver<T>(rows: seq<T>, name: T -> string, quantity: T -> int, value: T -> int, l: string): Share
  {
    Share(SumWhere(rows, name, quantity, l), SumWhere(rows, name, value, l))
  }

  ghost predicate IsDistribution<T>(labels: seq<string>, dist: map<string, Share>, rows: seq<T>, name: T -> string,
                                 quantity: T -> int, value: T -> int)
  {
    Distinct(labels)
    && FirstSeenOrder(labels, rows, name)
    && (forall l :: l in dist <==> l in labels)
    && (forall i :: 0 <= i < |rows| ==> name(rows[i]) in dist)
    && (forall k :: 0 <= k < |labels| ==> exists i :: 0 <= i < |rows| && name(rows[i]) == labels[k])
    && (forall l :: ShareOf(dist, l) == SharesOver(rows, name, quantity, value, l))
  }

  /** One turn of the distribution loop keeps every name's entry equal to its sums over
      the rows seen. */
  lemma ShareStep<T>(before: map<string, Share>, rows: seq<T>, row: T, name: T -> string,
                     quantity: T -> int, value: T -> int)
    requires forall l :: ShareOf(before, l) == SharesOver(rows, name, quantity, value, l)
    ensures var s := ShareOf(before, name(row));
            var after := before[name(row) := Share(s.quantity + quantity(row), s.value + value(row))];
            forall l :: ShareOf(after, l) == SharesOver(rows + [row], name, quantity, value, l)
  {
    var s := ShareOf(before, name(row));
    var after := before[name(row) := Share(s.quantity + quantity(row), s.value + value(row))];
    forall l ensures ShareOf(after, l) == SharesOver(rows + [row], name, quantity, value, l) {
      ShareStepAt(before, rows, row, name, quantity, value, l);
    }
  }

  /** The same for one name `l`. */
  lemma ShareStepAt<T>(before: map<string, Share>, rows: seq<T>, row: T, name: T -> string,
                       quantity: T -> int, value: T -> int, l: string)
    requires ShareOf(before, l) == SharesOver(rows, name, quantity, value, l)
    ensures var s := ShareOf(before, name(row));
            var after := before[name(row) := Share(s.quantity + quantity(row), s.value + value(row))];
            ShareOf(after, l) == SharesOver(rows + [row], name, quantity, value, l)
  {
    SumWhereAppend(rows, row, name, quantity, l);
    SumWhereAppend(rows, row, name, value, l);
  }

  /** The `n`-th row (`rows[n - 1]`) keeps the labels in order: a name met for the first
      time there is appended after all the names met before it. */
  lemma OrderAfterRow<T>(labels: seq<string>, dist: map<string, Share>, rows: seq<T>, name: T -> string,
                         n: int, quantity: int, value: int)
    requires 0 < n <= |rows| && OrderSoFar(labels, rows, name, n - 1)
    requires forall j :: 0 <= j < n - 1 ==> name(rows[j]) in dist
    ensures OrderSoFar(TallyStep(labels, dist, name(rows[n - 1]), quantity, value).0, rows, name, n)
  {
    if name(rows[n - 1]) !in dist {
      var labels' := labels + [name(rows[n - 1])];
      assert labels'[..|labels'| - 1] == labels;
      FirstNamedIsFirst(rows, name, name(rows[n - 1]));
      assert FirstNamed(rows, name, name(rows[n - 1])) == n - 1;
    }
  }

  /** The labels and keys the distribution loop has after its first `n` rows: one per
      name met so far, each first met among those rows. */
  ghost predicate LabelsSoFar<T>(labels: seq<string>, dist: map<string, Share>, rows: seq<T>, name: T -> string, n: int)
  {
    0 <= n <= |rows|
    && Distinct(labels)
    && (forall k :: 0 <= k < |labels| ==> FirstNamed(rows, name, labels[k]) < n)
    && (forall l :: l in dist <==> l in labels)
  }

  /** The labels so far are in the order of first appearance, the last one among the
      first `n` rows. */
  predicate OrderSoFar<T, K(==)>(labels: seq<K>, rows: seq<T>, name: T -> K, n: int)
  {
    FirstSeenOrder(labels, rows, name)
    && (|labels| > 0 ==> FirstNamed(rows, name, labels[|labels| - 1]) < n)
  }

  /** The entries the distribution loop has after its first `n` rows. */
  ghost predicate SumsSoFar<T>(dist: map<string, Share>, rows: seq<T>, name: T -> string,
                               quantity: T -> int, value: T -> int, n: int)
  {
    0 <= n <= |rows|
    && forall l :: ShareOf(dist, l) == SharesOver(rows[..n], name, quantity, value, l)
  }

  /** The `n`-th row adds its name as the last label when the name is new, and only then. */
  lemma LabelsAfterRow<T>(labels: seq<string>, dist: map<string, Share>, rows: seq<T>, name: T -> string,
                          n: int, quantity: int, value: int)
    requires 0 < n <= |rows| && LabelsSoFar(labels, dist, rows, name, n - 1)
    ensures var t := TallyStep(labels, dist, name(rows[n - 1]), quantity, value);
            LabelsSoFar(t.0, t.1, rows, name, n)
  {
    var key := name(rows[n - 1]);
    if key !in dist {
      FirstNamedIsFirst(rows, name, key);
      var labels' := labels + [key];
      assert labels'[|labels|] == key;
    }
  }

  /** The `n`-th row adds its quantity and value to the entry of its name and to no other. */
  lemma SumsAfterRow<T>(labels: seq<string>, dist: map<string, Share>, rows: seq<T>, name: T -> string,
                        quantity: T -> int, value: T -> int, n: int)
    requires 0 < n <= |rows| && SumsSoFar(dist, rows, name, quantity, value, n - 1)
    ensures SumsSoFar(TallyStep(labels, dist, name(rows[n - 1]), quantity(rows[n - 1]), value(rows[n - 1])).1,
                      rows, name, quantity, value, n)
  {
    assert rows[..n] == rows[..n - 1] + [rows[n - 1]];
    ShareStep(dist, rows[..n - 1], rows[n - 1], name, quantity, value);
  }

  /** One turn of the distribution loop: add a row to the entry of its name, creating
      the entry (and its label) on the name's first appearance. */
  function TallyStep(labels: seq<string>, dist: map<string, Share>, key: string, quantity: int, value: int)
    : (r: (seq<string>, map<string, Share>))
    ensures r.1.Keys == dist.Keys + {key}
  {
    var s := ShareOf(dist, key);
    (if key !in dist then labels + [key] else labels, dist[key := Share(s.quantity + quantity, s.value + value)])
  }

  /** The labels and entries the distribution loop holds after the given rows. */
  function Tally<T>(rows: seq<T>, name: T -> string, quantity: T -> int, value: T -> int)
    : (r: (seq<string>, map<string, Share>))
    ensures |r.0| <= |rows|
  {
    if |rows| == 0 then ([], map[])
    else
      var (labels, dist) := Tally(rows[..|rows| - 1], name, quantity, value);
      var last := rows[|rows| - 1];
      TallyStep(labels, dist, name(last), quantity(last), value(last))
  }

  /** `Tally` over the first `n` rows is one step after the first `n - 1`. */
  lemma TallyUnfold<T>(rows: seq<T>, name: T -> string, quantity: T -> int, value: T -> int, n: int)
    requires 0 < n <= |rows|
    ensures var t := Tally(rows[..n - 1], name, quantity, value);
            Tally(rows[..n], name, quantity, value)
              == TallyStep(t.0, t.1, name(rows[n - 1]), quantity(rows[n - 1]), value(rows[n - 1]))
  {
    assert rows[..n][..n - 1] == rows[..n - 1];
  }

  /** After any number of rows the labels are distinct, each first met among those rows,
      and they are exactly the keys. */
  lemma {:induction false} TallyLabels<T>(rows: seq<T>, name: T -> string, quantity: T -> int, value: T -> int, n: int)
    requires 0 <= n <= |rows|
    ensures var t := Tally(rows[..n], name, quantity, value);
            LabelsSoFar(t.0, t.1, rows, name, n)
  {
    if n > 0 {
      TallyLabels(rows, name, quantity, value, n - 1);
      TallyUnfold(rows, name, quantity, value, n);
      var t := Tally(rows[..n - 1], name, quantity, value);
      LabelsAfterRow(t.0, t.1, rows, name, n, quantity(rows[n - 1]), value(rows[n - 1]));
    }
  }

  /** Every name among the first `n` rows has an entry. */
  lemma {:induction false} TallyKeysSeen<T>(rows: seq<T>, name: T -> string, quantity: T -> int, value: T -> int, n: int)
    requires 0 <= n <= |rows|
    ensures forall j :: 0 <= j < n ==> name(rows[j]) in Tally(rows[..n], name, quantity, value).1
  {
    if n > 0 {
      TallyKeysSeen(rows, name, quantity, value, n - 1);
      TallyUnfold(rows, name, quantity, value, n);
    }
  }

  /** After any number of rows the labels are in first-seen order. */
  lemma {:induction false} TallyOrder<T>(rows: seq<T>, name: T -> string, quantity: T -> int, value: T -> int, n: int)
    requires 0 <= n <= |rows|
    ensures OrderSoFar(Tally(rows[..n], name, quantity, value).0, rows, name, n)
  {
    if n > 0 {
      TallyOrder(rows, name, quantity, value, n - 1);
      TallyKeysSeen(rows, name, quantity, value, n - 1);
      TallyUnfold(rows, name, quantity, value, n);
      var t := Tally(rows[..n - 1], name, quantity, value);
      OrderAfterRow(t.0, t.1, rows, name, n, quantity(rows[n - 1]), value(rows[n - 1]));
    }
  }

  /** After any number of rows each name's entry holds its sums over those rows. */
  lemma {:induction false} TallySums<T>(rows: seq<T>, name: T -> string, quantity: T -> int, value: T -> int, n: int)
    requires 0 <= n <= |rows|
    ensures SumsSoFar(Tally(rows[..n], name, quantity, value).1, rows, name, quantity, value, n)
  {
    if n > 0 {
      TallySums(rows, name, quantity, value, n - 1);
      TallyUnfold(rows, name, quantity, value, n);
      var t := Tally(rows[..n - 1], name, quantity, value);
      SumsAfterRow(t.0, t.1, rows, name, quantity, value, n);
    }
  }

  /** Over all the rows, the loop's result is a distribution: one entry per name, in
      first-seen order, holding the sums of the rows of that name. */
  lemma TallyIsDistribution<T>(rows: seq<T>, name: T -> string, quantity: T -> int, value: T -> int)
    ensures var t := Tally(rows, name, quantity, value);
            IsDistribution(t.0, t.1, rows, name, quantity, value)
  {
    assert rows[..|rows|] == rows;
    TallyLabels(rows, name, quantity, value, |rows|);
    TallyKeysSeen(rows, name, quantity, value, |rows|);
    TallyOrder(rows, name, quantity, value, |rows|);
    TallySums(rows, name, quantity, value, |rows|);
    var t := Tally(rows, name, quantity, value);
    forall k | 0 <= k < |t.0| ensures exists i :: 0 <= i < |rows| && name(rows[i]) == t.0[k] {
      var i := FirstNamed(rows, name, t.0[k]);
      assert name(rows[i]) == t.0[k];
    }
  }

  /** One `for` loop filling a `defaultdict(lambda: {'quantity': 0, 'value': 0})`: rows
      with the same name merge under one label, and labels follow first appearance. */
  method Distribute<T>(rows: seq<T>, name: T -> string, quantity: T -> int, value: T -> int)
    returns (labels: seq<string>, dist: map<string, Share>)
    ensures (labels, dist) == Tally(rows, name, quantity, value)
    ensures IsDistribution(labels, dist, rows, name, quantity, value)
  {
    labels := [];
    dist := map[];
    var i := 0;
    while i < |rows|
      invariant 0 <= i <= |rows|
      invariant (labels, dist) == Tally(rows[..i], name, quantity, value)
    {
      var key := name(rows[i]);
      var s := ShareOf(dist, key);
      if key !in dist {
        labels := labels + [key];
      }
      dist := dist[key := Share(s.quantity + quantity(rows[i]), s.value + value(rows[i]))];
      i := i + 1;
      TallyUnfold(rows, name, quantity, value, i);
    }
    assert rows[..i] == rows;
    TallyIsDistribution(rows, name, quantity, value);
  }

  /** `sum(item['quantity'] for item in distribution.values())`. */
  function TotalQuantity<K>(labels: seq<K>, dist: map<K, Share>): int
    requires forall k :: 0 <= k < |labels| ==> labels[k] in dist
  {
    if |labels| == 0 then 0
    else TotalQuantity(labels[..|labels| - 1], dist) + dist[labels[|labels| - 1]].quantity
  }

  /** `sum(item['value'] for item in distribution.values())`. */
  function TotalValue<K>(labels: seq<K>, dist: map<K, Share>): int
    requires forall k :: 0 <= k < |labels| ==> labels[k] in dist
  {
    if |labels| == 0 then 0
    else TotalValue(labels[..|labels| - 1], dist) + dist[labels[|labels| - 1]].value
  }

  lemma {:induction false} TotalsAreBuckets<T, K>(labels: seq<K>, dist: map<K, Share>, rows: seq<T>, name: T -> K,
                                                 quantity: T -> int, value: T -> int)
    requires forall k :: 0 <= k < |labels| ==> labels[k] in dist
    requires forall k :: 0 <= k < |labels| ==>
               dist[labels[k]] == Share(SumWhere(rows, name, quantity, labels[k]), SumWhere(rows, name, value, labels[k]))
    ensures TotalQuantity(labels, dist) == SumOverKeys(labels, rows, name, quantity)
    ensures TotalValue(labels, dist) == SumOverKeys(labels, rows, name, value)
  {
    if |labels| > 0 {
      TotalsAreBuckets(labels[..|labels| - 1], dist, rows, name, quantity, value);
    }
  }

  /** Merging by name loses nothing: the totals of a distribution are the sums over
      all its rows. */
  lemma DistributionTotals<T>(labels: seq<string>, dist: map<string, Share>, rows: seq<T>, name: T -> string,
                                quantity: T -> int, value: T -> int)
    requires IsDistribution(labels, dist, rows, name, quantity, value)
    ensures forall k :: 0 <= k < |labels| ==> labels[k] in dist
    ensures TotalQuantity(labels, dist) == SumOf(rows, quantity)
    ensures TotalValue(labels, dist) == SumOf(rows, value)
  {
    forall k | 0 <= k < |labels|
      ensures labels[k] in dist
      ensures dist[labels[k]] == Share(SumWhere(rows, name, quantity, labels[k]), SumWhere(rows, name, value, labels[k]))
    {
      assert ShareOf(dist, labels[k]) == SharesOver(rows, name, quantity, value, labels[k]);
    }
    TotalsAreBuckets(labels, dist, rows, name, quantity, value);
    Regroup(labels, rows, name, quantity);
    Regroup(labels, rows, name, value);
  }

  datatype DepartmentReport = DepartmentReport(
    itemLabels: seq<string>,
    itemDistribution: map<string, Share>,
    movement: Chart,
    issuedLabels: seq<string>,
    issuedDistribution: map<string, Share>,
    totalQuantity: int,
    totalValue: int,
    totalIssuedQuantity: int,
    totalIssuedValue: int)

  function HoldingIn(d: DeptId): Holding -> bool
  {
    (q: Holding) => q.department == d
  }

  function StockIn(d: DeptId): StockRow -> bool
  {
    (r: StockRow) => r.department == d
  }

  function IssueIn(d: DeptId): IssueRow -> bool
  {
    (r: IssueRow) => r.department == d
  }

  /** `get_department_report_context`: a missing department is a 404 (None). The totals
      are the sums over the department's rows, and values use the latest unit cost of
      the item over all departments. */
  method DepartmentReportOf(d: DeptId, departments: set<DeptId>, items: map<ItemId, InventoryItem>,
                            holdings: seq<Holding>, stock: seq<StockRow>, issued: seq<IssueRow>)
    returns (r: Option<DepartmentReport>)
    ensures r.None? <==> d !in departments
    ensures r.Some? ==>
              var here := Select(holdings, HoldingIn(d));
              var stockHere := Select(stock, StockIn(d));
              var issuedHere := Select(issued, IssueIn(d));
              IsDistribution(r.value.itemLabels, r.value.itemDistribution, here,
                             HoldingName(items), HoldingQuantity, HoldingValue(stock))
              && IsMovementChart(r.value.movement, stockHere, issuedHere, IssueValue(stock))
              && IsDistribution(r.value.issuedLabels, r.value.issuedDistribution, issuedHere,
                                IssueName(items), IssueQuantity, IssueValue(stock))
              && r.value.totalQuantity == SumOf(here, HoldingQuantity)
              && r.value.totalValue == SumOf(here, HoldingValue(stock))
              && r.value.totalIssuedQuantity == SumOf(issuedHere, IssueQuantity)
              && r.value.totalIssuedValue == SumOf(issuedHere, IssueValue(stock))
  {
    if d !in departments {
      return None;
    }
    var here := Select(holdings, HoldingIn(d));
    var stockHere := Select(stock, StockIn(d));
    var issuedHere := Select(issued, IssueIn(d));
    var itemLabels, itemDistribution := Distribute(here, HoldingName(items), HoldingQuantity, HoldingValue(stock));
    var movement := StockMovement(stockHere, issuedHere, IssueValue(stock));
    var issuedLabels, issuedDistribution := Distribute(issuedHere, IssueName(items), IssueQuantity, IssueValue(stock));
    DistributionTotals(itemLabels, itemDistribution, here, HoldingName(items), HoldingQuantity, HoldingValue(stock));
    DistributionTotals(issuedLabels, issuedDistribution, issuedHere, IssueName(items), IssueQuantity, IssueValue(stock));
    return Some(DepartmentReport(itemLabels, itemDistribution, movement, issuedLabels, issuedDistribution,
                                 TotalQuantity(itemLabels, itemDistribution), TotalValue(itemLabels, itemDistribution),
                                 TotalQuantity(issuedLabels, issuedDistribution), TotalValue(issuedLabels, issuedDistribution)));
  }

  // ---------------------------------------------------------------------------
  // Cost report: one line per department, category and item.

  /** `issued_out_value` is a sum of issued quantities: a count, not money. */
  datatype CostLine<K> = CostLine(key: K, totalCost: int, issuedOutValue: int)

  predicate AreCostLines<K(==)>(lines: seq<CostLine<K>>, keys: seq<K>, stock: seq<StockRow>, issued: seq<IssueRow>,
                                stockKey: StockRow -> K, issueKey: IssueRow -> K)
  {
    |lines| == |keys|
    && forall k :: 0 <= k < |keys| ==>
         lines[k] == CostLine(keys[k], SumWhere(stock, stockKey, StockTotal, keys[k]),
                              SumWhere(issued, issueKey, IssueQuantity, keys[k]))
  }

  /** One `for` loop of `get_cost_report_context`: an aggregate per key, appended in
      the keys' order. */
  method CostLines<K(==)>(keys: seq<K>, stock: seq<StockRow>, issued: seq<IssueRow>,
                          stockKey: StockRow -> K, issueKey: IssueRow -> K)
    returns (lines: seq<CostLine<K>>)
    ensures AreCostLines(lines, keys, stock, issued, stockKey, issueKey)
  {
    lines := [];
    var i := 0;
    while i < |keys|
      invariant 0 <= i <= |keys|
      invariant AreCostLines(lines, keys[..i], stock, issued, stockKey, issueKey)
    {
      var k := keys[i];
      lines := lines + [CostLine(k, SumWhere(stock, stockKey, StockTotal, k), SumWhere(issued, issueKey, IssueQuantity, k))];
      i := i + 1;
    }
    assert keys[..i] == keys;
  }

  datatype CostReport = CostReport(
    departmentData: seq<CostLine<DeptId>>,
    categoryData: seq<CostLine<string>>,
    itemData: seq<CostLine<ItemId>>,
    totalInventoryCost: int)

  /** `get_cost_report_context`. */
  method CostReportOf(departments: seq<DeptId>, categories: seq<string>, itemIds: seq<ItemId>,
                      items: map<ItemId, InventoryItem>, stock: seq<StockRow>, issued: seq<IssueRow>)
    returns (r: CostReport)
    ensures AreCostLines(r.departmentData, departments, stock, issued, StockDepartment, IssueDepartment)
    ensures AreCostLines(r.categoryData, categories, stock, issued, StockCategory(items), IssueCategory(items))
    ensures AreCostLines(r.itemData, itemIds, stock, issued, StockItem, IssueItem)
    ensures r.totalInventoryCost == SumOf(stock, StockTotal)
  {
    var departmentData := CostLines(departments, stock, issued, StockDepartment, IssueDepartment);
    var categoryData := CostLines(categories, stock, issued, StockCategory(items), IssueCategory(items));
    var itemData := CostLines(itemIds, stock, issued, StockItem, IssueItem);
    r := CostReport(departmentData, categoryData, itemData, SumOf(stock, StockTotal));
  }

  function LinesCost<K>(lines: seq<CostLine<K>>): int
  {
    if |lines| == 0 then 0 else LinesCost(lines[..|lines| - 1]) + lines[|lines| - 1].totalCost
  }

  function LinesIssued<K>(lines: seq<CostLine<K>>): int
  {
    if |lines| == 0 then 0 else LinesIssued(lines[..|lines| - 1]) + lines[|lines| - 1].issuedOutValue
  }

  lemma {:induction false} LinesAreBuckets<K>(lines: seq<CostLine<K>>, keys: seq<K>, stock: seq<StockRow>, issued: seq<IssueRow>,
                                             stockKey: StockRow -> K, issueKey: IssueRow -> K)
    requires |lines| == |keys|
    requires forall k :: 0 <= k < |keys| ==>
               lines[k].totalCost == SumWhere(stock, stockKey, StockTotal, keys[k])
               && lines[k].issuedOutValue == SumWhere(issued, issueKey, IssueQuantity, keys[k])
    ensures LinesCost(lines) == SumOverKeys(keys, stock, stockKey, StockTotal)
    ensures LinesIssued(lines) == SumOverKeys(keys, issued, issueKey, IssueQuantity)
  {
    if |keys| > 0 {
      LinesAreBuckets(lines[..|lines| - 1], keys[..|keys| - 1], stock, issued, stockKey, issueKey);
    }
  }

  /** When every row belongs to exactly one listed key (each department listed once, and
      every row's department among them), the per-key lines add up to the report's
      total inventory cost and to the total issued count. */
  lemma CostLinesAddUp<K>(lines: seq<CostLine<K>>, keys: seq<K>, stock: seq<StockRow>, issued: seq<IssueRow>,
                              stockKey: StockRow -> K, issueKey: IssueRow -> K)
    requires AreCostLines(lines, keys, stock, issued, stockKey, issueKey)
    requires Distinct(keys)
    requires forall i :: 0 <= i < |stock| ==> stockKey(stock[i]) in keys
    requires forall i :: 0 <= i < |issued| ==> issueKey(issued[i]) in keys
    ensures LinesCost(lines) == SumOf(stock, StockTotal)
    ensures LinesIssued(lines) == SumOf(issued, IssueQuantity)
  {
    LinesAreBuckets(lines, keys, stock, issued, stockKey, issueKey);
    Regroup(keys, stock, stockKey, StockTotal);
    Regroup(keys, issued, issueKey, IssueQuantity);
  }
}
