/** The read-only views of inventory/views.py over the ledger's tables: the delivery and
    LPO summaries, and the filtered, newest-first list of issues. */
module Queries {
  import opened Models
  import opened Folds
  import opened Ordering

  /** `item.item_name`; every row's item exists, so the default is never seen. */
  function NameOf(items: map<ItemId, InventoryItem>, id: ItemId): string
  {
    if id in items then items[id].name else ""
  }

  /** `item.category`. */
  function CategoryOf(items: map<ItemId, InventoryItem>, id: ItemId): string
  {
    if id in items then items[id].category else ""
  }

  function TotalCostOf(r: StockRow): int
  {
    r.totalCost
  }

  function ValueOf(r: StockRow): int
  {
    r.quantity * r.unitCost
  }

  function WithDeliveryNumber(number: string): StockRow -> bool
  {
    (r: StockRow) => r.deliveryNumber == number
  }

  function WithLpo(lpo: string): StockRow -> bool
  {
    (r: StockRow) => r.lpo == lpo
  }

  /** The distinct items among `rows`: `Count('item', distinct=True)` counts this set. */
  function ItemsOf(rows: seq<StockRow>): set<ItemId>
  {
    set i | 0 <= i < |rows| :: rows[i].item
  }

  lemma {:induction false} ItemsOfBound(rows: seq<StockRow>)
    ensures |ItemsOf(rows)| <= |rows|
  {
    if |rows| > 0 {
      var front := rows[..|rows| - 1];
      ItemsOfBound(front);
      assert ItemsOf(rows) == ItemsOf(front) + {rows[|rows| - 1].item} by {
        forall x | x in ItemsOf(rows) ensures x in ItemsOf(front) + {rows[|rows| - 1].item} {
          var i :| 0 <= i < |rows| && rows[i].item == x;
          if i < |rows| - 1 {
            assert front[i] == rows[i];
          }
        }
        forall x | x in ItemsOf(front) ensures x in ItemsOf(rows) {
          var i :| 0 <= i < |front| && front[i].item == x;
          assert rows[i] == front[i];
        }
      }
    }
  }

  /** One entry of the `items` list of the JSON answer. */
  datatype DeliveryLine = DeliveryLine(itemName: string, quantity: nat, unitCost: Cents, totalCost: Cents)

  datatype Details = Details(itemCount: nat, totalValue: Cents, lines: seq<DeliveryLine>)

  datatype LpoDetails = LpoDetails(details: Details, supplier: string)

  /** What both detail views compute over their matching rows. */
  function Summarise(items: map<ItemId, InventoryItem>, rows: seq<StockRow>): (d: Details)
    ensures d.totalValue == SumOf(rows, TotalCostOf)
    ensures d.itemCount == |ItemsOf(rows)| && d.itemCount <= |rows|
    ensures d.itemCount == 0 <==> |rows| == 0
    ensures |d.lines| == |rows|
    ensures forall i :: 0 <= i < |rows| ==>
              d.lines[i] == DeliveryLine(NameOf(items, rows[i].item), rows[i].quantity,
                                         rows[i].unitCost, rows[i].totalCost)
  {
    ItemsOfBound(rows);
    assert |rows| > 0 ==> rows[0].item in ItemsOf(rows);
    Details(|ItemsOf(rows)|, SumOf(rows, TotalCostOf),
            seq(|rows|, i requires 0 <= i < |rows| =>
                  DeliveryLine(NameOf(items, rows[i].item), rows[i].quantity,
                               rows[i].unitCost, rows[i].totalCost)))
  }

  /** `get_delivery_details`. */
  function DeliveryDetails(h: seq<StockRow>, items: map<ItemId, InventoryItem>, number: string): (d: Details)
    ensures d == Summarise(items, Select(h, WithDeliveryNumber(number)))
    ensures (forall i :: 0 <= i < |h| ==> h[i].deliveryNumber != number) ==> d.totalValue == 0 && d.itemCount == 0
  {
    var rows := Select(h, WithDeliveryNumber(number));
    assert (forall i :: 0 <= i < |h| ==> h[i].deliveryNumber != number) ==> |rows| == 0 by {
      if |rows| > 0 {
        assert rows[0] in h;
      }
    }
    Summarise(items, rows)
  }

  /** The first row, in id order, with that LPO number: what `first()` returns. */
  function FirstWithLpo(h: seq<StockRow>, lpo: string): (r: Option<nat>)
    ensures r.None? <==> forall i :: 0 <= i < |h| ==> h[i].lpo != lpo
    ensures r.Some? ==> r.value < |h| && h[r.value].lpo == lpo
                        && forall k :: 0 <= k < r.value ==> h[k].lpo != lpo
  {
    if |h| == 0 then None
    else if h[0].lpo == lpo then Some(0)
    else
      match FirstWithLpo(h[1..], lpo)
      case None => None
      case Some(i) => Some(i + 1)
  }

  /** `get_lpo_details`: the summary, and the first matching row's supplier or "N/A". */
  function LpoDetailsOf(h: seq<StockRow>, items: map<ItemId, InventoryItem>, lpo: string): (d: LpoDetails)
    ensures d.details == Summarise(items, Select(h, WithLpo(lpo)))
    ensures (forall i :: 0 <= i < |h| ==> h[i].lpo != lpo) ==> d.supplier == "N/A" && d.details.totalValue == 0
    ensures (exists i :: 0 <= i < |h| && h[i].lpo == lpo) ==>
              exists i :: 0 <= i < |h| && h[i].lpo == lpo && (forall k :: 0 <= k < i ==> h[k].lpo != lpo)
                          && d.supplier == h[i].suppliedBy
  {
    var rows := Select(h, WithLpo(lpo));
    assert (forall i :: 0 <= i < |h| ==> h[i].lpo != lpo) ==> |rows| == 0 by {
      if |rows| > 0 {
        assert rows[0] in h;
      }
    }
    match FirstWithLpo(h, lpo)
    case None => LpoDetails(Summarise(items, rows), "N/A")
    case Some(i) => LpoDetails(Summarise(items, rows), h[i].suppliedBy)
  }

  /** Over saved rows, adding up `total_cost` is adding up quantity times unit cost. */
  lemma {:induction false} TotalCostIsValue(rows: seq<StockRow>)
    requires forall i :: 0 <= i < |rows| ==> Consistent(rows[i])
    ensures SumOf(rows, TotalCostOf) == SumOf(rows, ValueOf)
  {
    if |rows| > 0 {
      TotalCostIsValue(rows[..|rows| - 1]);
    }
  }

  /** A delivery's total value is the worth of what it delivered. */
  lemma DeliveryValue(h: seq<StockRow>, items: map<ItemId, InventoryItem>, number: string)
    requires forall i :: 0 <= i < |h| ==> Consistent(h[i])
    ensures DeliveryDetails(h, items, number).totalValue == SumOf(Select(h, WithDeliveryNumber(number)), ValueOf)
  {
    var rows := Select(h, WithDeliveryNumber(number));
    forall i | 0 <= i < |rows| ensures Consistent(rows[i]) {
      assert rows[i] in h;
    }
    TotalCostIsValue(rows);
  }

  /** The cleaned `IssuedOutFilterForm`: an empty text means "no filter"; a choice or
      date that was not given is None. */
  datatype IssuedFilter = IssuedFilter(
    engravedNumber: string,
    itemName: string,
    category: Option<string>,
    department: Option<DeptId>,
    startDate: Option<Date>,
    endDate: Option<Date>)

  /** `needle` occurs in `hay` (`icontains`, without the case folding). */
  predicate Contains(hay: string, needle: string)
  {
    exists i :: 0 <= i <= |hay| && needle <= hay[i..]
  }

  /** Whether an issue passes every filter the form sets. A date bound compares the
      issue's moment with midnight of the given day. */
  predicate Matches(f: IssuedFilter, items: map<ItemId, InventoryItem>, r: IssueRow)
  {
    (f.engravedNumber == "" || (r.engravedNumber.Some? && Contains(r.engravedNumber.value, f.engravedNumber)))
    && (f.itemName == "" || Contains(NameOf(items, r.item), f.itemName))
    && (f.category.None? || CategoryOf(items, r.item) == f.category.value)
    && (f.department.None? || r.department == f.department.value)
    && (f.startDate.None? || r.date >= Midnight(f.startDate.value))
    && (f.endDate.None? || r.date <= Midnight(f.endDate.value))
  }

  /** An invalid form (None) filters nothing. */
  function Admits(form: Option<IssuedFilter>, items: map<ItemId, InventoryItem>): IssueRow -> bool
  {
    (r: IssueRow) => form.None? || Matches(form.value, items, r)
  }

  function IssueDate(r: IssueRow): int
  {
    r.date
  }

  /** `AllIssuedOutView.get_queryset`: the admitted issues, newest first. */
  function FilterIssued(issued: seq<IssueRow>, items: map<ItemId, InventoryItem>, form: Option<IssuedFilter>): (r: seq<IssueRow>)
    ensures SortedDesc(r, IssueDate)
    ensures multiset(r) == multiset(Select(issued, Admits(form, items)))
    ensures forall i :: 0 <= i < |r| ==> r[i] in issued && (form.Some? ==> Matches(form.value, items, r[i]))
    ensures forall i :: 0 <= i < |issued| && (form.None? || Matches(form.value, items, issued[i])) ==> issued[i] in r
  {
    SortedSelection(issued, Admits(form, items), IssueDate);
    SortDesc(Select(issued, Admits(form, items)), IssueDate)
  }

  /** Sorting a selection keeps exactly the selected rows. */
  lemma SortedSelection<T>(s: seq<T>, p: T -> bool, key: T -> int)
    ensures forall i :: 0 <= i < |SortDesc(Select(s, p), key)| ==>
              SortDesc(Select(s, p), key)[i] in s && p(SortDesc(Select(s, p), key)[i])
    ensures forall i :: 0 <= i < |s| && p(s[i]) ==> s[i] in SortDesc(Select(s, p), key)
  {
    var selected := Select(s, p);
    var sorted := SortDesc(selected, key);
    forall i | 0 <= i < |sorted| ensures sorted[i] in s && p(sorted[i]) {
      assert sorted[i] in multiset(sorted);
    }
    forall i | 0 <= i < |s| && p(s[i]) ensures s[i] in sorted {
      assert s[i] in multiset(selected);
    }
  }

  /** With no filter form, every issue is listed, once each. */
  lemma InvalidFormListsAll(issued: seq<IssueRow>, items: map<ItemId, InventoryItem>)
    ensures multiset(FilterIssued(issued, items, None)) == multiset(issued)
  {
    SelectAll(issued, Admits(None, items));
  }

  lemma {:induction false} SelectAll<T>(s: seq<T>, p: T -> bool)
    requires forall i :: 0 <= i < |s| ==> p(s[i])
    ensures Select(s, p) == s
  {
    if |s| > 0 {
      SelectAll(s[..|s| - 1], p);
      assert s == s[..|s| - 1] + [s[|s| - 1]];
    }
  }

  /** The end date is compared with its midnight, so an issue later that same day is
      left out although it falls on the end date. */
  lemma EndDateDropsRestOfDay(f: IssuedFilter, items: map<ItemId, InventoryItem>, r: IssueRow)
    requires f.endDate.Some? && DayOf(r.date) == f.endDate.value
    ensures Matches(f, items, r) ==> r.date == Midnight(f.endDate.value)
  {
  }

  /** The start date includes the whole of its day. */
  lemma StartDateKeepsWholeDay(f: IssuedFilter, r: IssueRow)
    requires f.startDate.Some? && DayOf(r.date) >= f.startDate.value
    ensures r.date >= Midnight(f.startDate.value)
  {
  }
}
