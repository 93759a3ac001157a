/** The inventory schema (inventory/models.py) and the attributes it derives at read
    time: the normalisation `StockHistory.save` applies, the age-banded condition, and
    the "latest stock history of this item" lookups of `IssuedOutHistory`. */
module Models {

  datatype Option<+T> = None | Some(value: T)

  type ItemId = nat
  type DeptId = nat
  type EmpId = nat
  type UserId = nat

  /** A calendar date, as a day number: `(d1 - d2).days` is plain subtraction. */
  type Date = int

  /** A moment (IssuedOutHistory.date), in seconds from midnight of day 0, site time. */
  type Timestamp = int

  /** Money in whole cents: DecimalField(decimal_places=2). */
  type Cents = int

  const SecondsPerDay: int := 86400

  /** The calendar day of a moment (`datetime.date()`); `/` floors, as dates do. */
  function DayOf(t: Timestamp): (d: Date)
    ensures d * SecondsPerDay <= t < (d + 1) * SecondsPerDay
  {
    t / SecondsPerDay
  }

  /** A later moment never falls on an earlier day. */
  lemma DayOfMonotone(s: Timestamp, t: Timestamp)
    requires s <= t
    ensures DayOf(s) <= DayOf(t)
  {
  }

  /** Midnight at the start of a day: what a date becomes when compared with a datetime. */
  function Midnight(d: Date): Timestamp
  {
    d * SecondsPerDay
  }

  datatype InventoryItem = InventoryItem(
    name: string,
    description: string,
    category: string,
    expires: bool,
    depreciates: bool,
    engraved: bool)

  datatype Employee = Employee(name: string, department: DeptId, title: string, office: string)

  /** A Quantity row: the balance of one item in one department. PositiveIntegerField
      makes the count a `nat`. */
  datatype QuantityRow = QuantityRow(
    quantity: nat,
    expiryDate: Option<Date>,
    depreciationDate: Option<Date>,
    engravedNumber: Option<string>)

  /** A StockHistory instance before `save()`: `date_added` may be missing and
      `total_cost` holds whatever the caller put there. */
  datatype StockDraft = StockDraft(
    item: ItemId,
    department: DeptId,
    quantity: nat,
    expiryDate: Option<Date>,
    depreciationDate: Option<Date>,
    unitCost: Cents,
    totalCost: Cents,
    lpo: string,
    suppliedBy: string,
    deliveryNumber: string,
    engravedNumber: Option<string>,
    issued: bool,
    dateAdded: Option<Date>,
    addedBy: UserId)

  /** A saved StockHistory row: one delivery. */
  datatype StockRow = StockRow(
    item: ItemId,
    department: DeptId,
    quantity: nat,
    expiryDate: Option<Date>,
    depreciationDate: Option<Date>,
    unitCost: Cents,
    totalCost: Cents,
    lpo: string,
    suppliedBy: string,
    deliveryNumber: string,
    engravedNumber: Option<string>,
    issued: bool,
    dateAdded: Date,
    addedBy: UserId)

  /** An IssuedOutHistory row: one issue to an employee. */
  datatype IssueRow = IssueRow(
    item: ItemId,
    engravedNumber: Option<string>,
    description: string,
    quantityIssuedOut: nat,
    issueVoucherNumber: string,
    issuedTo: EmpId,
    department: DeptId,
    office: string,
    date: Timestamp,
    issuedBy: UserId)

  /** What `StockHistory.save` writes: a missing date becomes today, and the total is
      recomputed from quantity and unit cost whatever was passed in. */
  function Save(d: StockDraft, today: Date): (r: StockRow)
    ensures r.totalCost == d.quantity * d.unitCost
    ensures r.dateAdded == (if d.dateAdded.Some? then d.dateAdded.value else today)
    ensures Redraft(r) == d.(totalCost := r.totalCost, dateAdded := Some(r.dateAdded))
  {
    var date := if d.dateAdded.None? then today else d.dateAdded.value;
    StockRow(d.item, d.department, d.quantity, d.expiryDate, d.depreciationDate,
             d.unitCost, d.quantity * d.unitCost, d.lpo, d.suppliedBy, d.deliveryNumber,
             d.engravedNumber, d.issued, date, d.addedBy)
  }

  /** A saved row's total is consistent with its quantity and unit cost. */
  predicate Consistent(r: StockRow)
  {
    r.totalCost == r.quantity * r.unitCost
  }

  /** The total a caller passes to `save` never reaches the database. */
  lemma SaveIgnoresTotalCost(d: StockDraft, anyTotal: Cents, today: Date)
    ensures Save(d.(totalCost := anyTotal), today) == Save(d, today)
    ensures Consistent(Save(d, today))
  {
  }

  /** Saving a row again (as `engraved_issue_out` does after flipping `issued`) changes nothing. */
  function Redraft(r: StockRow): StockDraft
  {
    StockDraft(r.item, r.department, r.quantity, r.expiryDate, r.depreciationDate,
               r.unitCost, r.totalCost, r.lpo, r.suppliedBy, r.deliveryNumber,
               r.engravedNumber, r.issued, Some(r.dateAdded), r.addedBy)
  }

  lemma ResaveIsIdentity(r: StockRow, today: Date)
    requires Consistent(r)
    ensures Save(Redraft(r), today) == r
  {
  }

  datatype Condition = NewlyPurchased | Functional | Obsolete
  {
    function Label(): string
    {
      match this
      case NewlyPurchased => "Newly Purchased"
      case Functional => "Functional"
      case Obsolete => "Obsolete"
    }

    /** Freshness order: a larger rank is an older band. */
    function Rank(): nat
    {
      match this
      case NewlyPurchased => 0
      case Functional => 1
      case Obsolete => 2
    }
  }

  const OneYear: int := 365
  const FiveYears: int := 1825

  /** `StockHistory.condition`, as a function of the age in days. */
  function ConditionOfAge(age: int): (c: Condition)
    ensures c == NewlyPurchased <==> age < OneYear
    ensures c == Functional <==> OneYear <= age < FiveYears
    ensures c == Obsolete <==> FiveYears <= age
  {
    if age < OneYear then NewlyPurchased
    else if age < FiveYears then Functional
    else Obsolete
  }

  function StockCondition(r: StockRow, today: Date): Condition
  {
    ConditionOfAge(today - r.dateAdded)
  }

  /** An older row is never in a fresher band. */
  lemma ConditionMonotone(younger: int, older: int)
    requires younger <= older
    ensures ConditionOfAge(younger).Rank() <= ConditionOfAge(older).Rank()
  {
  }

  /** The three bands have three different labels. */
  lemma LabelsDistinct(c1: Condition, c2: Condition)
    requires c1 != c2
    ensures c1.Label() != c2.Label()
  {
    assert c1.Label()[0] != c2.Label()[0] || |c1.Label()| != |c2.Label()|;
  }

  /** Row `j` is a stock-history row of `item` with the greatest `date_added`: what
      `StockHistory.objects.filter(item=...).latest('date_added')` may return. */
  predicate IsLatest(h: seq<StockRow>, item: ItemId, j: int)
  {
    0 <= j < |h| && h[j].item == item
    && forall k :: 0 <= k < |h| && h[k].item == item ==> h[k].dateAdded <= h[j].dateAdded
  }

  predicate HasHistory(h: seq<StockRow>, item: ItemId)
  {
    exists j :: 0 <= j < |h| && h[j].item == item
  }

  /** The position of the latest row of `item`; among rows of the same date the one
      added last. None when the item has no stock history (`DoesNotExist`). */
  function LatestIndex(h: seq<StockRow>, item: ItemId): (r: Option<nat>)
    ensures r.None? <==> !HasHistory(h, item)
    ensures r.Some? ==> IsLatest(h, item, r.value)
  {
    if |h| == 0 then None
    else
      var last := |h| - 1;
      var before := LatestIndex(h[..last], item);
      if h[last].item == item && (before.None? || h[before.value].dateAdded <= h[last].dateAdded)
      then Some(last)
      else before
  }

  const NoStockHistory: string := "No Stock History"

  /** `IssuedOutHistory.unit_cost`. */
  function IssuedUnitCost(h: seq<StockRow>, item: ItemId): (c: Cents)
    ensures !HasHistory(h, item) ==> c == 0
    ensures HasHistory(h, item) ==> exists j :: IsLatest(h, item, j) && c == h[j].unitCost
  {
    match LatestIndex(h, item)
    case None => 0
    case Some(j) => h[j].unitCost
  }

  /** `IssuedOutHistory.date_purchased`. */
  function DatePurchased(h: seq<StockRow>, item: ItemId): (d: Option<Date>)
    ensures d.None? <==> !HasHistory(h, item)
    ensures d.Some? ==> exists j :: IsLatest(h, item, j) && d.value == h[j].dateAdded
  {
    match LatestIndex(h, item)
    case None => None
    case Some(j) => Some(h[j].dateAdded)
  }

  /** `IssuedOutHistory.condition`. */
  function IssuedCondition(h: seq<StockRow>, item: ItemId, today: Date): (s: string)
    ensures !HasHistory(h, item) ==> s == NoStockHistory
    ensures HasHistory(h, item) ==> exists j :: IsLatest(h, item, j) && s == StockCondition(h[j], today).Label()
  {
    match LatestIndex(h, item)
    case None => NoStockHistory
    case Some(j) => StockCondition(h[j], today).Label()
  }

  /** All derived attributes of an issue come from one and the same latest row: its
      condition is the band of the age of its purchase date, and its unit cost is that
      row's. */
  lemma DerivedFromOneRow(h: seq<StockRow>, item: ItemId, today: Date)
    requires HasHistory(h, item)
    ensures exists j :: (IsLatest(h, item, j)
                         && DatePurchased(h, item) == Some(h[j].dateAdded)
                         && IssuedUnitCost(h, item) == h[j].unitCost
                         && IssuedCondition(h, item, today) == ConditionOfAge(today - h[j].dateAdded).Label())
  {
    var j := LatestIndex(h, item).value;
    assert IsLatest(h, item, j);
  }

  /** Any two rows that both qualify as latest carry the same date, so the purchase
      date does not depend on how ties are broken. */
  lemma LatestDateUnique(h: seq<StockRow>, item: ItemId, j: int, k: int)
    requires IsLatest(h, item, j) && IsLatest(h, item, k)
    ensures h[j].dateAdded == h[k].dateAdded
  {
  }

  const MultipleEmployees: string := "Multiple employees found"

  function EmployeesNamed(emps: map<EmpId, Employee>, name: string): set<EmpId>
  {
    set id | id in emps && emps[id].name == name
  }

  lemma OnlyMember(s: set<EmpId>, a: EmpId, b: EmpId)
    requires |s| == 1 && a in s && b in s
    ensures a == b
  {
    var rest := s - {a};
    assert |rest| == |s| - 1 == 0;
    assert b !in rest;
  }

  /** `IssuedOutHistory.user_title`: the recipient's title looked up by name. */
  function UserTitle(emps: map<EmpId, Employee>, name: string): (t: Option<string>)
    ensures |EmployeesNamed(emps, name)| == 0 <==> t.None?
    ensures |EmployeesNamed(emps, name)| > 1 ==> t == Some(MultipleEmployees)
    ensures |EmployeesNamed(emps, name)| == 1
            ==> exists id :: id in emps && emps[id].name == name && t == Some(emps[id].title)
  {
    var named := EmployeesNamed(emps, name);
    if |named| == 0 then None
    else if |named| > 1 then Some(MultipleEmployees)
    else
      assert forall a, b :: a in named && b in named ==> a == b by {
        forall a, b | a in named && b in named ensures a == b {
          OnlyMember(named, a, b);
        }
      }
      var id :| id in named;
      Some(emps[id].title)
  }
}
