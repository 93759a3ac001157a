/** The stock-quantity ledger: the state that the delivery and issue handlers of
    inventory/views.py change, and those four handlers as methods. Each handler runs as
    one atomic step; its lookups that end in a 404 or an exception are `Failure`s. */
module Ledger {
  import opened Models
  import Forms

  /** A Quantity row is addressed by its (item, department) pair, which the ledger
      keeps unique. */
  type BalanceKey = (ItemId, DeptId)

  datatype Error =
    | ItemNotFound          // InventoryItem lookup failed
    | DepartmentNotFound    // StaffDepartment lookup failed
    | QuantityNotFound      // Quantity lookup by id failed
    | EmployeeNotFound      // no such employee in the given department
    | InvalidForm           // the delivery form did not validate
    | CountMismatch         // engraved numbers do not match the declared quantity
    | InsufficientStock     // "Issued quantity cannot exceed available quantity."
    | StockHistoryNotFound  // no StockHistory row has the engraved number
    | MultipleStockHistory  // more than one row has it (MultipleObjectsReturned)

  datatype Outcome = Success | Failure(error: Error)

  /** The POSTed delivery form. A value for a field the form does not offer is ignored. */
  datatype StockInput = StockInput(
    quantity: nat,
    unitCost: Cents,
    expiryDate: Option<Date>,
    depreciationDate: Option<Date>,
    lpo: string,
    suppliedBy: string,
    deliveryNumber: string,
    department: DeptId,
    dateAdded: Option<Date>,
    engravedNumber: Option<string>)

  /** The POSTed engraved delivery: a declared quantity and one number per unit. */
  datatype EngravedInput = EngravedInput(
    declared: int,
    numbers: seq<string>,
    department: DeptId,
    unitCost: Cents,
    lpo: string,
    suppliedBy: string,
    deliveryNumber: string,
    dateAdded: Option<Date>)

  /** The POSTed issue: which item, which Quantity row, which department and employee. */
  datatype IssueRequest = IssueRequest(
    item: ItemId,
    quantityKey: BalanceKey,
    department: DeptId,
    voucher: string,
    issuedTo: EmpId)

  /** Whether the delivery form built for `item` validates: the department exists, the
      three text fields are not blank, and every date the form offers (they are all
      required) was given. */
  predicate FormValid(item: Option<InventoryItem>, input: StockInput, departments: set<DeptId>)
  {
    input.department in departments
    && input.lpo != "" && input.suppliedBy != "" && input.deliveryNumber != ""
    && input.dateAdded.Some?
    && (Forms.Kept(Forms.ExpiryDate, item) ==> input.expiryDate.Some?)
    && (Forms.Kept(Forms.DepreciationDate, item) ==> input.depreciationDate.Some?)
  }

  /** `stock_form.save(commit=False)` for the form built for `item`: fields the form does
      not offer keep the model's defaults, and `total_cost` is not a form field. */
  function BulkDraft(itemId: ItemId, item: Option<InventoryItem>, input: StockInput, user: UserId): StockDraft
  {
    StockDraft(itemId, input.department, input.quantity,
               if Forms.Kept(Forms.ExpiryDate, item) then input.expiryDate else None,
               if Forms.Kept(Forms.DepreciationDate, item) then input.depreciationDate else None,
               input.unitCost, 0, input.lpo, input.suppliedBy, input.deliveryNumber,
               if Forms.Kept(Forms.EngravedNumber, item) then input.engravedNumber else None,
               false, input.dateAdded, user)
  }

  /** The unsaved StockHistory row for one engraved unit. */
  function EngravedDraft(itemId: ItemId, input: EngravedInput, number: string, user: UserId): StockDraft
  {
    StockDraft(itemId, input.department, 1, None, None, input.unitCost, input.unitCost,
               input.lpo, input.suppliedBy, input.deliveryNumber, Some(number), false,
               input.dateAdded, user)
  }

  /** The item `StockHistoryForm(item_id=...)` is built for: `if item_id:` treats id 0
      as no item at all. */
  function FormItem(items: map<ItemId, InventoryItem>, itemId: ItemId): (r: Option<InventoryItem>)
    requires itemId == 0 || itemId in items
    ensures r.None? <==> itemId == 0
    ensures r.Some? ==> r.value == items[itemId]
  {
    if itemId == 0 then None else Some(items[itemId])
  }

  /** Builds `StockHistoryForm` for `item` and reads off which dates it asks for. */
  method OfferedDates(item: Option<InventoryItem>) returns (expiry: bool, depreciation: bool)
    ensures expiry <==> Forms.Kept(Forms.ExpiryDate, item)
    ensures depreciation <==> Forms.Kept(Forms.DepreciationDate, item)
  {
    var form := new Forms.StockHistoryForm(item);
    expiry := Forms.ExpiryDate in form.fields;
    depreciation := Forms.DepreciationDate in form.fields;
  }

  /** The rows an engraved delivery writes, in order: one unit per number. */
  function EngravedRows(itemId: ItemId, input: EngravedInput, user: UserId, today: Date): (rows: seq<StockRow>)
    ensures |rows| == |input.numbers|
    ensures forall i :: 0 <= i < |rows| ==>
              rows[i].quantity == 1 && rows[i].engravedNumber == Some(input.numbers[i])
              && rows[i].totalCost == input.unitCost && rows[i].item == itemId
              && rows[i].department == input.department && !rows[i].issued
  {
    seq(|input.numbers|, i requires 0 <= i < |input.numbers| =>
          Save(EngravedDraft(itemId, input, input.numbers[i], user), today))
  }

  /** The positions of the StockHistory rows whose engraved number is `e`, in order:
      `StockHistory.objects.filter(engraved_number=e)`. A missing number (None) matches
      the rows that have none, as Django turns `=None` into `IS NULL`. */
  function RowsWithEngraved(h: seq<StockRow>, e: Option<string>): (r: seq<nat>)
    ensures forall k :: 0 <= k < |r| ==> r[k] < |h| && h[r[k]].engravedNumber == e
    ensures forall i :: 0 <= i < |h| && h[i].engravedNumber == e ==> i in r
    ensures forall k, l :: 0 <= k < l < |r| ==> r[k] < r[l]
  {
    if |h| == 0 then []
    else
      var before := RowsWithEngraved(h[..|h| - 1], e);
      if h[|h| - 1].engravedNumber == e then before + [|h| - 1] else before
  }

  /** The lookup ignores the `issued` flag: after a unit is marked issued the same number
      still finds the same rows, so issuing it again succeeds once more. */
  lemma {:induction false} IssuedFlagIgnored(h: seq<StockRow>, j: int, e: Option<string>)
    requires 0 <= j < |h|
    ensures RowsWithEngraved(h[j := h[j].(issued := true)], e) == RowsWithEngraved(h, e)
  {
    var h' := h[j := h[j].(issued := true)];
    var last := |h| - 1;
    if j < last {
      assert h'[..last] == h[..last][j := h[j].(issued := true)];
      IssuedFlagIgnored(h[..last], j, e);
    } else {
      assert h'[..last] == h[..last];
    }
  }

  /** The row of `key`, or the row `Quantity(...)` would create: no count, no dates. */
  function Prior(balances: map<BalanceKey, QuantityRow>, key: BalanceKey): QuantityRow
  {
    if key in balances then balances[key] else QuantityRow(0, None, None, None)
  }

  /** Only the row of `key` may differ (or have been created). */
  ghost predicate OnlyKeyChanged(before: map<BalanceKey, QuantityRow>, after: map<BalanceKey, QuantityRow>, key: BalanceKey)
  {
    after.Keys == before.Keys + {key}
    && forall k :: k in before && k != key ==> after[k] == before[k]
  }

  class StockLedger {
    /** Reference data the ledger reads but these handlers never change. */
    var items: map<ItemId, InventoryItem>
    var departments: set<DeptId>
    var employees: map<EmpId, Employee>

    /** The Quantity table. */
    var balances: map<BalanceKey, QuantityRow>
    /** The StockHistory table, in insertion (id) order. */
    var stockHistory: seq<StockRow>
    /** The IssuedOutHistory table, in insertion (id) order. */
    var issuedHistory: seq<IssueRow>

    /** Every StockHistory row went through `save()`. */
    ghost predicate Valid()
      reads this
    {
      forall i :: 0 <= i < |stockHistory| ==> Consistent(stockHistory[i])
    }

    constructor (items: map<ItemId, InventoryItem>, departments: set<DeptId>, employees: map<EmpId, Employee>)
      ensures Valid()
      ensures this.items == items && this.departments == departments && this.employees == employees
      ensures balances == map[] && stockHistory == [] && issuedHistory == []
    {
      this.items := items;
      this.departments := departments;
      this.employees := employees;
      balances := map[];
      stockHistory := [];
      issuedHistory := [];
    }

    /** `StockHistory.save()` of a new row: normalise, then append. */
    method SaveStock(d: StockDraft, today: Date)
      requires Valid()
      modifies this`stockHistory
      ensures Valid()
      ensures stockHistory == old(stockHistory) + [Save(d, today)]
    {
      SaveIgnoresTotalCost(d, d.totalCost, today);
      stockHistory := stockHistory + [Save(d, today)];
    }

    /** The POST branch of `item_details`: a bulk delivery of one item to one department.
        The form looks the item up first (an exception when it is missing); the view's
        own 404 lookup only comes after validation. */
    method ReceiveBulk(itemId: ItemId, input: StockInput, user: UserId, today: Date) returns (r: Outcome)
      requires Valid()
      modifies this
      ensures Valid()
      ensures items == old(items) && departments == old(departments) && employees == old(employees)
      ensures issuedHistory == old(issuedHistory)
      ensures itemId != 0 && itemId !in items ==> r == Failure(ItemNotFound)
      ensures (itemId == 0 || itemId in items) && !FormValid(FormItem(items, itemId), input, departments)
              ==> r == Failure(InvalidForm)
      ensures (itemId == 0 || itemId in items) && FormValid(FormItem(items, itemId), input, departments)
              ==> r == (if itemId in items then Success else Failure(ItemNotFound))
      ensures r.Failure? ==> balances == old(balances) && stockHistory == old(stockHistory)
      ensures r.Success? ==>
                itemId in items
                && var item := FormItem(items, itemId);
                   var key := (itemId, input.department);
                   var prior := Prior(old(balances), key);
                   FormValid(item, input, departments)
                   && stockHistory == old(stockHistory) + [Save(BulkDraft(itemId, item, input, user), today)]
                   && balances == old(balances)[key := prior.(
                        quantity := prior.quantity + input.quantity,
                        expiryDate := if Forms.Kept(Forms.ExpiryDate, item) then input.expiryDate else prior.expiryDate,
                        depreciationDate := if Forms.Kept(Forms.DepreciationDate, item) then input.depreciationDate
                                            else prior.depreciationDate)]
    {
      if itemId != 0 && itemId !in items {
        return Failure(ItemNotFound);
      }
      var item := FormItem(items, itemId);
      var offersExpiry, offersDepreciation := OfferedDates(item);
      if !FormValid(item, input, departments) {
        return Failure(InvalidForm);
      }
      if itemId !in items {
        return Failure(ItemNotFound);
      }
      SaveStock(BulkDraft(itemId, item, input, user), today);
      Credit((itemId, input.department), input.quantity,
             offersExpiry, input.expiryDate, offersDepreciation, input.depreciationDate);
      return Success;
    }

    /** The try/except of `item_details`: add to the row of `key`, or create it; a date
        the form offers overwrites the stored one. */
    method Credit(key: BalanceKey, quantity: nat, setExpiry: bool, expiryDate: Option<Date>,
                  setDepreciation: bool, depreciationDate: Option<Date>)
      modifies this`balances
      ensures balances == old(balances)[key := Prior(old(balances), key).(
                quantity := Prior(old(balances), key).quantity + quantity,
                expiryDate := if setExpiry then expiryDate else Prior(old(balances), key).expiryDate,
                depreciationDate := if setDepreciation then depreciationDate else Prior(old(balances), key).depreciationDate)]
    {
      if key in balances {
        var existing := balances[key];
        existing := existing.(quantity := existing.quantity + quantity);
        if setExpiry {
          existing := existing.(expiryDate := expiryDate);
        }
        if setDepreciation {
          existing := existing.(depreciationDate := depreciationDate);
        }
        balances := balances[key := existing];
      } else {
        var created := QuantityRow(quantity, None, None, None);
        if setExpiry {
          created := created.(expiryDate := expiryDate);
        }
        if setDepreciation {
          created := created.(depreciationDate := depreciationDate);
        }
        balances := balances[key := created];
      }
    }

    /** The lookups both issue handlers make before touching anything, in their order;
        each failing one is a 404. */
    function IssueLookup(req: IssueRequest): (e: Option<Error>)
      reads this
      ensures e.None? <==>
                req.quantityKey in balances
                && req.issuedTo in employees && employees[req.issuedTo].department == req.department
                && req.department in departments
                && req.item in items
      ensures req.quantityKey !in balances ==> e == Some(QuantityNotFound)
    {
      if req.quantityKey !in balances then Some(QuantityNotFound)
      else if !(req.issuedTo in employees && employees[req.issuedTo].department == req.department)
      then Some(EmployeeNotFound)
      else if req.department !in departments then Some(DepartmentNotFound)
      else if req.item !in items then Some(ItemNotFound)
      else None
    }

    /** The IssuedOutHistory row an issue creates: the item's description and the
        recipient's office are copied at issue time. */
    function IssueRecord(req: IssueRequest, quantity: nat, engraved: Option<string>, user: UserId, now: Timestamp): IssueRow
      reads this
      requires IssueLookup(req).None?
    {
      IssueRow(req.item, engraved, items[req.item].description, quantity, req.voucher,
               req.issuedTo, req.department, employees[req.issuedTo].office, now, user)
    }

    /** `issue_out`. The row to decrement is the caller's `quantity_id`; it is never
        compared with `item_id` or with the department. */
    method IssueBulk(req: IssueRequest, issued: int, user: UserId, now: Timestamp) returns (r: Outcome)
      requires Valid()
      requires issued >= 0  // assumed: the handler never checks the lower bound
      modifies this
      ensures Valid()
      ensures items == old(items) && departments == old(departments) && employees == old(employees)
      ensures stockHistory == old(stockHistory)
      ensures old(IssueLookup(req)).Some? ==> r == Failure(old(IssueLookup(req)).value)
      ensures old(IssueLookup(req)).None? && issued > old(balances)[req.quantityKey].quantity
              ==> r == Failure(InsufficientStock)
      ensures old(IssueLookup(req)).None? && issued <= old(balances)[req.quantityKey].quantity
              ==> r == Success
      ensures r.Failure? ==> balances == old(balances) && issuedHistory == old(issuedHistory)
      ensures r.Success? ==>
                var key := req.quantityKey;
                IssueLookup(req).None?
                && balances == old(balances)[key := old(balances)[key].(quantity := old(balances)[key].quantity - issued)]
                && issuedHistory == old(issuedHistory) + [IssueRecord(req, issued, None, user, now)]
    {
      var lookup := IssueLookup(req);
      if lookup.Some? {
        return Failure(lookup.value);
      }
      var entry := balances[req.quantityKey];
      if issued > entry.quantity {
        return Failure(InsufficientStock);
      }
      balances := balances[req.quantityKey := entry.(quantity := entry.quantity - issued)];
      issuedHistory := issuedHistory + [IssueRecord(req, issued, None, user, now)];
      return Success;
    }

    /** `add_engraved_stock`: one quantity-1 row per engraved number, and +1 on the
        (item, department) balance for each. */
    method ReceiveEngraved(itemId: ItemId, input: EngravedInput, user: UserId, today: Date) returns (r: Outcome)
      requires Valid()
      modifies this
      ensures Valid()
      ensures items == old(items) && departments == old(departments) && employees == old(employees)
      ensures issuedHistory == old(issuedHistory)
      ensures itemId !in items ==> r == Failure(ItemNotFound)
      ensures itemId in items && |input.numbers| != input.declared ==> r == Failure(CountMismatch)
      ensures itemId in items && |input.numbers| == input.declared && input.department !in departments
              ==> r == Failure(DepartmentNotFound)
      ensures itemId in items && |input.numbers| == input.declared && input.department in departments
              ==> r == Success
      ensures r.Failure? ==> balances == old(balances) && stockHistory == old(stockHistory)
      ensures r.Success? ==> stockHistory == old(stockHistory) + EngravedRows(itemId, input, user, today)
      ensures r.Success? && |input.numbers| == 0 ==> balances == old(balances)
      ensures r.Success? && |input.numbers| > 0 ==>
                var key := (itemId, input.department);
                OnlyKeyChanged(old(balances), balances, key)
                && balances[key] ==
                     (if key in old(balances)
                      then old(balances)[key].(quantity := old(balances)[key].quantity + |input.numbers|)
                      else QuantityRow(|input.numbers|, None, None, None))
    {
      if itemId !in items {
        return Failure(ItemNotFound);
      }
      if |input.numbers| != input.declared {
        return Failure(CountMismatch);
      }
      if input.department !in departments {
        return Failure(DepartmentNotFound);
      }
      var key := (itemId, input.department);
      ghost var rows := EngravedRows(itemId, input, user, today);
      var i := 0;
      while i < |input.numbers|
        invariant 0 <= i <= |input.numbers|
        invariant Valid()
        invariant items == old(items) && departments == old(departments) && employees == old(employees)
        invariant issuedHistory == old(issuedHistory)
        invariant stockHistory == old(stockHistory) + rows[..i]
        invariant i == 0 ==> balances == old(balances)
        invariant i > 0 ==>
                    OnlyKeyChanged(old(balances), balances, key)
                    && balances[key] ==
                         (if key in old(balances)
                          then old(balances)[key].(quantity := old(balances)[key].quantity + i)
                          else QuantityRow(i, None, None, None))
      {
        SaveStock(EngravedDraft(itemId, input, input.numbers[i], user), today);
        assert rows[..i + 1] == rows[..i] + [rows[i]];
        if key in balances {
          var existing := balances[key];
          balances := balances[key := existing.(quantity := existing.quantity + 1)];
        } else {
          balances := balances[key := QuantityRow(1, None, None, None)];
        }
        i := i + 1;
      }
      assert rows[..i] == rows;
      return Success;
    }

    /** `engraved_issue_out`. The decrement is saved before the engraved number is looked
        up, so a failed lookup leaves the balance one lower. The lookup is by engraved
        number alone: neither the item nor the `issued` flag restricts it. */
    method IssueEngraved(req: IssueRequest, engraved: Option<string>, user: UserId, now: Timestamp) returns (r: Outcome)
      requires Valid()
      modifies this
      ensures Valid()
      ensures items == old(items) && departments == old(departments) && employees == old(employees)
      ensures old(IssueLookup(req)).Some? ==>
                r == Failure(old(IssueLookup(req)).value)
                && balances == old(balances) && stockHistory == old(stockHistory)
                && issuedHistory == old(issuedHistory)
      ensures old(IssueLookup(req)).None? && old(balances)[req.quantityKey].quantity == 0 ==>
                r == Failure(InsufficientStock)
                && balances == old(balances) && stockHistory == old(stockHistory)
                && issuedHistory == old(issuedHistory)
      ensures old(IssueLookup(req)).None? && old(balances)[req.quantityKey].quantity >= 1 ==>
                var key := req.quantityKey;
                var matches := RowsWithEngraved(old(stockHistory), engraved);
                balances == old(balances)[key := old(balances)[key].(quantity := old(balances)[key].quantity - 1)]
                && (|matches| == 0 ==>
                      r == Failure(StockHistoryNotFound)
                      && stockHistory == old(stockHistory) && issuedHistory == old(issuedHistory))
                && (|matches| > 1 ==>
                      r == Failure(MultipleStockHistory)
                      && stockHistory == old(stockHistory) && issuedHistory == old(issuedHistory))
                && (|matches| == 1 ==>
                      r == Success
                      && stockHistory == old(stockHistory)[matches[0] := old(stockHistory)[matches[0]].(issued := true)]
                      && issuedHistory == old(issuedHistory) + [IssueRecord(req, 1, engraved, user, now)])
    {
      var lookup := IssueLookup(req);
      if lookup.Some? {
        return Failure(lookup.value);
      }
      var entry := balances[req.quantityKey];
      if 1 > entry.quantity {
        return Failure(InsufficientStock);
      }
      balances := balances[req.quantityKey := entry.(quantity := entry.quantity - 1)];

      var matches := RowsWithEngraved(stockHistory, engraved);
      if |matches| == 0 {
        return Failure(StockHistoryNotFound);
      }
      if |matches| > 1 {
        return Failure(MultipleStockHistory);
      }
      var j := matches[0];
      // `stock_history.issued = True; stock_history.save()`: the save recomputes the
      // total and keeps the date, so only the flag changes.
      var flipped := stockHistory[j].(issued := true);
      ResaveIsIdentity(flipped, DayOf(now));
      stockHistory := stockHistory[j := Save(Redraft(flipped), DayOf(now))];
      issuedHistory := issuedHistory + [IssueRecord(req, 1, engraved, user, now)];
      return Success;
    }
  }
}
