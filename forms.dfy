/** The delivery form (inventory/forms.py, StockHistoryForm): which optional fields it
    offers depends on the item's capability flags. */
module Forms {
  import opened Models

  datatype Field =
    | Quantity | UnitCost | ExpiryDate | DepreciationDate | Lpo
    | SuppliedBy | DeliveryNumber | Department | DateAdded | EngravedNumber

  /** The ten fields of `Meta.fields`, in their declared order. */
  const MetaFields: seq<Field> :=
    [Quantity, UnitCost, ExpiryDate, DepreciationDate, Lpo,
     SuppliedBy, DeliveryNumber, Department, DateAdded, EngravedNumber]

  lemma EveryFieldDeclared(f: Field)
    ensures f in MetaFields
  {
    match f
    case Quantity => assert MetaFields[0] == f;
    case UnitCost => assert MetaFields[1] == f;
    case ExpiryDate => assert MetaFields[2] == f;
    case DepreciationDate => assert MetaFields[3] == f;
    case Lpo => assert MetaFields[4] == f;
    case SuppliedBy => assert MetaFields[5] == f;
    case DeliveryNumber => assert MetaFields[6] == f;
    case Department => assert MetaFields[7] == f;
    case DateAdded => assert MetaFields[8] == f;
    case EngravedNumber => assert MetaFields[9] == f;
  }

  /** Whether `__init__` leaves `f` in the form for the item (None: no `item_id`). */
  predicate Kept(f: Field, item: Option<InventoryItem>)
  {
    match f
    case ExpiryDate => item.None? || item.value.expires
    case DepreciationDate => item.None? || item.value.depreciates
    case EngravedNumber => item.None? || item.value.engraved
    case _ => true
  }

  /** The fields of `fields` not in `removed`, in their order. */
  function Drop(fields: seq<Field>, removed: set<Field>): (r: seq<Field>)
    ensures forall g :: g in r <==> g in fields && g !in removed
  {
    if |fields| == 0 then []
    else if fields[0] in removed then Drop(fields[1..], removed)
    else [fields[0]] + Drop(fields[1..], removed)
  }

  /** The optional fields whose flag is off; nothing without an item. */
  function Removed(item: Option<InventoryItem>): (r: set<Field>)
    ensures forall f :: f in r <==> !Kept(f, item)
  {
    if item.None? then {}
    else
      var it := item.value;
      (if it.expires then {} else {ExpiryDate})
      + (if it.depreciates then {} else {DepreciationDate})
      + (if it.engraved then {} else {EngravedNumber})
  }

  /** `removed` with `f` added when its flag is off. */
  function PopIfOff(removed: set<Field>, flag: bool, f: Field): (r: set<Field>)
    ensures r == removed || r == removed + {f}
  {
    if flag then removed else removed + {f}
  }

  /** The removed set, built one flag at a time as `__init__` does. */
  lemma RemovedStepwise(it: InventoryItem)
    ensures Removed(Some(it)) ==
      PopIfOff(PopIfOff(PopIfOff({}, it.expires, ExpiryDate), it.depreciates, DepreciationDate),
               it.engraved, EngravedNumber)
  {
  }

  /** The fields of the form built for `item`, in declared order. */
  function KeptFields(item: Option<InventoryItem>): (r: seq<Field>)
    ensures forall f :: f in r <==> Kept(f, item)
    ensures item.Some? ==> (ExpiryDate in r <==> item.value.expires)
    ensures item.Some? ==> (DepreciationDate in r <==> item.value.depreciates)
    ensures item.Some? ==> (EngravedNumber in r <==> item.value.engraved)
  {
    assert forall f :: f in MetaFields by {
      forall f ensures f in MetaFields {
        EveryFieldDeclared(f);
      }
    }
    Drop(MetaFields, Removed(item))
  }

  /** Without an `item_id` all ten Meta fields stay, in their order. */
  lemma KeptWithoutItem()
    ensures KeptFields(None) == MetaFields
  {
    assert Removed(None) == {};
    DropNothing(MetaFields);
  }

  lemma {:induction false} DropNothing(fields: seq<Field>)
    ensures Drop(fields, {}) == fields
  {
    if |fields| > 0 {
      DropNothing(fields[1..]);
    }
  }

  /** Popping one more field is dropping it along with the others. */
  lemma {:induction false} DropThenPop(fields: seq<Field>, removed: set<Field>, f: Field)
    ensures Without(Drop(fields, removed), f) == Drop(fields, removed + {f})
  {
    if |fields| > 0 {
      DropThenPop(fields[1..], removed, f);
    }
  }

  function Without(fields: seq<Field>, f: Field): (r: seq<Field>)
    ensures forall g :: g in r <==> g in fields && g != f
  {
    if |fields| == 0 then []
    else if fields[0] == f then Without(fields[1..], f)
    else [fields[0]] + Without(fields[1..], f)
  }

  /** The seven fields no flag can remove. */
  lemma MandatoryFieldsAlwaysKept(item: Option<InventoryItem>)
    ensures Quantity in KeptFields(item) && UnitCost in KeptFields(item)
    ensures Lpo in KeptFields(item) && SuppliedBy in KeptFields(item)
    ensures DeliveryNumber in KeptFields(item) && Department in KeptFields(item)
    ensures DateAdded in KeptFields(item)
  {
  }

  class StockHistoryForm {
    /** The form's `self.fields`, an ordered dictionary reduced to its keys. */
    var fields: seq<Field>

    /** `StockHistoryForm(item_id=...)`: start from the Meta fields, then pop those
        the item's flags rule out. */
    constructor (item: Option<InventoryItem>)
      ensures fields == KeptFields(item)
    {
      fields := MetaFields;
      new;
      ghost var declared := fields;
      ghost var removed: set<Field> := {};
      DropNothing(declared);
      if item.Some? {
        var it := item.value;
        if !it.expires {
          PopField(ExpiryDate, declared, removed);
        }
        removed := PopIfOff(removed, it.expires, ExpiryDate);
        if !it.depreciates {
          PopField(DepreciationDate, declared, removed);
        }
        removed := PopIfOff(removed, it.depreciates, DepreciationDate);
        if !it.engraved {
          PopField(EngravedNumber, declared, removed);
        }
        removed := PopIfOff(removed, it.engraved, EngravedNumber);
        RemovedStepwise(it);
      }
      assert removed == Removed(item);
    }

    /** Pops `f` from a form whose fields are `declared` less `removed`. */
    method PopField(f: Field, ghost declared: seq<Field>, ghost removed: set<Field>)
      requires fields == Drop(declared, removed)
      modifies this
      ensures fields == Drop(declared, removed + {f})
    {
      DropThenPop(declared, removed, f);
      Pop(f);
    }

    /** `self.fields.pop(f)`. */
    method Pop(f: Field)
      modifies this
      ensures fields == Without(old(fields), f)
    {
      fields := Without(fields, f);
    }
  }
}
