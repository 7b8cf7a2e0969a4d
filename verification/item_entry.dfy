/** Entry of a new catalogue item: the form's validity rule and the mapping of
    the form's text fields onto a stored item. */
module ItemEntry {
  import opened Basics
  import opened Text
  import opened Numbers
  import opened Models

  /** The text fields and toggles of the new-item form. */
  datatype ItemForm = ItemForm(
    itemName: string,
    itemDetails: string,
    unitPrice: string,
    quantity: string,
    unitType: string,
    discount: string,
    isDiscountEnabled: bool,
    tax: string,
    isTaxEnabled: bool)

  predicate PositiveDouble(s: string)
  {
    ParseDouble(s).Some? && ParseDouble(s).value > 0.0
  }

  predicate PositiveInt(s: string)
  {
    ParseInt(s).Some? && ParseInt(s).value > 0
  }

  /** `isValid`: a name that is not blank, a positive price and a positive quantity. */
  function IsValid(f: ItemForm): (v: bool)
    ensures v <==> (exists i :: 0 <= i < |f.itemName| && !InSet(f.itemName[i], Whitespaces))
                   && PositiveDouble(f.unitPrice) && PositiveInt(f.quantity)
  {
    TrimEmptyIff(f.itemName, Whitespaces);
    Trim(f.itemName, Whitespaces) != [] && PositiveDouble(f.unitPrice) && PositiveInt(f.quantity)
  }

  /** A discount or tax field: its parsed value when the toggle is on, and 0 when the
      toggle is off or the text does not parse. */
  function PercentField(enabled: bool, text: string): (r: int)
    ensures !enabled ==> r == 0
    ensures ParseInt(text).None? ==> r == 0
    ensures enabled && ParseInt(text).Some? ==> r == ParseInt(text).value
  {
    if enabled then ParseInt(text).GetOr(0) else 0
  }

  /** `saveItem`: the item the form stores under the fresh identifier `id`, or nothing
      when the form is not valid. */
  function SaveItem(f: ItemForm, id: int): (r: Option<Item>)
    ensures r.None? <==> !IsValid(f)
    ensures r.Some? ==> r.value.price > 0.0 && ParseDouble(f.unitPrice) == Some(r.value.price)
    ensures r.Some? ==> r.value.quantity > 0 && ParseInt(f.quantity) == Some(r.value.quantity)
    ensures r.Some? ==> r.value.name == f.itemName && r.value.id == id
    ensures r.Some? ==> r.value.details == NilIfEmpty(f.itemDetails) && r.value.unitType == NilIfEmpty(f.unitType)
    ensures r.Some? ==> r.value.discount == PercentField(f.isDiscountEnabled, f.discount)
    ensures r.Some? ==> r.value.tax == PercentField(f.isTaxEnabled, f.tax)
  {
    if !IsValid(f) then None
    else
      Some(Item(
        id,
        f.itemName,
        NilIfEmpty(f.itemDetails),
        NilIfEmpty(f.unitType),
        ParseDouble(f.unitPrice).GetOr(0.0),
        ParseInt(f.quantity).GetOr(0),
        PercentField(f.isDiscountEnabled, f.discount),
        PercentField(f.isTaxEnabled, f.tax)))
  }

  /** The item store after `saveItem`: unchanged for an invalid form, one item longer otherwise. */
  function SaveItemToStore(store: seq<Item>, f: ItemForm, id: int): (r: seq<Item>)
    ensures !IsValid(f) ==> r == store
    ensures IsValid(f) ==> |r| == |store| + 1 && r[..|store|] == store && r[|store|] == SaveItem(f, id).value
  {
    match SaveItem(f, id)
    case None => store
    case Some(it) => store + [it]
  }

  /** A form filled from well-formed numbers stores exactly those numbers, with zero
      discount and tax while both toggles are off. */
  lemma SaveItemFromNumbers(name: string, price: int, qty: int, details: string, unit: string, id: int)
    requires exists i :: 0 <= i < |name| && !InSet(name[i], Whitespaces)
    requires price > 0 && 0 < qty <= IntMax
    ensures var f := ItemForm(name, details, FormatInt(price), FormatInt(qty), unit, "", false, "", false);
            SaveItem(f, id) == Some(Item(id, name, NilIfEmpty(details), NilIfEmpty(unit), price as real, qty, 0, 0))
  {
    ParseDoubleOfInt(price);
    ParseFormatInt(qty);
  }
}
