/**
  `ValidationItemControllerV1.addItem`: errors are collected in a
  `Map<String, String>` from a key to a message. The quantity ceiling here is
  9,999, and the cross-field block is guarded with `||`.
 */
module ControllerV1 {
  import opened Wrappers
  import opened Java
  import opened JavaText
  import opened Items

  /** The literal default messages stored under each key, named rather than
      quoted. */
  datatype Message = NameRequired | PriceRange | QuantityMax | TotalPriceTooLow

  type ErrorMap = map<string, Message>

  const QuantityCeiling: int := 9999

  /** The only keys the handler ever writes. */
  const Keys: set<string> := {"itemName", "price", "quantity", "globalError"}

  /** `errors.put(key, message)` when `fails` holds. */
  function PutIf(m: ErrorMap, fails: bool, key: string, msg: Message): (r: ErrorMap)
    ensures key in r <==> fails || key in m
    ensures fails ==> r[key] == msg
    ensures forall k :: k != key ==> (k in r <==> k in m)
    ensures forall k :: k in m && (k != key || !fails) ==> r[k] == m[k]
    ensures |r| <= |m| + 1
  {
    if fails then m[key := msg] else m
  }

  /** The checks of `addItem` in order. The quantity test unboxes `quantity`
      before its null test, and the cross-field block, entered when either
      value is present, multiplies both: a null in either throws. */
  function Validate(item: Item): (r: Checked<ErrorMap>)
    ensures r.NullPointer? <==> item.price.None? || item.quantity.None?
  {
    var m1 := PutIf(map[], !HasText(item.itemName), "itemName", NameRequired);
    var m2 := PutIf(m1, PriceOutOfRange(item), "price", PriceRange);
    match item.quantity
    case None => NullPointer
    case Some(quantity) =>
      var m3 := PutIf(m2, quantity > QuantityCeiling, "quantity", QuantityMax);
      if item.price.Some? || item.quantity.Some? then
        match item.price
        case None => NullPointer
        case Some(price) => Ok(PutIf(m3, TotalTooLow(price, quantity), "globalError", TotalPriceTooLow))
      else Ok(m3)
  }

  /** With both values present, each key is in the map exactly when its rule
      fails; no other key appears, so the map holds at most four entries. */
  lemma ValidateRules(item: Item)
    requires item.price.Some? && item.quantity.Some?
    ensures var m := Validate(item).value;
      && ("itemName" in m <==> !HasText(item.itemName))
      && ("price" in m <==> item.price.value < 1000 || item.price.value > 1000000)
      && ("quantity" in m <==> item.quantity.value > 9999)
      && ("globalError" in m <==> Mul(item.price.value, item.quantity.value) < 10000)
      && m.Keys <= Keys && |m| <= 4
      && ("itemName" in m ==> m["itemName"] == NameRequired)
      && ("price" in m ==> m["price"] == PriceRange)
      && ("quantity" in m ==> m["quantity"] == QuantityMax)
      && ("globalError" in m ==> m["globalError"] == TotalPriceTooLow)
  {
  }

  /** `addItem` redisplays the form exactly when the map is non-empty and
      saves the submitted item otherwise; a null price or quantity throws. */
  function AddItem(item: Item): (r: Outcome<ErrorMap>)
    ensures r.Fault? <==> item.price.None? || item.quantity.None?
    ensures r.Redisplay? <==> Validate(item).Ok? && |Validate(item).value| > 0
    ensures r.Redisplay? ==> r.errors == Validate(item).value
    ensures r.Save? ==> r.item == item && Validate(item) == Ok(map[])
    ensures !r.Update?
  {
    match Validate(item)
    case NullPointer => Fault
    case Ok(errors) => if |errors| > 0 then Redisplay(errors) else Save(item)
  }

  /** The `||` guard enters the cross-field block when only the quantity is
      present, and unboxing the null price there throws. */
  lemma NullPriceThrows()
    ensures AddItem(Item(None, Some("Book"), None, Some(10))) == Fault
  {
  }

}
