/**
  The add-item rule set as the handlers evidently intend it: the same rules
  and error shapes as `addItemV4`, but a null quantity is reported rather than
  thrown on, the product is the exact one rather than a 32-bit wrap, the
  quantity ceiling is the advertised 9,999, and the form is redisplayed
  whenever any error exists.
 */
module Canonical {
  import opened Wrappers
  import opened Java
  import opened JavaText
  import opened Items
  import ControllerV2

  const QuantityMax: int := 9999

  /** Null is tested first, so a missing quantity is an error, not a fault. */
  function QuantityErrors(item: Item): seq<Error> {
    if item.quantity.None? || item.quantity.value > QuantityMax
    then [ControllerV2.FieldErrorFor(ControllerV2.AddItemV4, item, Quantity)] else []
  }

  /** The cross-field rule on the exact product, skipped when either value is null. */
  function GlobalErrors(item: Item): seq<Error> {
    if item.price.Some? && item.quantity.Some? && item.price.value * item.quantity.value < TotalPriceMin
    then [ObjectError(["totalPriceMin"], [TotalPriceMin, item.price.value * item.quantity.value], false)]
    else []
  }

  /** Every rule, in the order itemName, price, quantity, global. The name
      and price rules are `addItemV4`'s own. */
  function Validate(item: Item): seq<Error> {
    ControllerV2.NameErrors(ControllerV2.AddItemV4, item) + ControllerV2.PriceErrors(ControllerV2.AddItemV4, item)
    + QuantityErrors(item) + GlobalErrors(item)
  }

  /** Which kinds of error `Validate` holds, piece by piece. */
  lemma PieceFlags(item: Item, f: FieldName)
    ensures Flags(Validate(item), f) <==>
      (NameMissing(item) && f == ItemName) || (PriceOutOfRange(item) && f == Price)
      || ((item.quantity.None? || item.quantity.value > QuantityMax) && f == Quantity)
    ensures FlagsGlobal(Validate(item)) <==> FlagsGlobal(GlobalErrors(item))
  {
    var v := ControllerV2.AddItemV4;
    var n, p, q, g := ControllerV2.NameErrors(v, item), ControllerV2.PriceErrors(v, item), QuantityErrors(item), GlobalErrors(item);
    assert !FlagsGlobal(n) && !FlagsGlobal(p) && !FlagsGlobal(q);
    JoinFlags(n, p, q, g, f);
    ControllerV2.PieceFieldFlags(v, item, 0, f);
    FlagsSingleton(ControllerV2.FieldErrorFor(v, item, Quantity), f);
    if item.price.Some? && item.quantity.Some? {
      var t := item.price.value * item.quantity.value;
      FlagsSingleton(ObjectError(["totalPriceMin"], [TotalPriceMin, t], false), f);
    }
  }

  /** Each field error is present exactly when its rule fails, a null
      quantity included, with 9,999 as the quantity ceiling. */
  lemma FieldRules(item: Item)
    ensures Flags(Validate(item), ItemName) <==> !HasText(item.itemName)
    ensures Flags(Validate(item), Price) <==> item.price.None? || item.price.value < 1000 || item.price.value > 1000000
    ensures Flags(Validate(item), Quantity) <==> item.quantity.None? || item.quantity.value > 9999
    ensures !Flags(Validate(item), Id)
  {
    PieceFlags(item, ItemName);
    PieceFlags(item, Price);
    PieceFlags(item, Quantity);
    PieceFlags(item, Id);
  }

  /** The global error is present exactly when both values are present and
      their exact product is below 10,000; it reports that product. */
  lemma GlobalRule(item: Item)
    ensures FlagsGlobal(Validate(item)) <==>
      item.price.Some? && item.quantity.Some? && item.price.value * item.quantity.value < 10000
    ensures forall e :: e in Validate(item) && e.ObjectError? ==>
      e.args == [10000, item.price.value * item.quantity.value]
  {
    PieceFlags(item, Id);
    var g := GlobalErrors(item);
    if |g| > 0 {
      assert g[0] in g && g[0].ObjectError?;
    }
    forall e | e in Validate(item) && e.ObjectError?
      ensures e.args == [10000, item.price.value * item.quantity.value]
    {
      var v := ControllerV2.AddItemV4;
      var n, p, q := ControllerV2.NameErrors(v, item), ControllerV2.PriceErrors(v, item), QuantityErrors(item);
      assert e in n + p + q + g;
      assert e !in n && e !in p && e !in q;
    }
  }

  /** The corrected decision: never a fault, the form redisplayed exactly
      when some error exists, and the item saved unchanged otherwise. */
  function AddItem(item: Item): (r: Outcome<seq<Error>>)
    ensures r.Redisplay? || r.Save?
    ensures r.Redisplay? <==> |Validate(item)| > 0
    ensures r.Redisplay? ==> r.errors == Validate(item)
    ensures r.Save? ==> r.item == item
  {
    var errs := Validate(item);
    if |errs| > 0 then Redisplay(errs) else Save(item)
  }

  /** Where `addItemV4` neither throws, nor wraps the product, nor meets the
      quantity 10,000 on which its ceiling and its message disagree, it
      collects the same errors as the corrected rules, a null price included.
      The decisions still part there: `addItemV4` saves an item whose price is
      null, the corrected rules redisplay it. */
  lemma ErrorsAgreeWithAddItemV4(item: Item)
    requires item.quantity.Some? && item.quantity.value != 10000
    requires item.price.Some? ==> IntMin <= item.price.value * item.quantity.value <= IntMax
    ensures ControllerV2.Validate(ControllerV2.AddItemV4, item) == Ok(Validate(item))
    ensures item.price.None? ==>
      ControllerV2.AddItem(ControllerV2.AddItemV4, item) == Save(item) && AddItem(item).Redisplay?
  {
    var v, q := ControllerV2.AddItemV4, item.quantity.value;
    if item.price.Some? {
      assert Mul(item.price.value, q) == item.price.value * q;
    }
    assert ControllerV2.GlobalErrors(v, item, q) == GlobalErrors(item);
    assert ControllerV2.QuantityErrors(v, item, q) == QuantityErrors(item);
    if item.price.None? {
      assert |ControllerV2.PriceErrors(v, item)| == 1;
    }
  }

  /** With the price present as well, `addItemV4` and the corrected rules
      also decide the same way. */
  lemma DecisionAgreesWithAddItemV4(item: Item)
    requires item.price.Some? && item.quantity.Some? && item.quantity.value != 10000
    requires IntMin <= item.price.value * item.quantity.value <= IntMax
    ensures ControllerV2.AddItem(ControllerV2.AddItemV4, item) == AddItem(item)
  {
    ErrorsAgreeWithAddItemV4(item);
  }

}
