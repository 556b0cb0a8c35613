/**
  `ValidationItemControllerV2`: four hand-written versions of the add handler
  that collect errors into a `BindingResult`. They share the rules (the
  quantity ceiling here is 10,000) and differ in how each error is built and
  in where the "has errors?" decision sits.
 */
module ControllerV2 {
  import opened Wrappers
  import opened Java
  import opened JavaText
  import opened Items

  /** The handler versions `addItemV1` .. `addItemV4`. */
  datatype Variant = AddItemV1 | AddItemV2 | AddItemV3 | AddItemV4

  /** The quantity test is `quantity > 10000`, although the arguments it
      reports name 9,999 as the maximum. */
  const QuantityCeiling: int := 10000
  const QuantityMaxArg: int := 9999

  /** The error a variant registers against one of the three checked fields.
      `addItemV1` attaches only a default message; `addItemV2` also fills in a
      rejected value, but always the item's name; `addItemV3` uses the field's
      own value and fully qualified codes; `addItemV4` goes through
      `rejectValue`, which reads the field's value and takes a bare code. */
  function FieldErrorFor(v: Variant, item: Item, f: FieldName): Error
    requires f != Id
  {
    match v
    case AddItemV1 => FieldError(f, Null, [], [], true)
    case AddItemV2 => FieldError(f, TextOrNull(item.itemName), [], [], true)
    case AddItemV3 => FieldError(f, FieldValue(item, f), [QualifiedCode(f)], ArgsFor(f), false)
    case AddItemV4 => FieldError(f, FieldValue(item, f), [BareCode(f)], ArgsFor(f), false)
  }

  /** The code passed to `rejectValue` for each checked field. */
  function BareCode(f: FieldName): string
    requires f != Id
  {
    match f
    case ItemName => "required"
    case Price => "range"
    case Quantity => "max"
  }

  /** The code `addItemV3` spells out in full: reason, object and field. */
  function QualifiedCode(f: FieldName): string
    requires f != Id
  {
    match f
    case ItemName => "required.item.itemName"
    case Price => "range.item.price"
    case Quantity => "max.item.quantity"
  }

  /** The message arguments of each checked field's error. */
  function ArgsFor(f: FieldName): seq<int>
    requires f != Id
  {
    match f
    case ItemName => []
    case Price => [PriceMin, PriceMax]
    case Quantity => [QuantityMaxArg]
  }

  /** The object error for the cross-field rule: a bare default message in
      the first two variants, the `totalPriceMin` code in the last two. */
  function GlobalErrorFor(v: Variant, price: Int32, quantity: Int32): Error {
    if v == AddItemV1 || v == AddItemV2 then ObjectError([], [], true)
    else TotalPriceMinError(price, quantity)
  }

  /** `if (!StringUtils.hasText(itemName))`: at most one name error. */
  function NameErrors(v: Variant, item: Item): seq<Error> {
    if NameMissing(item) then [FieldErrorFor(v, item, ItemName)] else []
  }

  /** `if (price == null || price < 1000 || price > 1000000)`. */
  function PriceErrors(v: Variant, item: Item): seq<Error> {
    if PriceOutOfRange(item) then [FieldErrorFor(v, item, Price)] else []
  }

  /** `if (quantity > 10000 || quantity == null)`, reached with quantity present. */
  function QuantityErrors(v: Variant, item: Item, quantity: Int32): seq<Error> {
    if quantity > QuantityCeiling then [FieldErrorFor(v, item, Quantity)] else []
  }

  /** The block guarded by `price != null && quantity != null`, reached with
      quantity present. */
  function GlobalErrors(v: Variant, item: Item, quantity: Int32): seq<Error> {
    if item.price.Some? && TotalTooLow(item.price.value, quantity)
    then [GlobalErrorFor(v, item.price.value, quantity)] else []
  }

  /** The checks a variant runs, in order, up to its decision. The quantity
      check unboxes `quantity` before testing it for null, so a null quantity
      throws after the name and price checks have run. */
  function Validate(v: Variant, item: Item): (r: Checked<seq<Error>>)
    ensures r.NullPointer? <==> item.quantity.None?
  {
    match item.quantity
    case None => NullPointer
    case Some(quantity) =>
      Ok(NameErrors(v, item) + PriceErrors(v, item) + QuantityErrors(v, item, quantity) + GlobalErrors(v, item, quantity))
  }

  /** Which kinds of error one variant's collected errors hold, piece by piece. */
  lemma PieceFlags(v: Variant, item: Item, f: FieldName)
    requires item.quantity.Some?
    ensures var q := item.quantity.value;
      var errs := Validate(v, item).value;
      && (Flags(errs, f) <==> Flags(NameErrors(v, item), f) || Flags(PriceErrors(v, item), f)
                              || Flags(QuantityErrors(v, item, q), f) || Flags(GlobalErrors(v, item, q), f))
      && (FlagsGlobal(errs) <==> FlagsGlobal(GlobalErrors(v, item, q)))
  {
    var q := item.quantity.value;
    var n, p, qe, g := NameErrors(v, item), PriceErrors(v, item), QuantityErrors(v, item, q), GlobalErrors(v, item, q);
    assert !FlagsGlobal(n) && !FlagsGlobal(p) && !FlagsGlobal(qe);
    JoinFlags(n, p, qe, g, f);
  }

  /** What each piece flags on its own. */
  lemma PieceFieldFlags(v: Variant, item: Item, q: Int32, f: FieldName)
    ensures Flags(NameErrors(v, item), f) <==> NameMissing(item) && f == ItemName
    ensures Flags(PriceErrors(v, item), f) <==> PriceOutOfRange(item) && f == Price
    ensures Flags(QuantityErrors(v, item, q), f) <==> q > QuantityCeiling && f == Quantity
    ensures !Flags(GlobalErrors(v, item, q), f)
  {
    FlagsSingleton(FieldErrorFor(v, item, ItemName), f);
    FlagsSingleton(FieldErrorFor(v, item, Price), f);
    FlagsSingleton(FieldErrorFor(v, item, Quantity), f);
    if item.price.Some? {
      FlagsSingleton(GlobalErrorFor(v, item.price.value, q), f);
    }
  }

  /** A field error is collected exactly when that field's rule fails: the
      name lacks text; the price is null or outside [1000, 1000000]; the
      quantity exceeds 10,000 (so 10,000 itself passes). No id error is ever
      collected. */
  lemma FieldRules(v: Variant, item: Item)
    requires item.quantity.Some?
    ensures var errs := Validate(v, item).value;
      && (Flags(errs, ItemName) <==> !HasText(item.itemName))
      && (Flags(errs, Price) <==> item.price.None? || item.price.value < 1000 || item.price.value > 1000000)
      && (Flags(errs, Quantity) <==> item.quantity.value > 10000)
      && !Flags(errs, Id)
  {
    var q := item.quantity.value;
    PieceFlags(v, item, ItemName);
    PieceFieldFlags(v, item, q, ItemName);
    PieceFlags(v, item, Price);
    PieceFieldFlags(v, item, q, Price);
    PieceFlags(v, item, Quantity);
    PieceFieldFlags(v, item, q, Quantity);
    PieceFlags(v, item, Id);
    PieceFieldFlags(v, item, q, Id);
  }

  /** The global error is collected exactly when the price is present and the
      32-bit product of price and quantity is below 10,000. */
  lemma GlobalRule(v: Variant, item: Item)
    requires item.quantity.Some?
    ensures FlagsGlobal(Validate(v, item).value) <==>
      item.price.Some? && Mul(item.price.value, item.quantity.value) < 10000
  {
    var q := item.quantity.value;
    PieceFlags(v, item, Id);
    var g := GlobalErrors(v, item, q);
    if item.price.Some? && TotalTooLow(item.price.value, q) {
      assert g[0] in g && g[0].ObjectError?;
    } else {
      assert g == [];
    }
  }

  /** Each piece holds at most one error, of the piece's own rank. */
  lemma PieceRanks(v: Variant, item: Item, q: Int32)
    ensures |NameErrors(v, item)| <= 1 && forall e :: e in NameErrors(v, item) ==> Rank(e) == 1
    ensures |PriceErrors(v, item)| <= 1 && forall e :: e in PriceErrors(v, item) ==> Rank(e) == 2
    ensures |QuantityErrors(v, item, q)| <= 1 && forall e :: e in QuantityErrors(v, item, q) ==> Rank(e) == 3
    ensures |GlobalErrors(v, item, q)| <= 1 && forall e :: e in GlobalErrors(v, item, q) ==> Rank(e) == 4
  {
  }

  /** Errors accumulate without short-circuiting, at most one of each kind,
      in the order itemName, price, quantity, global. */
  lemma ErrorOrder(v: Variant, item: Item)
    requires item.quantity.Some?
    ensures Ordered(Validate(v, item).value) && |Validate(v, item).value| <= 4
  {
    var q := item.quantity.value;
    PieceRanks(v, item, q);
    OrderedPieces(NameErrors(v, item), PriceErrors(v, item), QuantityErrors(v, item, q), GlobalErrors(v, item, q));
  }

  /** The handler's decision. `addItemV1` redisplays whenever an error was
      collected; the later variants test for errors only inside the block that
      runs when both price and quantity are present. */
  function AddItem(v: Variant, item: Item): (r: Outcome<seq<Error>>)
    ensures r.Fault? <==> item.quantity.None?
    ensures r.Redisplay? <==>
      item.quantity.Some? && |Validate(v, item).value| > 0 && (v == AddItemV1 || item.price.Some?)
    ensures r.Redisplay? ==> Validate(v, item) == Ok(r.errors)
    ensures r.Save? ==> r.item == item
    ensures !r.Update?
  {
    match Validate(v, item)
    case NullPointer => Fault
    case Ok(errs) =>
      if v == AddItemV1 then
        if |errs| > 0 then Redisplay(errs) else Save(item)
      else if item.price.Some? && item.quantity.Some? && |errs| > 0 then Redisplay(errs)
      else Save(item)
  }

  /** `addItemV1` redisplays exactly when some error was collected. */
  lemma AddItemV1Decision(item: Item)
    requires item.quantity.Some?
    ensures AddItem(AddItemV1, item).Redisplay? <==> |Validate(AddItemV1, item).value| > 0
    ensures AddItem(AddItemV1, item).Save? <==> |Validate(AddItemV1, item).value| == 0
  {
  }

  /** The later variants redisplay exactly when price is present and some
      error was collected; with a null price the item is saved even though a
      price error is on record. */
  lemma NestedDecision(v: Variant, item: Item)
    requires v != AddItemV1 && item.quantity.Some?
    ensures AddItem(v, item).Redisplay? <==> item.price.Some? && |Validate(v, item).value| > 0
    ensures item.price.None? ==> AddItem(v, item) == Save(item) && Flags(Validate(v, item).value, Price)
  {
  }

  /** Every collected error is one of the four the checks can build. */
  lemma MemberOfValidate(v: Variant, item: Item, e: Error)
    requires Validate(v, item).Ok? && e in Validate(v, item).value
    ensures || e == FieldErrorFor(v, item, ItemName)
            || e == FieldErrorFor(v, item, Price)
            || e == FieldErrorFor(v, item, Quantity)
            || (item.price.Some? && e == GlobalErrorFor(v, item.price.value, item.quantity.value))
  {
    var q := item.quantity.value;
    var n, p, qe, g := NameErrors(v, item), PriceErrors(v, item), QuantityErrors(v, item, q), GlobalErrors(v, item, q);
    assert e in n || e in p || e in qe || e in g;
  }

  /** The rejected value each variant records: none in `addItemV1`, the item's
      name for every field in `addItemV2`, the field's own value in
      `addItemV3` and `addItemV4`. */
  lemma RejectedValues(v: Variant, item: Item, e: Error)
    requires Validate(v, item).Ok? && e in Validate(v, item).value && e.FieldError?
    ensures v == AddItemV1 ==> e.rejected == Null
    ensures v == AddItemV2 ==> e.rejected == FieldValue(item, ItemName)
    ensures v == AddItemV3 || v == AddItemV4 ==> e.rejected == FieldValue(item, e.field)
  {
    MemberOfValidate(v, item, e);
  }

  /** Codes and arguments of the coded variants: one code per error, with
      the range bounds on price, the advertised maximum 9,999 on quantity and
      the threshold with the wrapped product on the global error. The first
      two variants carry default messages and no codes. */
  lemma CodesAndArgs(v: Variant, item: Item, e: Error)
    requires Validate(v, item).Ok? && e in Validate(v, item).value
    ensures v == AddItemV1 || v == AddItemV2 ==> e.codes == [] && e.args == [] && e.hasDefaultMessage
    ensures v == AddItemV3 || v == AddItemV4 ==> |e.codes| == 1 && !e.hasDefaultMessage
    ensures v == AddItemV4 && e.FieldError? ==>
      e.codes == (if e.field == ItemName then ["required"] else if e.field == Price then ["range"] else ["max"])
    ensures v == AddItemV3 && e.FieldError? ==>
      e.codes == (if e.field == ItemName then ["required.item.itemName"]
                  else if e.field == Price then ["range.item.price"] else ["max.item.quantity"])
    ensures (v == AddItemV3 || v == AddItemV4) && e.FieldError? && e.field == Price ==> e.args == [1000, 1000000]
    ensures (v == AddItemV3 || v == AddItemV4) && e.FieldError? && e.field == Quantity ==> e.args == [9999]
    ensures (v == AddItemV3 || v == AddItemV4) && e.ObjectError? ==>
      e.codes == ["totalPriceMin"] && e.args == [10000, Mul(item.price.value, item.quantity.value)]
  {
    MemberOfValidate(v, item, e);
  }

  /** Every variant throws on a null quantity, although its test ends with
      `quantity == null`: the comparison `quantity > 10000` unboxes first. */
  lemma NullQuantityThrows(v: Variant)
    ensures AddItem(v, Item(None, Some("Book"), Some(2000), None)) == Fault
  {
  }

  /** With the price missing, `addItemV2` .. `addItemV4` save an item that
      has a blank name and no price, although both errors were collected. */
  lemma NullPriceSaved(v: Variant)
    requires v != AddItemV1
    ensures var item := Item(None, Some(""), None, Some(10));
      && AddItem(v, item) == Save(item)
      && Flags(Validate(v, item).value, ItemName) && Flags(Validate(v, item).value, Price)
  {
    var item := Item(None, Some(""), None, Some(10));
    FieldRules(v, item);
  }

  /** A price of 1,000,000 and a quantity of 2,148 pass their own rules and
      multiply to 2,148,000,000, but the `int` product wraps to
      -2,146,967,296, so the item is rejected by the global rule. */
  lemma OverflowRejectsValidItem(v: Variant)
    ensures var item := Item(None, Some("Book"), Some(1000000), Some(2148));
      && 1000000 * 2148 >= 10000
      && Mul(1000000, 2148) == -2146967296
      && Validate(v, item) == Ok([GlobalErrorFor(v, 1000000, 2148)])
      && AddItem(v, item).Redisplay?
  {
    var item := Item(None, Some("Book"), Some(1000000), Some(2148));
    assert HasText(Some("Book")) by {
      assert !IsWhitespace("Book"[0]);
    }
    assert NameErrors(v, item) == [] && PriceErrors(v, item) == [] && QuantityErrors(v, item, 2148) == [];
    assert GlobalErrors(v, item, 2148) == [GlobalErrorFor(v, 1000000, 2148)];
    assert [] + [] + [] + [GlobalErrorFor(v, 1000000, 2148)] == [GlobalErrorFor(v, 1000000, 2148)];
  }

  /** A quantity of exactly 10,000 is accepted, while the error the rule
      would raise tells the user that 9,999 is the maximum. */
  lemma QuantityCeilingMismatch(v: Variant)
    ensures var item := Item(None, Some("Book"), Some(2000), Some(10000));
      && AddItem(v, item) == Save(item)
      && (v == AddItemV3 || v == AddItemV4 ==> FieldErrorFor(v, item, Quantity).args == [9999])
  {
    assert HasText(Some("Book")) by {
      assert !IsWhitespace("Book"[0]);
    }
  }

}
