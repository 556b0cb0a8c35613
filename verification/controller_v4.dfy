/**
  `ValidationItemControllerV4`: field rules come from constraint annotations
  on dedicated form objects, checked before the handler runs; the handler
  adds the cross-field rule on top, null-safely, and copies the form into a
  fresh `Item` when nothing failed.
 */
module ControllerV4 {
  import opened Wrappers
  import opened Java
  import opened Items
  import EditForm

  /** The fields of `ItemSaveForm` the handler reads. Its constraints are not
      part of this model: the errors they produce are an input to `AddItem`. */
  datatype ItemSaveForm = ItemSaveForm(itemName: Option<string>, price: Option<Int32>, quantity: Option<Int32>)

  /** The cross-field block: with both values present and a 32-bit product
      below 10,000, a `totalPriceMin` error is appended to those already
      bound; otherwise they are left as they are. */
  function WithTotalPriceRule(price: Option<Int32>, quantity: Option<Int32>, errs: seq<Error>): (r: seq<Error>)
    ensures errs <= r && |r| <= |errs| + 1
    ensures |r| == |errs| + 1 <==> price.Some? && quantity.Some? && Mul(price.value, quantity.value) < 10000
    ensures |r| == |errs| + 1 ==>
      r[|errs|] == ObjectError(["totalPriceMin"], [10000, Mul(price.value, quantity.value)], false)
  {
    if price.Some? && quantity.Some? && TotalTooLow(price.value, quantity.value)
    then errs + [TotalPriceMinError(price.value, quantity.value)]
    else errs
  }

  /** `addItem`: redisplay with every error when any exists, otherwise save a
      new item holding the form's name, price and quantity and no id. */
  function AddItem(form: ItemSaveForm, bound: seq<Error>): (r: Outcome<seq<Error>>)
    ensures r.Redisplay? || r.Save?
    ensures r.Redisplay? <==> |bound| > 0 || (form.price.Some? && form.quantity.Some? && Mul(form.price.value, form.quantity.value) < 10000)
    ensures r.Redisplay? ==> r.errors == WithTotalPriceRule(form.price, form.quantity, bound)
    ensures r.Save? ==> r.item == Item(None, form.itemName, form.price, form.quantity)
  {
    var errs := WithTotalPriceRule(form.price, form.quantity, bound);
    if |errs| > 0 then Redisplay(errs)
    else Save(Item(None, form.itemName, form.price, form.quantity))
  }

  /** `edit`: the edit form's own violations plus the cross-field rule;
      redisplay with them when any exists, otherwise update the item at the
      path's `itemId` with the form's name, price and quantity. The form's
      `id` field is validated but not used for the update. */
  function Edit(itemId: Int64, form: EditForm.ItemEditForm): (r: Outcome<seq<Error>>)
    ensures r.Redisplay? || r.Update?
    ensures r.Redisplay? ==> r.errors == WithTotalPriceRule(form.price, form.quantity, EditForm.Violations(form))
    ensures r.Update? ==> r.itemId == itemId && r.item == Item(None, form.itemName, form.price, form.quantity)
  {
    var errs := WithTotalPriceRule(form.price, form.quantity, EditForm.Violations(form));
    if |errs| > 0 then Redisplay(errs)
    else Update(itemId, Item(None, form.itemName, form.price, form.quantity))
  }

  /** The edit form is redisplayed exactly when the form breaks one of its
      constraints or the product rule fails. */
  lemma EditDecision(itemId: Int64, form: EditForm.ItemEditForm)
    ensures Edit(itemId, form).Redisplay? <==>
      !EditForm.Valid(form)
      || (form.price.Some? && form.quantity.Some? && Mul(form.price.value, form.quantity.value) < 10000)
    ensures Edit(itemId, form).Redisplay? ==>
      Edit(itemId, form).errors == WithTotalPriceRule(form.price, form.quantity, EditForm.Violations(form))
  {
  }

  /** A null price or quantity never reaches the multiplication: the rule is
      skipped and the bound errors pass through unchanged. */
  lemma NullSkipsTotalPriceRule(price: Option<Int32>, quantity: Option<Int32>, errs: seq<Error>)
    requires price.None? || quantity.None?
    ensures WithTotalPriceRule(price, quantity, errs) == errs
  {
  }

  /** Two edit forms that differ only in `id`, both present, lead to the same
      outcome: the id in the form plays no part in the update. */
  lemma EditIgnoresFormId(itemId: Int64, form: EditForm.ItemEditForm, id: Int64)
    requires form.id.Some?
    ensures Edit(itemId, form.(id := Some(id))) == Edit(itemId, form)
  {
    var other := form.(id := Some(id));
    assert EditForm.FormValue(other, ItemName) == EditForm.FormValue(form, ItemName);
    assert EditForm.FormValue(other, Price) == EditForm.FormValue(form, Price);
    assert EditForm.FormValue(other, Quantity) == EditForm.FormValue(form, Quantity);
    assert EditForm.FieldViolations(other, Id) == EditForm.FieldViolations(form, Id) == [];
    EditForm.FieldErrorsIndependent(form, other, ItemName);
    EditForm.FieldErrorsIndependent(form, other, Price);
    EditForm.FieldErrorsIndependent(form, other, Quantity);
    assert EditForm.Violations(other) == EditForm.Violations(form);
  }

  /** The edit form used below satisfies every constraint of `ItemEditForm`. */
  lemma OverflowFormValid(form: EditForm.ItemEditForm)
    requires form == EditForm.ItemEditForm(Some(1), Some("Book"), Some(1000), Some(4294968))
    ensures EditForm.Valid(form) && EditForm.Violations(form) == []
  {
    JavaText.NotBlankIff(Some("Book"));
    assert !JavaText.Trimmable("Book"[0]);
    EditForm.ValidIff(form);
  }

  /** The same 32-bit wrap in `edit`, whose form has no quantity ceiling: a
      price of 1,000 and a quantity of 4,294,968 satisfy every constraint of
      the edit form and multiply to 4,294,968,000, but the `int` product wraps
      to 704, so the edit is refused with the `totalPriceMin` error alone. */
  lemma EditOverflowRejectsValidForm()
    ensures var form := EditForm.ItemEditForm(Some(1), Some("Book"), Some(1000), Some(4294968));
      && EditForm.Valid(form)
      && 1000 * 4294968 >= 10000
      && Mul(1000, 4294968) == 704
      && Edit(1, form) == Redisplay([ObjectError(["totalPriceMin"], [10000, 704], false)])
  {
    var form := EditForm.ItemEditForm(Some(1), Some("Book"), Some(1000), Some(4294968));
    OverflowFormValid(form);
    MulUnique(1000, 4294968, 704);
    var err := ObjectError(["totalPriceMin"], [10000, 704], false);
    assert TotalPriceMinError(1000, 4294968) == err;
    assert WithTotalPriceRule(form.price, form.quantity, []) == [] + [err] == [err];
  }

}
