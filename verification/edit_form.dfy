/**
  `ItemEditForm`: the Bean Validation constraints checked when an item is
  edited. The id is required, the price ceiling is 10,000,000, and the
  quantity has no ceiling. Each constraint looks at its own field only; the
  order in which the validator reports violations is not modelled, so only
  which violations occur is specified.
 */
module EditForm {
  import opened Wrappers
  import opened Java
  import opened JavaText
  import opened Items

  datatype ItemEditForm = ItemEditForm(
    id: Option<Int64>,
    itemName: Option<string>,
    price: Option<Int32>,
    quantity: Option<Int32>)

  /** The constraint annotations used on the form. `@Range` accepts null. */
  datatype Constraint = NotNull | NotBlank | Range(min: int, max: int)

  const EditPriceMin: int := 1000
  const EditPriceMax: int := 10000000

  /** The value held in field `f`, as the validator sees it: the form has the
      item's shape, so it is read as an item is. */
  function FormValue(form: ItemEditForm, f: FieldName): Value {
    FieldValue(Item(form.id, form.itemName, form.price, form.quantity), f)
  }

  /** Whether `c` rejects the value `x`. */
  predicate Violates(c: Constraint, x: Value) {
    match c
    case NotNull => x.Null?
    case NotBlank => !x.Text? || !IsNotBlank(Some(x.s))
    case Range(lo, hi) => x.Number? && (x.n < lo || x.n > hi)
  }

  /** The constraints declared on each field, in declaration order. */
  function Declared(f: FieldName): seq<Constraint> {
    match f
    case Id => [NotNull]
    case ItemName => [NotBlank]
    case Price => [NotNull, Range(EditPriceMin, EditPriceMax)]
    case Quantity => [NotNull]
  }

  /** The constraints in `cs` that reject `x`, in declaration order. */
  function Violated(cs: seq<Constraint>, x: Value): (r: seq<Constraint>)
    ensures |r| <= |cs|
    ensures forall c :: c in r <==> c in cs && Violates(c, x)
  {
    if |cs| == 0 then []
    else
      var rest := Violated(cs[1..], x);
      assert forall c :: c in cs <==> c == cs[0] || c in cs[1..];
      (if Violates(cs[0], x) then [cs[0]] else []) + rest
  }

  /** Checking one or two declared constraints, spelled out. */
  lemma ViolatedShort(c0: Constraint, c1: Constraint, x: Value)
    ensures Violated([c0], x) == (if Violates(c0, x) then [c0] else [])
    ensures Violated([c0, c1], x) == (if Violates(c0, x) then [c0] else []) + (if Violates(c1, x) then [c1] else [])
  {
    assert [c0][1..] == [];
    assert [c0, c1][1..] == [c1];
  }

  /** The constraints of `f` that the form's value for `f` violates: each
      declared constraint is checked in turn. */
  function FieldViolations(form: ItemEditForm, f: FieldName): seq<Constraint> {
    Violated(Declared(f), FormValue(form, f))
  }

  /** The code a violation is reported under. */
  function ConstraintCode(c: Constraint): string {
    match c
    case NotNull => "NotNull"
    case NotBlank => "NotBlank"
    case Range(_, _) => "Range"
  }

  /** A violation as a field error: the constraint's code, its bounds for
      `@Range`, the rejected value, and the annotation's default message. */
  function ToError(form: ItemEditForm, f: FieldName, c: Constraint): Error {
    FieldError(f, FormValue(form, f), [ConstraintCode(c)],
               if c.Range? then [c.min, c.max] else [], true)
  }

  function ToErrors(form: ItemEditForm, f: FieldName, cs: seq<Constraint>): (r: seq<Error>)
    ensures |r| == |cs|
    ensures forall i :: 0 <= i < |cs| ==> r[i] == ToError(form, f, cs[i])
  {
    if |cs| == 0 then [] else [ToError(form, f, cs[0])] + ToErrors(form, f, cs[1..])
  }

  /** `ToErrors` reports every constraint in `cs`, and nothing else. */
  lemma ToErrorsMembers(form: ItemEditForm, f: FieldName, cs: seq<Constraint>)
    ensures forall c :: c in cs ==> ToError(form, f, c) in ToErrors(form, f, cs)
    ensures forall e :: e in ToErrors(form, f, cs) ==> exists c :: c in cs && e == ToError(form, f, c)
  {
    var r := ToErrors(form, f, cs);
    forall c | c in cs ensures ToError(form, f, c) in r {
      var i :| 0 <= i < |cs| && cs[i] == c;
      assert r[i] == ToError(form, f, c);
    }
    forall e | e in r ensures exists c :: c in cs && e == ToError(form, f, c) {
      var i :| 0 <= i < |r| && r[i] == e;
      assert cs[i] in cs;
    }
  }

  /** The errors reported for field `f`: one per constraint it violates. */
  function FieldErrors(form: ItemEditForm, f: FieldName): (r: seq<Error>)
    ensures forall c :: c in FieldViolations(form, f) ==> ToError(form, f, c) in r
    ensures forall e :: e in r ==> exists c :: c in FieldViolations(form, f) && e == ToError(form, f, c)
  {
    ToErrorsMembers(form, f, FieldViolations(form, f));
    ToErrors(form, f, FieldViolations(form, f))
  }

  /** Joining the four fields' errors reports every violation of every field,
      and nothing else. */
  lemma JoinFields(form: ItemEditForm)
    ensures var r := FieldErrors(form, Id) + FieldErrors(form, ItemName) + FieldErrors(form, Price) + FieldErrors(form, Quantity);
      && (forall f, c :: c in FieldViolations(form, f) ==> ToError(form, f, c) in r)
      && (forall e :: e in r ==> exists f, c :: c in FieldViolations(form, f) && e == ToError(form, f, c))
  {
    var a, b, p, q := FieldErrors(form, Id), FieldErrors(form, ItemName), FieldErrors(form, Price), FieldErrors(form, Quantity);
    var r := a + b + p + q;
    forall f, c | c in FieldViolations(form, f) ensures ToError(form, f, c) in r {
      match f
      case Id => assert ToError(form, f, c) in a;
      case ItemName => assert ToError(form, f, c) in b;
      case Price => assert ToError(form, f, c) in p;
      case Quantity => assert ToError(form, f, c) in q;
    }
    forall e | e in r ensures exists f, c :: c in FieldViolations(form, f) && e == ToError(form, f, c) {
      if e in a {
        var c :| c in FieldViolations(form, Id) && e == ToError(form, Id, c);
      } else if e in b {
        var c :| c in FieldViolations(form, ItemName) && e == ToError(form, ItemName, c);
      } else if e in p {
        var c :| c in FieldViolations(form, Price) && e == ToError(form, Price, c);
      } else {
        assert e in q;
        var c :| c in FieldViolations(form, Quantity) && e == ToError(form, Quantity, c);
      }
    }
  }

  /** All field errors of the form, field by field: every violated
      constraint of every field is reported, and nothing else is. */
  function Violations(form: ItemEditForm): (r: seq<Error>)
    ensures forall f, c :: c in FieldViolations(form, f) ==> ToError(form, f, c) in r
    ensures forall e :: e in r ==> exists f, c :: c in FieldViolations(form, f) && e == ToError(form, f, c)
  {
    JoinFields(form);
    FieldErrors(form, Id) + FieldErrors(form, ItemName) + FieldErrors(form, Price) + FieldErrors(form, Quantity)
  }

  /** The price's two constraints: `@NotNull`, then a `@Range` that accepts null. */
  lemma PriceViolations(form: ItemEditForm)
    ensures form.price.None? ==> FieldViolations(form, Price) == [NotNull]
    ensures form.price.Some? ==> (FieldViolations(form, Price) ==
      if form.price.value < 1000 || form.price.value > 10000000 then [Range(1000, 10000000)] else [])
  {
    var x := FormValue(form, Price);
    ViolatedShort(NotNull, Range(EditPriceMin, EditPriceMax), x);
    if form.price.None? {
      assert x == Null;
    } else {
      assert x == Number(form.price.value);
    }
  }

  /** The per-field constraints, stated on the form's own values: a null id;
      a null or blank name; a null price, or one outside [1000, 10000000];
      a null quantity, with no upper bound. A null price breaks `@NotNull`
      only, since `@Range` accepts null. */
  lemma FieldViolationRules(form: ItemEditForm)
    ensures FieldViolations(form, Id) == (if form.id.None? then [NotNull] else [])
    ensures FieldViolations(form, ItemName) == (if IsNotBlank(form.itemName) then [] else [NotBlank])
    ensures form.price.None? ==> FieldViolations(form, Price) == [NotNull]
    ensures form.price.Some? ==>
      (FieldViolations(form, Price) == [Range(1000, 10000000)] <==> form.price.value < 1000 || form.price.value > 10000000)
    ensures form.price.Some? ==>
      (FieldViolations(form, Price) == [] <==> 1000 <= form.price.value <= 10000000)
    ensures FieldViolations(form, Quantity) == (if form.quantity.None? then [NotNull] else [])
  {
    ViolatedShort(NotNull, NotNull, FormValue(form, Id));
    ViolatedShort(NotBlank, NotBlank, FormValue(form, ItemName));
    ViolatedShort(NotNull, NotNull, FormValue(form, Quantity));
    assert FormValue(form, Quantity).Null? <==> form.quantity.None?;
    PriceViolations(form);
  }

  /** Each field's violations depend on that field's value alone. */
  lemma Independent(form: ItemEditForm, other: ItemEditForm, f: FieldName)
    requires FormValue(form, f) == FormValue(other, f)
    ensures FieldViolations(form, f) == FieldViolations(other, f)
  {
  }

  /** The errors reported for field `f` depend on that field's value alone. */
  lemma FieldErrorsIndependent(form: ItemEditForm, other: ItemEditForm, f: FieldName)
    requires FormValue(form, f) == FormValue(other, f)
    ensures FieldErrors(form, f) == FieldErrors(other, f)
  {
    Independent(form, other, f);
    var cs := FieldViolations(form, f);
    var a, b := ToErrors(form, f, cs), ToErrors(other, f, cs);
    assert |a| == |b|;
    forall i | 0 <= i < |a| ensures a[i] == b[i] {
      assert a[i] == ToError(form, f, cs[i]) && b[i] == ToError(other, f, cs[i]);
    }
  }

  /** The form is valid exactly when no field violates. */
  predicate Valid(form: ItemEditForm) {
    |Violations(form)| == 0
  }

  /** A form is valid exactly when its id and quantity are present, its name
      is not blank, and its price is present and within [1000, 10000000]. */
  lemma ValidIff(form: ItemEditForm)
    ensures Valid(form) <==>
      form.id.Some? && IsNotBlank(form.itemName) && form.quantity.Some?
      && form.price.Some? && 1000 <= form.price.value <= 10000000
  {
    FieldViolationRules(form);
  }

  /** Every reported violation names a field it belongs to. */
  lemma ViolationsAreFieldErrors(form: ItemEditForm, e: Error)
    requires e in Violations(form)
    ensures e.FieldError? && e.rejected == FormValue(form, e.field) && e.hasDefaultMessage
  {
    var f, c :| c in FieldViolations(form, f) && e == ToError(form, f, c);
  }

}
