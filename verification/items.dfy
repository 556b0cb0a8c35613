/**
  The item record, the structured validation errors reported about it, the
  outcome of a submit handler, and the field rules shared by the add handlers.
 */
module Items {
  import opened Wrappers
  import opened Java
  import opened JavaText

  /** `Item`: a `Long` id assigned by the repository, and three nullable inputs. */
  datatype Item = Item(
    id: Option<Int64>,
    itemName: Option<string>,
    price: Option<Int32>,
    quantity: Option<Int32>)

  datatype FieldName = Id | ItemName | Price | Quantity

  /** A rejected value as kept in a `FieldError`: null, a number or a string. */
  datatype Value = Null | Number(n: int) | Text(s: string)

  function NumberOrNull(x: Option<int>): Value {
    match x
    case None => Null
    case Some(n) => Number(n)
  }

  function TextOrNull(s: Option<string>): Value {
    match s
    case None => Null
    case Some(t) => Text(t)
  }

  /** The value an item holds in a field, as a `BindingResult` would read it. */
  function FieldValue(item: Item, f: FieldName): Value {
    match f
    case Id => NumberOrNull(item.id)
    case ItemName => TextOrNull(item.itemName)
    case Price => NumberOrNull(item.price)
    case Quantity => NumberOrNull(item.quantity)
  }

  /** Spring's `FieldError` and `ObjectError`: message codes and arguments for
      a localised message, and whether a literal default message is attached
      (its wording is not modelled). */
  datatype Error =
    | FieldError(field: FieldName, rejected: Value, codes: seq<string>, args: seq<int>, hasDefaultMessage: bool)
    | ObjectError(codes: seq<string>, args: seq<int>, hasDefaultMessage: bool)

  /** What a submit handler does: throw, redisplay its form with the errors,
      hand the item to the repository's `save`, or to its `update`. */
  datatype Outcome<+E> =
    | Fault
    | Redisplay(errors: E)
    | Save(item: Item)
    | Update(itemId: Int64, item: Item)

  /** Some error in `errs` is about field `f`. */
  predicate Flags(errs: seq<Error>, f: FieldName) {
    exists e :: e in errs && e.FieldError? && e.field == f
  }

  /** Some error in `errs` is object-level. */
  predicate FlagsGlobal(errs: seq<Error>) {
    exists e :: e in errs && e.ObjectError?
  }

  /** Position of an error in the add handlers' reporting order. */
  function Rank(e: Error): nat {
    match e
    case FieldError(f, _, _, _, _) =>
      (match f
       case Id => 0
       case ItemName => 1
       case Price => 2
       case Quantity => 3)
    case ObjectError(_, _, _) => 4
  }

  /** Errors appear in strictly increasing rank: at most one of each kind,
      in the order id, itemName, price, quantity, global. */
  predicate Ordered(errs: seq<Error>) {
    forall i, j :: 0 <= i < j < |errs| ==> Rank(errs[i]) < Rank(errs[j])
  }

  /** An error about `f` is in `a + b` exactly when it is in one of them. */
  lemma FlagsAppend(a: seq<Error>, b: seq<Error>, f: FieldName)
    ensures Flags(a + b, f) <==> Flags(a, f) || Flags(b, f)
    ensures FlagsGlobal(a + b) <==> FlagsGlobal(a) || FlagsGlobal(b)
  {
    if Flags(a + b, f) {
      var e :| e in a + b && e.FieldError? && e.field == f;
      assert e in a || e in b;
    }
    if Flags(b, f) {
      var e :| e in b && e.FieldError? && e.field == f;
      assert e in a + b;
    }
    if FlagsGlobal(a + b) {
      var e :| e in a + b && e.ObjectError?;
      assert e in a || e in b;
    }
    if FlagsGlobal(b) {
      var e :| e in b && e.ObjectError?;
      assert e in a + b;
    }
  }

  /** Four runs joined in order flag a field when one of them does; with no
      object error in the first three, the join is object-level exactly when
      the last run is. */
  lemma JoinFlags(n: seq<Error>, p: seq<Error>, q: seq<Error>, g: seq<Error>, f: FieldName)
    requires !FlagsGlobal(n) && !FlagsGlobal(p) && !FlagsGlobal(q)
    ensures Flags(n + p + q + g, f) <==> Flags(n, f) || Flags(p, f) || Flags(q, f) || Flags(g, f)
    ensures FlagsGlobal(n + p + q + g) <==> FlagsGlobal(g)
  {
    FlagsAppend(n, p, f);
    FlagsAppend(n + p, q, f);
    FlagsAppend(n + p + q, g, f);
  }

  /** Appending at most one error of rank `k` to an ordered run of errors
      ranked below `k` keeps it ordered, with every rank at most `k`. */
  lemma OrderedAppend(a: seq<Error>, b: seq<Error>, k: nat)
    requires Ordered(a) && forall i :: 0 <= i < |a| ==> Rank(a[i]) < k
    requires |b| <= 1 && forall i :: 0 <= i < |b| ==> Rank(b[i]) == k
    ensures Ordered(a + b) && forall i :: 0 <= i < |a + b| ==> Rank((a + b)[i]) <= k
  {
    if |b| == 1 {
      forall i | 0 <= i < |a| ensures (a + b)[i] == a[i] { }
      assert (a + b)[|a|] == b[0];
    } else {
      assert a + b == a;
    }
  }

  /** A one-error run flags exactly that error's field; an empty run flags nothing. */
  lemma FlagsSingleton(e: Error, f: FieldName)
    ensures Flags([e], f) <==> e.FieldError? && e.field == f
    ensures FlagsGlobal([e]) <==> e.ObjectError?
    ensures !Flags([], f) && !FlagsGlobal([])
  {
    assert e in [e];
  }

  /** Four runs of at most one error each, ranked 1 to 4, join into an
      ordered run of at most four errors. */
  lemma OrderedPieces(n: seq<Error>, p: seq<Error>, q: seq<Error>, g: seq<Error>)
    requires |n| <= 1 && forall e :: e in n ==> Rank(e) == 1
    requires |p| <= 1 && forall e :: e in p ==> Rank(e) == 2
    requires |q| <= 1 && forall e :: e in q ==> Rank(e) == 3
    requires |g| <= 1 && forall e :: e in g ==> Rank(e) == 4
    ensures Ordered(n + p + q + g) && |n + p + q + g| <= 4
  {
    OrderedAppend([], n, 1);
    assert [] + n == n;
    OrderedAppend(n, p, 2);
    OrderedAppend(n + p, q, 3);
    OrderedAppend(n + p + q, g, 4);
  }

  const PriceMin: int := 1000
  const PriceMax: int := 1000000
  const TotalPriceMin: int := 10000

  /** The add handlers' name rule: `!StringUtils.hasText(itemName)`. */
  predicate NameMissing(item: Item) {
    !HasText(item.itemName)
  }

  /** The add handlers' price rule: null, below 1,000 or above 1,000,000. */
  predicate PriceOutOfRange(item: Item) {
    item.price.None? || item.price.value < PriceMin || item.price.value > PriceMax
  }

  /** The cross-field rule on two present values: the 32-bit product is
      below 10,000. */
  predicate TotalTooLow(price: Int32, quantity: Int32) {
    Mul(price, quantity) < TotalPriceMin
  }

  /** The `totalPriceMin` object error registered through `reject`, carrying
      the threshold and the (wrapped) product. */
  function TotalPriceMinError(price: Int32, quantity: Int32): Error {
    ObjectError(["totalPriceMin"], [TotalPriceMin, Mul(price, quantity)], false)
  }

}
