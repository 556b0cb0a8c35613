# Item validation rules, modelled in Dafny

This project models the item validation logic of a Spring MVC teaching
application. An `Item` has a `Long` id and three nullable inputs: `itemName`,
`price` and `quantity`. The application checks a submitted item several
times over, in slightly different ways:

- `ValidationItemControllerV1.addItem` collects errors in a map from key to message.
  It is mapped to `POST /add`, so its faults are reachable as the code ships.
- `ValidationItemControllerV2.addItemV1` .. `addItemV4` collect `FieldError`s and
  `ObjectError`s in a `BindingResult`. They differ in the rejected values, codes
  and arguments they record, and in where the "has errors?" decision sits.
  Their `@PostMapping` annotations are commented out (lines 58, 92, 132 and
  172 of `ValidationItemControllerV2.java`), so the defects found in them are
  latent: no request reaches these handlers as the code ships.
- `ValidationItemControllerV4.addItem` and `edit` take field errors from
  constraint annotations on form objects. They add the cross-field
  `totalPriceMin` rule on top.
- `ItemEditForm` declares the constraints for an edit: id required, a 10,000,000
  price ceiling, and no quantity ceiling.

Every handler is a pure function from the submitted item or form to an
`Outcome`:

- `Fault` is the `NullPointerException` thrown when a null `Integer` is unboxed.
- `Redisplay(errors)` redisplays the form with the errors.
- `Save(item)` and `Update(itemId, item)` hand the item to the repository.

The model keeps the Java details that change the outcome:

- `int` multiplication wraps to 32 bits (`Java.Mul`).
- Spring's `StringUtils.hasText` asks for a character that
  `Character.isWhitespace` rejects (`JavaText.ContainsText`).
- Hibernate's `@NotBlank` uses `String.trim`, which strips every character up
  to U+0020 (`JavaText.Trim`). These two tests are not the same
  (`JavaText.HasTextIsNotNotBlank`).

Modules: `Wrappers` (Option), `Java`, `JavaText`, `Items` (record, errors,
outcomes, shared rules), `ControllerV1`, `ControllerV2`, `ControllerV4`,
`EditForm`, and `Canonical`. `Canonical` is the rule set the handlers evidently
intend; it is the corrected side of every row under "Findings".

The model follows the code, version by version. The handlers themselves show
what they mean, and `Canonical` is built from that evidence:

- The quantity ceiling is 9,999. `ValidationItemControllerV1.java:56` tests
  `quantity > 9999`. The V2 handlers pass `9999` as the message argument
  (`ValidationItemControllerV2.java:149` and `:186`) and their literal message
  at `:70` says 9,999 is the maximum, although they test `> 10000`.
- A null quantity is an error, not a fault. Every quantity test ends with
  `|| quantity == null`, which can only be meant to report a missing value.
- The cross-field rule runs only when both values are present. All the V2 and
  V4 handlers guard it with `price != null && quantity != null`. Only
  `ValidationItemControllerV1.java:60` uses `||`.
- The form is redisplayed whenever any error exists, as `addItemV1` does at
  `ValidationItemControllerV2.java:80`.
- The product is the exact one, not a 32-bit wrap. The rule is meant to bound
  price times quantity.

`Canonical.ErrorsAgreeWithAddItemV4` and `Canonical.DecisionAgreesWithAddItemV4`
prove where `Canonical` and `addItemV4` coincide.

## Model

| member | source | states |
|---|---|---|
| Java.Mul | src/main/java/hello/itemservice/web/validation/ValidationItemControllerV2.java:154 | the `int` product is congruent to the exact product modulo 2^32 and lies in the `int` range; it equals the exact product when that fits |
| Java.MulUnique | src/main/java/hello/itemservice/web/validation/ValidationItemControllerV2.java:154 | any `int` congruent to the exact product modulo 2^32 is `Mul`'s result, so the contract pins the wrapped product down |
| JavaText.ContainsText | src/main/java/hello/itemservice/web/validation/ValidationItemControllerV2.java:137 | Spring's scan for text is true exactly when some character is not Java whitespace |
| JavaText.IsWhitespace | src/main/java/hello/itemservice/web/validation/ValidationItemControllerV2.java:137 | `Character.isWhitespace`: U+0009-U+000D, U+001C-U+0020 and the Unicode space, line and paragraph separators other than the no-break spaces U+00A0, U+2007 and U+202F, as of Java 9 |
| JavaText.HasText | src/main/java/hello/itemservice/web/validation/ValidationItemControllerV2.java:137 | `StringUtils.hasText`: non-null, non-empty, and holding a character that is not Java whitespace |
| JavaText.TrimStart | src/main/java/hello/itemservice/web/validation/form/ItemEditForm.java:16-17 | the first `trim` loop stops at the first character above U+0020, having passed only characters at or below it |
| JavaText.TrimEnd | src/main/java/hello/itemservice/web/validation/form/ItemEditForm.java:16-17 | the second `trim` loop drops only trailing characters at or below U+0020 and stops at one above it or at the start index |
| JavaText.TrimEmptyIff | src/main/java/hello/itemservice/web/validation/form/ItemEditForm.java:16-17 | trimming leaves nothing exactly when every character is at or below U+0020 |
| JavaText.Trim | src/main/java/hello/itemservice/web/validation/form/ItemEditForm.java:16-17 | `String.trim` returns the slice `s[a..b]` such that everything before `a` and from `b` on is at or below U+0020 and, when the slice is non-empty, its first and last characters are above U+0020: exactly the leading and trailing such characters are removed |
| JavaText.IsNotBlank | src/main/java/hello/itemservice/web/validation/form/ItemEditForm.java:16-17 | Hibernate's `@NotBlank` check: non-null and non-empty once trimmed |
| JavaText.NotBlankIff | src/main/java/hello/itemservice/web/validation/form/ItemEditForm.java:16-17 | `@NotBlank` accepts exactly the non-null strings holding a character above U+0020 |
| JavaText.HasTextIsNotNotBlank | src/main/java/hello/itemservice/web/validation/form/ItemEditForm.java:16-17 | the edit form's blank test differs from the add handlers' `hasText` both ways: "\0" is text but blank, U+3000 is whitespace but not blank |
| ControllerV1.Validate | src/main/java/hello/itemservice/web/validation/ValidationItemControllerV1.java:49-65 | `addItem`'s checks throw exactly when price or quantity is null: the quantity test unboxes first, and the guard written with OR lets a null price reach the multiplication |
| ControllerV1.PutIf | src/main/java/hello/itemservice/web/validation/ValidationItemControllerV1.java:50-58 | `errors.put` under a failed rule: the key is present afterwards iff the rule failed or it was present before, and then maps to the new message; every other key keeps its presence and its message, and the map grows by at most one |
| ControllerV1.ValidateRules | src/main/java/hello/itemservice/web/validation/ValidationItemControllerV1.java:49-65 | with both values present: `itemName` is a key iff the name lacks text, `price` iff outside [1000, 1000000], `quantity` iff above 9999, `globalError` iff the 32-bit product is below 10000; each key holds its own rule's message; no other key, at most four entries |
| ControllerV1.AddItem | src/main/java/hello/itemservice/web/validation/ValidationItemControllerV1.java:67-75 | faults iff price or quantity is null; redisplays with the map iff it is non-empty; otherwise saves the item unchanged |
| ControllerV1.NullPriceThrows | src/main/java/hello/itemservice/web/validation/ValidationItemControllerV1.java:60-61 | a null price with quantity 10 throws inside the block guarded with OR |
| ControllerV2.Validate | src/main/java/hello/itemservice/web/validation/ValidationItemControllerV2.java:147-150 | every version's checks throw exactly when quantity is null, because `quantity > 10000` is evaluated before `quantity == null` |
| ControllerV2.FieldRules | src/main/java/hello/itemservice/web/validation/ValidationItemControllerV2.java:137-150 | a name error iff the name lacks text; a price error iff price is null or outside [1000, 1000000]; a quantity error iff quantity exceeds 10000; never an id error |
| ControllerV2.GlobalRule | src/main/java/hello/itemservice/web/validation/ValidationItemControllerV2.java:153-156 | the global error is collected iff price is present and the 32-bit product is below 10000 |
| ControllerV2.ErrorOrder | src/main/java/hello/itemservice/web/validation/ValidationItemControllerV2.java:137-156 | errors accumulate without short-circuiting, at most one of each kind, in the order itemName, price, quantity, global |
| ControllerV2.AddItem | src/main/java/hello/itemservice/web/validation/ValidationItemControllerV2.java:58-205 | every version faults iff quantity is null; it redisplays iff errors were collected and, in `addItemV2`-`addItemV4`, price is present too; a redisplay carries exactly the collected errors, a save the submitted item unchanged |
| ControllerV2.AddItemV1Decision | src/main/java/hello/itemservice/web/validation/ValidationItemControllerV2.java:80-89 | `addItemV1` redisplays iff some error was collected and saves otherwise |
| ControllerV2.NestedDecision | src/main/java/hello/itemservice/web/validation/ValidationItemControllerV2.java:153-168 | `addItemV2`-`addItemV4` redisplay iff price is present and some error exists; with a null price the item is saved although a price error is on record |
| ControllerV2.RejectedValues | src/main/java/hello/itemservice/web/validation/ValidationItemControllerV2.java:97-149 | the rejected value is null in `addItemV1`, the item's name for every field in `addItemV2`, and the field's own value in `addItemV3` and `addItemV4` |
| ControllerV2.CodesAndArgs | src/main/java/hello/itemservice/web/validation/ValidationItemControllerV2.java:137-193 | `addItemV1`/`addItemV2` errors carry only a default message; `addItemV3`/`addItemV4` carry one code each, as passed: `required.item.itemName`, `range.item.price`, `max.item.quantity` in `addItemV3`, `required`, `range`, `max` in `addItemV4`, and `totalPriceMin` on the global error, with args [1000, 1000000] on price, [9999] on quantity and [10000, product] on `totalPriceMin` |
| ControllerV2.NullQuantityThrows | src/main/java/hello/itemservice/web/validation/ValidationItemControllerV2.java:147-150 | a complete item with a null quantity makes every version throw |
| ControllerV2.NullPriceSaved | src/main/java/hello/itemservice/web/validation/ValidationItemControllerV2.java:153-168 | a blank name with a null price is saved by `addItemV2`-`addItemV4` although name and price errors were collected |
| ControllerV2.OverflowRejectsValidItem | src/main/java/hello/itemservice/web/validation/ValidationItemControllerV2.java:190-193 | price 1000000 and quantity 2148 pass the field rules, but their `int` product wraps to -2146967296 and the item is redisplayed with only the global error |
| ControllerV2.QuantityCeilingMismatch | src/main/java/hello/itemservice/web/validation/ValidationItemControllerV2.java:185-187 | quantity 10000 is saved, while the quantity error's argument names 9999 as the maximum |
| ControllerV4.WithTotalPriceRule | src/main/java/hello/itemservice/web/validation/ValidationItemControllerV4.java:56-61 | the bound errors are kept as a prefix; one `totalPriceMin` error with args [10000, product] is appended iff both values are present and the 32-bit product is below 10000 |
| ControllerV4.NullSkipsTotalPriceRule | src/main/java/hello/itemservice/web/validation/ValidationItemControllerV4.java:56-61 | a null price or quantity skips the rule without a fault and leaves the errors unchanged |
| ControllerV4.AddItem | src/main/java/hello/itemservice/web/validation/ValidationItemControllerV4.java:53-79 | redisplays iff a bound error exists or the product rule fails, with exactly the bound errors followed by the `totalPriceMin` error when that rule fails; otherwise saves a new item with the form's name, price and quantity and no id |
| ControllerV4.Edit | src/main/java/hello/itemservice/web/validation/ValidationItemControllerV4.java:89-111 | never faults; a redisplay carries exactly the form's violations followed by the `totalPriceMin` error when that rule fails; an update goes to the path's `itemId` with the form's name, price and quantity and no id |
| ControllerV4.EditDecision | src/main/java/hello/itemservice/web/validation/ValidationItemControllerV4.java:92-101 | the edit form is redisplayed iff the form breaks a constraint or the product rule fails, and the errors shown are the form's violations followed by the `totalPriceMin` error when that rule fails |
| ControllerV4.EditIgnoresFormId | src/main/java/hello/itemservice/web/validation/ValidationItemControllerV4.java:102-107 | two edit forms differing only in a present `id` give the same outcome: `form.id` plays no part in the update |
| ControllerV4.EditOverflowRejectsValidForm | src/main/java/hello/itemservice/web/validation/ValidationItemControllerV4.java:92-101 | a form with price 1000 and quantity 4294968 satisfies every edit constraint, but the `int` product wraps to 704 and the edit is refused with only the `totalPriceMin` error |
| EditForm.FieldViolationRules | src/main/java/hello/itemservice/web/validation/form/ItemEditForm.java:12-26 | id violates `@NotNull` iff null; name violates `@NotBlank` iff null or blank; price violates `@NotNull` iff null and `@Range` iff present and outside [1000, 10000000]; quantity violates only when null |
| EditForm.Independent | src/main/java/hello/itemservice/web/validation/form/ItemEditForm.java:12-26 | a field's violations depend on that field's value alone |
| EditForm.Violations | src/main/java/hello/itemservice/web/validation/form/ItemEditForm.java:12-26 | Bean Validation of the form: every constraint violated by every field is reported as that field's error, and no other error is reported |
| EditForm.ValidIff | src/main/java/hello/itemservice/web/validation/form/ItemEditForm.java:12-26 | a form is valid iff id and quantity are present, the name is not blank and the price is present and within [1000, 10000000] |
| EditForm.ViolationsAreFieldErrors | src/main/java/hello/itemservice/web/validation/form/ItemEditForm.java:12-26 | every violation is reported as a field error on its own field, with that field's value as the rejected value |
| Canonical.FieldRules | src/main/java/hello/itemservice/web/validation/ValidationItemControllerV2.java:177-187 | corrected rules: a name error iff no text, a price error iff null or outside [1000, 1000000], a quantity error iff null or above 9999 |
| Canonical.GlobalRule | src/main/java/hello/itemservice/web/validation/ValidationItemControllerV2.java:190-193 | corrected cross-field rule: a global error iff both values are present and their exact product is below 10000, reporting that product |
| Canonical.AddItem | src/main/java/hello/itemservice/web/validation/ValidationItemControllerV2.java:190-205 | corrected decision: never a fault; redisplay with exactly the errors iff any exists, otherwise save the item unchanged |
| Canonical.ErrorsAgreeWithAddItemV4 | src/main/java/hello/itemservice/web/validation/ValidationItemControllerV2.java:173-194 | where `addItemV4` does not throw (quantity present), does not wrap (the product fits whenever price is present) and does not meet quantity 10000, it collects exactly the corrected errors, null price included; with a null price `addItemV4` saves while the corrected rules redisplay |
| Canonical.DecisionAgreesWithAddItemV4 | src/main/java/hello/itemservice/web/validation/ValidationItemControllerV2.java:190-205 | when in addition the price is present, `addItemV4` and the corrected rules decide the same way |

## Left out

- HTTP routing, view names, `Model` and `RedirectAttributes` plumbing and logging are not modelled. The `ItemRepository` is reduced to the `Save` and `Update` outcomes; the id it assigns on save is not modelled.
- The list, detail and form-display handlers are left out. So are the `edit` handlers of `ValidationItemControllerV1` and `ValidationItemControllerV2`: they update without any validation.
- `addItemV5` and `addItemV6` are left out. Their rules live in `ItemValidator` and in annotations reached through `@InitBinder`, and `ItemValidator` is not part of this model.
- `ItemSaveForm`, `SaveCheck` and `UpdateCheck` are not part of this model. `ControllerV4.AddItem` therefore takes the errors bound from `ItemSaveForm`'s constraints as an input instead of computing them.
- `ValidationItemApiController` is left out: it binds JSON and has no rules of its own.
- The constraint annotations in `Item.java` are commented out. The model uses that file only for the record's shape.
- Literal default messages are left out because their wording carries no rule. Errors record only whether a default message is attached. `ControllerV1` stores a named `Message` tag instead of the text, one tag per key.
- ControllerV2.CodesAndArgs: Spring's message-code resolution is left out, so `addItemV4`'s errors carry the one code passed to `rejectValue` or `reject`, not the list Spring resolves from it. It expands `required` into `required.item.itemName` and similar codes, and it builds the argument list for Bean Validation errors. Codes are kept exactly as the handlers pass them. An `ItemEditForm` violation carries its constraint's name and, for `@Range`, the bounds min then max. That order is a simplification: Spring's `SpringValidatorAdapter` passes the field name followed by the annotation's attributes in alphabetical order, so max comes before min.
- JavaText.IsWhitespace: follows `Character.isWhitespace` as of Java 9. On Java 8, U+180E also counts as whitespace, and that version is not modelled.
- Type-conversion and binding failures raised by the framework before a handler runs are left out.
- EditForm.Violations: the order in which Bean Validation reports violations is not modelled. It lists them field by field in declaration order, and only which violations occur is specified.
- No code requires the id to be absent on create, so no create profile is modelled. The update profile is `ItemEditForm`.
- Idempotence of validation is not stated as a lemma. Every validator here is a function, so it holds by construction.

## Findings

| source | as written | input that shows it | evidently intended | confidence | as-written member | corrected member |
|---|---|---|---|---|---|---|
| src/main/java/hello/itemservice/web/validation/ValidationItemControllerV2.java:147 | the quantity test compares with 10000 before its null test, unboxing first (also `ValidationItemControllerV1.java:56`) | name "Book", price 2000, quantity null: `NullPointerException` | test for null first and report a quantity error | high, not executed | ControllerV2.NullQuantityThrows | Canonical.FieldRules |
| src/main/java/hello/itemservice/web/validation/ValidationItemControllerV1.java:60 | cross-field block guarded by price non-null OR quantity non-null | name "Book", price null, quantity 10: `NullPointerException` in the multiplication | guard with `&&`, as the other handlers do | high, not executed | ControllerV1.NullPriceThrows | Canonical.GlobalRule |
| src/main/java/hello/itemservice/web/validation/ValidationItemControllerV2.java:153-168 | `hasErrors()` is tested only inside the block that needs both values present | name "", price null, quantity 10: saved with two errors on record | redisplay whenever any error exists, as `addItemV1` does | high, not executed | ControllerV2.NullPriceSaved | Canonical.AddItem |
| src/main/java/hello/itemservice/web/validation/ValidationItemControllerV2.java:190-193 | `int resultPrice = price * quantity` overflows; the same wrap is at `ValidationItemControllerV4.java:57` and `:93`, where `edit` has no quantity ceiling (`ControllerV4.EditOverflowRejectsValidForm`: price 1000, quantity 4294968 wraps to 704) | price 1000000, quantity 2148: product 2148000000 wraps to -2146967296 and a valid item is rejected | compare the exact (or `long`) product | medium, not executed | ControllerV2.OverflowRejectsValidItem | Canonical.GlobalRule |
| src/main/java/hello/itemservice/web/validation/ValidationItemControllerV2.java:185-186 | ceiling tested as `quantity > 10000` while the error's argument says 9999 | quantity 10000 is accepted | ceiling 9999, as in `ValidationItemControllerV1` and the error's argument | medium, not executed | ControllerV2.QuantityCeilingMismatch | Canonical.FieldRules |
