/**
 * The form checks of js/app.js: `validateField` with its `required` and
 * `minLength` rules, `validateForm` over the business name, the date and
 * the items, and the per-item hints of `validateItemInput`. The app's
 * blank test `!s || s.trim() === ""` is `AllSpace(s)` here, which is what
 * `Text.TrimEmptyIffAllSpace` proves it means.
 */
module Validation {
  import opened Wrappers
  import opened Text
  import opened Decimal
  import opened Invoices

  const REQUIRED_MESSAGE := "This field is required"
  const BUSINESS_MIN_LENGTH: nat := 2

  function MinLengthMessage(n: nat): string {
    "Minimum " + Digits(n) + " characters required"
  }

  /** A rule set; a `minLength` of 0 is an absent (falsy) rule. */
  datatype Rules = Rules(required: bool, minLength: nat)

  /** The class left on the field: none, "success" or "error". */
  datatype Mark = Unmarked | SuccessClass | ErrorClass

  datatype FieldCheck = FieldCheck(valid: bool, message: string, mark: Mark)

  /**
   * `validateField(id, value, rules)`: the required check, then the length
   * check (whose message wins when both fail), then the class, which is
   * set only on a field holding something other than whitespace.
   */
  function ValidateField(value: string, rules: Rules): (r: FieldCheck)
    ensures r.valid <==> r.message == []
    ensures r.mark == Unmarked <==> AllSpace(value)
    ensures r.mark != Unmarked ==> (r.mark == SuccessClass <==> r.valid)
    ensures r.valid <==>
      !(rules.required && AllSpace(value)) && !(rules.minLength > 0 && value != [] && |value| < rules.minLength)
    ensures !r.valid && rules.minLength > 0 && value != [] && |value| < rules.minLength ==>
      r.message == MinLengthMessage(rules.minLength)
    ensures !r.valid && !(rules.minLength > 0 && value != [] && |value| < rules.minLength) ==>
      r.message == REQUIRED_MESSAGE
  {
    var (valid1, message1) :=
      if rules.required && AllSpace(value) then (false, REQUIRED_MESSAGE) else (true, "");
    var (valid2, message2) :=
      if rules.minLength > 0 && value != [] && |value| < rules.minLength then (false, MinLengthMessage(rules.minLength))
      else (valid1, message1);
    FieldCheck(valid2, message2, if !AllSpace(value) then (if valid2 then SuccessClass else ErrorClass) else Unmarked)
  }

  /** A required field passes iff it holds something other than whitespace. */
  lemma RequiredIff(value: string)
    ensures ValidateField(value, Rules(true, 0)).valid <==> !AllSpace(value)
  {
  }

  /**
   * The business-name rule: non-blank after trimming and at least two
   * characters long as typed (surrounding spaces count toward the length).
   */
  lemma RequiredMinLengthIff(value: string, n: nat)
    requires n > 0
    ensures ValidateField(value, Rules(true, n)).valid <==> !AllSpace(value) && |value| >= n
  {
  }

  /**
   * What `validateForm` demands of one item: a name that is not blank, a
   * positive quantity and a price that is not negative.
   */
  predicate ItemAcceptable(item: Item) {
    !AllSpace(item.name) && item.qty > 0.0 && item.price >= 0.0
  }

  /** What `validateForm` demands of the whole form. */
  predicate FormAcceptable(businessName: string, invoiceDate: string, items: seq<Item>) {
    && !AllSpace(businessName) && |businessName| >= BUSINESS_MIN_LENGTH
    && !AllSpace(invoiceDate)
    && items != []
    && forall k :: 0 <= k < |items| ==> ItemAcceptable(items[k])
  }

  /** `validateForm()`: every check runs (none short-circuits) and any failure makes the form invalid. */
  method ValidateForm(businessName: string, invoiceDate: string, items: seq<Item>) returns (isValid: bool)
    ensures isValid <==> FormAcceptable(businessName, invoiceDate, items)
  {
    isValid := true;
    var businessOk := ValidateField(businessName, Rules(true, BUSINESS_MIN_LENGTH)).valid;
    RequiredMinLengthIff(businessName, BUSINESS_MIN_LENGTH);
    if !businessOk {
      isValid := false;
    }
    var dateOk := ValidateField(invoiceDate, Rules(true, 0)).valid;
    RequiredIff(invoiceDate);
    if !dateOk {
      isValid := false;
    }
    if |items| == 0 {
      isValid := false;
    }
    ghost var headOk := isValid;
    assert headOk <==> !AllSpace(businessName) && |businessName| >= BUSINESS_MIN_LENGTH && !AllSpace(invoiceDate) && items != [];
    var k := 0;
    while k < |items|
      invariant 0 <= k <= |items|
      invariant isValid <==> headOk && forall j :: 0 <= j < k ==> ItemAcceptable(items[j])
    {
      var item := items[k];
      if AllSpace(item.name) {
        isValid := false;
      }
      if item.qty <= 0.0 {
        isValid := false;
      }
      if item.price < 0.0 {
        isValid := false;
      }
      k := k + 1;
    }
  }

  /** The three inputs of an item row. */
  datatype Kind = Name | Quantity | Price

  /** What `validateItemInput` shows beside an input. */
  datatype Feedback = NoFeedback | Info(message: string) | InputValid | InputWarning(message: string) | InputError(message: string)

  const NAME_HINT := "Enter item name (e.g. Consulting, Web Design)"

  /**
   * `validateItemInput(input, value, type)`; `number` is `parseFloat(value)`,
   * `None` when that is NaN (every comparison with NaN is false).
   */
  function ClassifyItemInput(kind: Kind, value: string, number: Option<real>): (r: Feedback)
    ensures AllSpace(value) ==> r == (if kind == Name then Info(NAME_HINT) else NoFeedback)
    ensures r.InputError? <==>
      !AllSpace(value) && number.Some? && ((kind == Quantity && number.value <= 0.0) || (kind == Price && number.value < 0.0))
    ensures kind == Name && !AllSpace(value) ==> (r.InputWarning? <==> |value| < 2 || |value| > 50)
    ensures kind == Price && !AllSpace(value) && number.Some? ==>
      (r.InputWarning? <==> number.value == 0.0 || number.value > 10000.0)
    ensures kind == Quantity && !AllSpace(value) && number.Some? ==> (r.InputWarning? <==> number.value > 1000.0)
    ensures kind != Name && number.None? ==> r == (if AllSpace(value) then NoFeedback else InputValid)
    ensures r == InputValid <==>
      && !AllSpace(value)
      && (kind == Name ==> 2 <= |value| <= 50)
      && (kind == Quantity ==> number.None? || 0.0 < number.value <= 1000.0)
      && (kind == Price ==> number.None? || 0.0 < number.value <= 10000.0)
  {
    if AllSpace(value) then
      if kind == Name then Info(NAME_HINT) else NoFeedback
    else
      match kind
      case Name =>
        if |value| < 2 then InputWarning("Item name should be more descriptive")
        else if |value| > 50 then InputWarning("Item name is quite long, consider shortening")
        else InputValid
      case Quantity =>
        if number.Some? && number.value <= 0.0 then InputError("Quantity must be greater than 0")
        else if number.Some? && number.value > 1000.0 then InputWarning("Large quantity - please double-check")
        else InputValid
      case Price =>
        if number.Some? && number.value < 0.0 then InputError("Price cannot be negative")
        else if number.Some? && number.value == 0.0 then InputWarning("Free item - is this correct?")
        else if number.Some? && number.value > 10000.0 then InputWarning("High price - please verify amount")
        else InputValid
  }

  /**
   * The red hint on a quantity or price input appears exactly for the
   * numbers `validateForm` rejects; a name never gets one, and a name
   * warning does not stop the form.
   */
  lemma ItemHintsAgreeWithForm(item: Item, qtyText: string, priceText: string)
    requires !AllSpace(qtyText) && !AllSpace(priceText)
    ensures ClassifyItemInput(Quantity, qtyText, Some(item.qty)).InputError? || ClassifyItemInput(Price, priceText, Some(item.price)).InputError?
      <==> !(item.qty > 0.0 && item.price >= 0.0)
    ensures !ClassifyItemInput(Name, item.name, None).InputError?
    ensures !AllSpace(item.name) ==> (ItemAcceptable(item) <==> item.qty > 0.0 && item.price >= 0.0)
  {
  }
}
