/**
  The add/edit form modal: its initial state, prefilling from the item being
  edited, the field-by-field validator with its fixed messages, the change
  handler, and the submit gate. URL validity (`new URL(...)` not throwing) and
  the engine's number-to-text conversion (`String(rating)`) are parameters.
 */
module FoodForm {
  import opened Js
  import opened Types

  /** The form for a new item: every field empty, status "Open Now". */
  const InitialFormState: FormState := FormState("", Some(""), "", "", "", "", "Open Now")

  /** The two statuses the form's select offers. */
  const StatusChoices: set<string> := {"Open Now", "Closed"}

  /**
    The form after opening: the initial state when there is no item, otherwise
    the item's fields, with empty restaurant fields when the item has no
    restaurant, and "Open Now" exactly when that restaurant is open.
   */
  function Prefill(item: Option<FoodItem>, numberToString: real -> string): (f: FormState)
    ensures item.None? ==> f == InitialFormState
    ensures item.Some? ==>
      && f.food_name == item.value.name
      && f.food_image == item.value.image
      && f.food_rating == numberToString(item.value.rating)
      && f.price == item.value.price
    ensures item.Some? && item.value.restaurant.None? ==> f.restaurant_name == "" && f.restaurant_logo == ""
    ensures item.Some? && item.value.restaurant.Some? ==>
      && f.restaurant_name == item.value.restaurant.value.name
      && f.restaurant_logo == item.value.restaurant.value.logo
    ensures f.restaurant_status in StatusChoices
    ensures item.Some? ==>
      ((f.restaurant_status == "Open Now")
         <==> item.value.restaurant.Some? && item.value.restaurant.value.status == Open)
  {
    match item
    case None => InitialFormState
    case Some(food) =>
      FormState(
        food.name,
        food.image,
        numberToString(food.rating),
        food.price,
        if food.restaurant.Some? && food.restaurant.value.name != "" then food.restaurant.value.name else "",
        if food.restaurant.Some? && food.restaurant.value.logo != "" then food.restaurant.value.logo else "",
        if food.restaurant.Some? && food.restaurant.value.status == Open then "Open Now" else "Closed")
  }

  // ---------------------------------------------------------------------------
  // Validation

  /** The text has at least one character that is not white space. */
  predicate HasText(s: string) {
    exists i :: 0 <= i < |s| && !IsWhiteSpace(s[i])
  }

  /** `!s.trim()` is the negation of having text. */
  lemma BlankIffNoText(s: string)
    ensures IsBlank(s) <==> !HasText(s)
  {
    BlankIffAllWhiteSpace(s);
  }

  /**
    What the form accepts, stated independently of the order of the checks:
    names with text, URLs with text that parse, a rating that is a number in
    the closed range [1, 5], a price with text that is a number, and one of
    the two statuses.
   */
  predicate Acceptable(f: FormState, isUrl: string -> bool) {
    && f.food_image.Some?
    && HasText(f.food_name)
    && HasText(f.food_image.value) && isUrl(f.food_image.value)
    && ToNumber(f.food_rating).Some? && 1.0 <= ToNumber(f.food_rating).value <= 5.0
    && HasText(f.price) && ToNumber(f.price).Some?
    && HasText(f.restaurant_name)
    && HasText(f.restaurant_logo) && isUrl(f.restaurant_logo)
    && f.restaurant_status in StatusChoices
  }

  /** The validator's outcome: the errors it set, or a `TypeError` from reading an `undefined` image. */
  datatype Validation = Checked(errors: FormErrors) | Raised

  /** A required text field: blank text gets the field's message. */
  function RequiredError(text: string, missing: string): (e: Option<string>)
    ensures e == if !HasText(text) then Some(missing) else None
  {
    BlankIffNoText(text);
    if IsBlank(text) then Some(missing) else None
  }

  /** A required URL field: missing, unparsable, or fine. */
  function UrlError(text: string, missing: string, isUrl: string -> bool): (e: Option<string>)
    ensures e == if !HasText(text) then Some(missing) else if !isUrl(text) then Some("Image URL is invalid") else None
  {
    BlankIffNoText(text);
    if IsBlank(text) then Some(missing)
    else if !isUrl(text) then Some("Image URL is invalid")
    else None
  }

  /** The rating field: blank and NaN share a message; the range [1, 5] is closed. */
  function RatingError(text: string): (e: Option<string>)
    ensures e == if ToNumber(text).None? || !HasText(text) then Some("Food Rating must be a number")
                 else if !(1.0 <= ToNumber(text).value <= 5.0) then Some("Rating is outside 1-5 range")
                 else None
  {
    BlankIffNoText(text);
    var n := ToNumber(text);
    if IsBlank(text) then Some("Food Rating must be a number")
    else if n.None? then Some("Food Rating must be a number")
    else if n.value < 1.0 || n.value > 5.0 then Some("Rating is outside 1-5 range")
    else None
  }

  /** The price field: required, then numeric. */
  function PriceError(text: string): (e: Option<string>)
    ensures e == if !HasText(text) then Some("Price is required")
                 else if ToNumber(text).None? then Some("Price must be a number")
                 else None
  {
    BlankIffNoText(text);
    if IsBlank(text) then Some("Price is required")
    else if ToNumber(text).None? then Some("Price must be a number")
    else None
  }

  /**
    `validate`: raises when the image field is `undefined`; otherwise one
    message per failing field, and a field passes exactly when it meets the
    corresponding clause of `Acceptable`.
   */
  function Validate(f: FormState, isUrl: string -> bool): (v: Validation)
    ensures v.Raised? <==> f.food_image.None?
    ensures v.Checked? ==>
      && v.errors.food_name == (if !HasText(f.food_name) then Some("Food Name is required") else None)
      && v.errors.food_image
           == (if !HasText(f.food_image.value) then Some("Food Image URL is required")
               else if !isUrl(f.food_image.value) then Some("Image URL is invalid")
               else None)
      && v.errors.food_rating
           == (if ToNumber(f.food_rating).None? || !HasText(f.food_rating) then Some("Food Rating must be a number")
               else if !(1.0 <= ToNumber(f.food_rating).value <= 5.0) then Some("Rating is outside 1-5 range")
               else None)
      && v.errors.price
           == (if !HasText(f.price) then Some("Price is required")
               else if ToNumber(f.price).None? then Some("Price must be a number")
               else None)
      && v.errors.restaurant_name
           == (if !HasText(f.restaurant_name) then Some("Restaurant Name is required") else None)
      && v.errors.restaurant_logo
           == (if !HasText(f.restaurant_logo) then Some("Restaurant Logo URL is required")
               else if !isUrl(f.restaurant_logo) then Some("Image URL is invalid")
               else None)
      && (v.errors.restaurant_status.Some? <==> f.restaurant_status !in StatusChoices)
      && (v.errors.restaurant_status.Some? ==>
            v.errors.restaurant_status.value == "Restaurant Status must be 'Open Now' or 'Closed'")
  {
    match f.food_image
    case None => Raised
    case Some(image) =>
      Checked(FormErrors(
        RequiredError(f.food_name, "Food Name is required"),
        UrlError(image, "Food Image URL is required", isUrl),
        RatingError(f.food_rating),
        PriceError(f.price),
        RequiredError(f.restaurant_name, "Restaurant Name is required"),
        UrlError(f.restaurant_logo, "Restaurant Logo URL is required", isUrl),
        if f.restaurant_status !in StatusChoices then Some("Restaurant Status must be 'Open Now' or 'Closed'")
        else None))
  }

  /** `validate()` returns true exactly for the forms `Acceptable` describes. */
  lemma ValidateAccepts(f: FormState, isUrl: string -> bool)
    ensures Validate(f, isUrl) == Checked(NoErrors) <==> Acceptable(f, isUrl)
  {
    var v := Validate(f, isUrl);
    if f.food_image.Some? {
      var e := v.errors;
      assert e == NoErrors <==> e.IsEmpty();
      assert e.food_rating.None? <==>
        HasText(f.food_rating) && ToNumber(f.food_rating).Some? && 1.0 <= ToNumber(f.food_rating).value <= 5.0;
    }
  }

  /**
    A blank rating reads as 0 to `Number`, so the range check alone would
    already refuse it; the blank check comes first, so it is refused as not
    a number.
   */
  lemma BlankRatingReadsAsZero(text: string)
    requires IsBlank(text)
    ensures ToNumber(text) == Some(0.0)
    ensures RatingError(text) == Some("Food Rating must be a number")
  {
  }

  /** A one-digit rating passes exactly when the digit is 1 to 5, so both bounds are accepted. */
  lemma OneDigitRating(a: char)
    requires IsDigit(a)
    ensures RatingError([a]) == if '1' <= a <= '5' then None else Some("Rating is outside 1-5 range")
  {
    var s := [a];
    NumberOfOneDigit(a);
    assert !IsWhiteSpace(s[0]);
    RatingOfNumber(s, DigitValue(a) as real);
  }

  /**
    A rating written digit, point, digit passes exactly when its value lies in
    [1, 5]: "5.0" passes, "0.9" and "5.1" get the range message.
   */
  lemma DigitPointDigitRating(a: char, b: char)
    requires IsDigit(a) && IsDigit(b)
    ensures RatingError([a, '.', b])
         == if '1' <= a <= '4' || (a == '5' && b == '0') then None else Some("Rating is outside 1-5 range")
  {
    DigitPointDigitValue(a, b);
    DigitPointDigitInRange(a, b);
  }

  /** A rating written digit, point, digit is judged by the range alone. */
  lemma DigitPointDigitValue(a: char, b: char)
    requires IsDigit(a) && IsDigit(b)
    ensures var v := DigitValue(a) as real + DigitValue(b) as real / 10.0;
      RatingError([a, '.', b]) == if 1.0 <= v <= 5.0 then None else Some("Rating is outside 1-5 range")
  {
    NumberOfDigitPointDigit(a, b);
    var s := [a, '.', b];
    assert !IsWhiteSpace(s[0]);
    RatingOfNumber(s, DigitValue(a) as real + DigitValue(b) as real / 10.0);
  }

  /** A rating with text that reads as the number `v` is judged by the range alone. */
  lemma RatingOfNumber(text: string, v: real)
    requires |text| > 0 && !IsWhiteSpace(text[0])
    requires ToNumber(text) == Some(v)
    ensures RatingError(text) == if 1.0 <= v <= 5.0 then None else Some("Rating is outside 1-5 range")
  {
    assert HasText(text);
  }

  /** The value of digit, point, digit lies in [1, 5] exactly from "1.0" to "5.0". */
  lemma DigitPointDigitInRange(a: char, b: char)
    requires IsDigit(a) && IsDigit(b)
    ensures var v := DigitValue(a) as real + DigitValue(b) as real / 10.0;
      1.0 <= v <= 5.0 <==> '1' <= a <= '4' || (a == '5' && b == '0')
  {
  }

  /** A rating that starts with anything but a sign, a digit, a point or white space is not a number. */
  lemma NonNumericRating(s: string)
    requires |s| > 0 && !IsWhiteSpace(s[0]) && !IsDigit(s[0]) && s[0] !in {'+', '-', '.'}
    ensures RatingError(s) == Some("Food Rating must be a number")
  {
    assert TrimStart(s) == s;
    var t := Trim(s);
    assert |t| > 0 && t[0] == s[0];
    ScanDecimalNone(t);
  }

  /**
    The add form as it opens is refused: every text field reports its
    message, and only the status, preset to "Open Now", passes.
   */
  lemma EmptyAddFormIsRefused(isUrl: string -> bool)
    ensures Validate(InitialFormState, isUrl)
         == Checked(FormErrors(Some("Food Name is required"), Some("Food Image URL is required"),
                               Some("Food Rating must be a number"), Some("Price is required"),
                               Some("Restaurant Name is required"), Some("Restaurant Logo URL is required"), None))
    ensures !Acceptable(InitialFormState, isUrl)
  {
    ValidateAccepts(InitialFormState, isUrl);
  }

  // ---------------------------------------------------------------------------
  // Editing and submitting

  /** The form's inputs, by their `name` attribute. */
  datatype Field = FoodName | FoodImage | FoodRating | Price | RestaurantName | RestaurantLogo | RestaurantStatus

  /** The value the input named `field` shows. */
  function FieldValue(f: FormState, field: Field): Option<string> {
    match field
    case FoodName => Some(f.food_name)
    case FoodImage => f.food_image
    case FoodRating => Some(f.food_rating)
    case Price => Some(f.price)
    case RestaurantName => Some(f.restaurant_name)
    case RestaurantLogo => Some(f.restaurant_logo)
    case RestaurantStatus => Some(f.restaurant_status)
  }

  /** Two forms whose inputs all show the same values are the same form. */
  lemma FieldsDetermineForm(f: FormState, g: FormState)
    requires forall field :: FieldValue(f, field) == FieldValue(g, field)
    ensures f == g
  {
    assert FieldValue(f, FoodName) == FieldValue(g, FoodName);
    assert FieldValue(f, FoodImage) == FieldValue(g, FoodImage);
    assert FieldValue(f, FoodRating) == FieldValue(g, FoodRating);
    assert FieldValue(f, Price) == FieldValue(g, Price);
    assert FieldValue(f, RestaurantName) == FieldValue(g, RestaurantName);
    assert FieldValue(f, RestaurantLogo) == FieldValue(g, RestaurantLogo);
    assert FieldValue(f, RestaurantStatus) == FieldValue(g, RestaurantStatus);
  }

  /** `handleChange`: the named input takes the new value and every other input keeps its own. */
  function HandleChange(f: FormState, field: Field, value: string): (g: FormState)
    ensures FieldValue(g, field) == Some(value)
    ensures forall other :: other != field ==> FieldValue(g, other) == FieldValue(f, other)
  {
    match field
    case FoodName => f.(food_name := value)
    case FoodImage => f.(food_image := Some(value))
    case FoodRating => f.(food_rating := value)
    case Price => f.(price := value)
    case RestaurantName => f.(restaurant_name := value)
    case RestaurantLogo => f.(restaurant_logo := value)
    case RestaurantStatus => f.(restaurant_status := value)
  }

  /** `handleSubmit`: `onSubmit` receives the form exactly when it validates. */
  function HandleSubmit(f: FormState, isUrl: string -> bool): (submitted: Option<FormState>)
    ensures submitted.Some? <==> Acceptable(f, isUrl)
    ensures submitted.Some? ==> submitted.value == f
  {
    ValidateAccepts(f, isUrl);
    var v := Validate(f, isUrl);
    if v.Checked? && v.errors.IsEmpty() then Some(f) else None
  }

  // ---------------------------------------------------------------------------
  // The modal as a state machine

  /** The modal's own state: the form and the errors last shown. */
  datatype Modal = Modal(formData: FormState, errors: FormErrors)

  /** `Reset` is the effect that runs when the modal opens or closes or its item changes. */
  datatype ModalEvent = Reset(item: Option<FoodItem>) | Change(field: Field, value: string) | Submit

  /** The next modal state, and the form handed to `onSubmit` if any. */
  datatype ModalStep = ModalStep(next: Modal, submitted: Option<FormState>)

  function Step(m: Modal, e: ModalEvent, isUrl: string -> bool, numberToString: real -> string): (r: ModalStep)
    ensures r.submitted.Some? <==> e.Submit? && Acceptable(m.formData, isUrl)
    ensures r.submitted.Some? ==> r.submitted.value == m.formData
    ensures e.Reset? ==> r.next == Modal(Prefill(e.item, numberToString), NoErrors)
    ensures e.Change? ==> r.next.errors == m.errors
    ensures e.Change? ==> r.next.formData == HandleChange(m.formData, e.field, e.value)
    ensures e.Submit? ==> r.next.formData == m.formData
    ensures e.Submit? && m.formData.food_image.None? ==> r.next == m
    ensures e.Submit? && m.formData.food_image.Some? ==> r.next.errors == Validate(m.formData, isUrl).errors
  {
    match e
    case Reset(item) => ModalStep(Modal(Prefill(item, numberToString), NoErrors), None)
    case Change(field, value) => ModalStep(Modal(HandleChange(m.formData, field, value), m.errors), None)
    case Submit =>
      ValidateAccepts(m.formData, isUrl);
      match Validate(m.formData, isUrl)
      case Raised => ModalStep(m, None)
      case Checked(errors) =>
        ModalStep(Modal(m.formData, errors), if errors.IsEmpty() then Some(m.formData) else None)
  }

  /**
    Editing an item whose image is `undefined` and submitting without touching
    the image input submits nothing and shows no new errors: the validator
    raises before it reports anything.
   */
  lemma ImagelessItemIsNotSubmitted(item: FoodItem, isUrl: string -> bool, numberToString: real -> string)
    requires item.image.None?
    ensures var shown := Step(Modal(InitialFormState, NoErrors), Reset(Some(item)), isUrl, numberToString).next;
      && Step(shown, Submit, isUrl, numberToString).submitted.None?
      && Step(shown, Submit, isUrl, numberToString).next == shown
  {
  }
}
