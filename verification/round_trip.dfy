/**
  The path a form takes through the gateway and back: a form the validator
  accepts is written, the stored record is normalised into an item, and the
  edit form is prefilled from that item.
 */
module RoundTrip {
  import opened Js
  import opened Types
  import opened FoodService
  import opened FoodForm

  /** The item the list holds after a form is written and the stored record is read back. */
  function Saved(f: FormState, id: string, createdAt: string): FoodItem {
    Sanitize(Stored(ToPayload(f), id, createdAt))
  }

  /** Text with something other than white space in it is not empty. */
  lemma TextIsNonEmpty(s: string)
    requires HasText(s)
    ensures s != ""
  {
  }

  /** The item normalised from a stored payload whose text fields are non-empty and whose rating is a number. */
  lemma StoredPayload(p: Payload, id: string, createdAt: string)
    requires p.name != "" && p.image.Some? && p.image.value != "" && p.rating.Some?
    requires p.restaurant.name != "" && p.restaurant.logo != ""
    ensures Sanitize(Stored(p, id, createdAt))
         == FoodItem(id, createdAt, p.name, p.image, p.rating.value,
                     Some(Restaurant(p.restaurant.name, p.restaurant.logo,
                                     if p.restaurant.status == "Open Now" || p.restaurant.status == "Open" then Open else Closed)),
                     RemoveFirst(p.Price, '$'))
  {
    var raw := Stored(p, id, createdAt);
    FirstPresentOfTwo(raw.Price, raw.price);
    assert NestedLogo(raw) == Some(p.restaurant.logo);
    assert NestedName(raw) == Some(p.restaurant.name);
    assert NestedStatus(raw) == Some(p.restaurant.status) && raw.status.None? && raw.restaurant_status.None?;
    FirstNonEmptyOfThree(NestedStatus(raw), raw.status, raw.restaurant_status);
    assert StatusText(raw) == if p.restaurant.status != "" then Some(p.restaurant.status) else None;
  }

  /** The item saved from a form whose text fields are non-empty and whose rating and price are numbers. */
  lemma SavedFromFilledForm(f: FormState, id: string, createdAt: string)
    requires f.food_name != "" && f.food_image.Some? && f.food_image.value != ""
    requires ToNumber(f.food_rating).Some? && ToNumber(f.price).Some?
    requires f.restaurant_name != "" && f.restaurant_logo != ""
    ensures Saved(f, id, createdAt)
         == FoodItem(id, createdAt, f.food_name, f.food_image, ToNumber(f.food_rating).value,
                     Some(Restaurant(f.restaurant_name, f.restaurant_logo,
                                     if f.restaurant_status == "Open Now" || f.restaurant_status == "Open" then Open else Closed)),
                     f.price)
  {
    StoredPayload(ToPayload(f), id, createdAt);
    NumberTextHasNoDollar(f.price);
  }

  /**
    The item saved from an accepted form keeps every field the form carried:
    the rating as the number it was read as, the price text unchanged and the
    restaurant status as one of the two choices the form offers.
   */
  lemma SavedKeepsFields(f: FormState, isUrl: string -> bool, id: string, createdAt: string)
    requires Acceptable(f, isUrl)
    ensures Saved(f, id, createdAt)
         == FoodItem(id, createdAt, f.food_name, f.food_image, ToNumber(f.food_rating).value,
                     Some(Restaurant(f.restaurant_name, f.restaurant_logo,
                                     if f.restaurant_status == "Open Now" then Open else Closed)),
                     f.price)
  {
    AcceptedFormIsFilled(f, isUrl);
    SavedFromFilledForm(f, id, createdAt);
  }

  /** What the validator's acceptance guarantees about the fields a save carries over. */
  lemma AcceptedFormIsFilled(f: FormState, isUrl: string -> bool)
    requires Acceptable(f, isUrl)
    ensures f.food_name != "" && f.food_image.Some? && f.food_image.value != ""
    ensures ToNumber(f.food_rating).Some? && ToNumber(f.price).Some?
    ensures f.restaurant_name != "" && f.restaurant_logo != ""
    ensures f.restaurant_status == "Open Now" || f.restaurant_status == "Closed"
  {
    TextIsNonEmpty(f.food_name);
    TextIsNonEmpty(f.food_image.value);
    TextIsNonEmpty(f.restaurant_name);
    TextIsNonEmpty(f.restaurant_logo);
  }

  /** The edit form of an item with a named restaurant that has a logo. */
  lemma PrefillWithRestaurant(food: FoodItem, numberToString: real -> string)
    requires food.restaurant.Some? && food.restaurant.value.name != "" && food.restaurant.value.logo != ""
    ensures Prefill(Some(food), numberToString)
         == FormState(food.name, food.image, numberToString(food.rating), food.price,
                      food.restaurant.value.name, food.restaurant.value.logo,
                      if food.restaurant.value.status == Open then "Open Now" else "Closed")
  {
  }

  /** `EditShowsSubmittedForm` for a form with the fields acceptance guarantees. */
  lemma EditOfFilledForm(f: FormState, numberToString: real -> string, id: string, createdAt: string)
    requires f.food_name != "" && f.food_image.Some? && f.food_image.value != ""
    requires ToNumber(f.food_rating).Some? && ToNumber(f.price).Some?
    requires f.restaurant_name != "" && f.restaurant_logo != ""
    requires f.restaurant_status == "Open Now" || f.restaurant_status == "Closed"
    ensures Prefill(Some(Saved(f, id, createdAt)), numberToString)
         == f.(food_rating := numberToString(ToNumber(f.food_rating).value))
  {
    SavedFromFilledForm(f, id, createdAt);
    PrefillWithRestaurant(Saved(f, id, createdAt), numberToString);
  }

  /**
    Editing an item that was created from an accepted form shows that form
    again, field for field; only the rating is shown as the engine writes the
    number it was read as.
   */
  lemma EditShowsSubmittedForm(f: FormState, isUrl: string -> bool, numberToString: real -> string,
                               id: string, createdAt: string)
    requires Acceptable(f, isUrl)
    ensures Prefill(Some(Saved(f, id, createdAt)), numberToString)
         == f.(food_rating := numberToString(ToNumber(f.food_rating).value))
  {
    AcceptedFormIsFilled(f, isUrl);
    EditOfFilledForm(f, numberToString, id, createdAt);
  }

  /**
    When the engine writes the submitted rating's number as text that reads
    back as the same number, the prefilled edit form of an item created from
    an accepted form is accepted again: saving an edit without changes goes
    through.
   */
  lemma UnchangedEditIsAccepted(f: FormState, isUrl: string -> bool, numberToString: real -> string,
                                id: string, createdAt: string)
    requires Acceptable(f, isUrl)
    requires var x := ToNumber(f.food_rating).value;
             HasText(numberToString(x)) && ToNumber(numberToString(x)) == Some(x)
    ensures Acceptable(Prefill(Some(Saved(f, id, createdAt)), numberToString), isUrl)
  {
    EditShowsSubmittedForm(f, isUrl, numberToString, id, createdAt);
  }
}
