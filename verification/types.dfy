/**
  The records the client works with: the canonical food item and its embedded
  restaurant as the views consume them, and the state of the add/edit form.
  Field names follow the client's own schema.
 */
module Types {
  import opened Js

  /** A restaurant is either open or closed; the views label `Open` as "Open Now". */
  datatype Status = Open | Closed

  datatype Restaurant = Restaurant(name: string, logo: string, status: Status)

  /**
    A food item after normalisation. `image` is `None` (JavaScript `undefined`)
    when the raw record had neither a usable `image` nor an `avatar`, which the
    normaliser lets through even though the declared type says `string`.
   */
  datatype FoodItem = FoodItem(
    id: string,
    createdAt: string,
    name: string,
    image: Option<string>,
    rating: real,
    restaurant: Option<Restaurant>,
    price: string)

  /**
    The add/edit form. Every field is text as typed. `food_image` is `None`
    only after prefilling from an item whose image is `undefined`, and
    `restaurant_status` is whatever the select element last reported, so the
    validator still checks it against "Open Now" and "Closed".
   */
  datatype FormState = FormState(
    food_name: string,
    food_image: Option<string>,
    food_rating: string,
    price: string,
    restaurant_name: string,
    restaurant_logo: string,
    restaurant_status: string)

  /** One optional message per form field; an absent key is `None`. */
  datatype FormErrors = FormErrors(
    food_name: Option<string>,
    food_image: Option<string>,
    food_rating: Option<string>,
    price: Option<string>,
    restaurant_name: Option<string>,
    restaurant_logo: Option<string>,
    restaurant_status: Option<string>)
  {
    /** `Object.keys(errors).length === 0` */
    predicate IsEmpty() {
      && food_name.None? && food_image.None? && food_rating.None? && price.None?
      && restaurant_name.None? && restaurant_logo.None? && restaurant_status.None?
    }
  }

  const NoErrors: FormErrors := FormErrors(None, None, None, None, None, None, None)
}
