/**
  The remote data gateway: the normaliser that turns a loosely shaped API
  record into a `FoodItem`, the form-to-payload mapping for writes, the four
  requests the gateway issues, and how each response becomes a settled result.
  The HTTP exchange itself is abstract: a response is given as a value.
 */
module FoodService {
  import opened Js
  import opened Types

  // ---------------------------------------------------------------------------
  // Raw records as the API returns them

  /** The nested `restaurant` object of a raw record; any key may be missing. */
  datatype RawRestaurant = RawRestaurant(name: Option<string>, logo: Option<string>, status: Option<string>)

  /**
    The raw `rating`: absent or `null`, a JSON number, or text. A JSON number
    is always finite.
   */
  datatype RawRating = RatingAbsent | RatingNumber(number: real) | RatingText(text: string)

  /**
    A raw API record with every key the normaliser reads. `Price` and `price`
    are distinct keys; numbers the API sends for them are taken in their
    string form.
   */
  datatype RawFood = RawFood(
    id: string,
    createdAt: string,
    name: Option<string>,
    image: Option<string>,
    avatar: Option<string>,
    rating: RawRating,
    Price: Option<string>,
    price: Option<string>,
    status: Option<string>,
    restaurant_status: Option<string>,
    restaurant_name: Option<string>,
    restaurant_logo: Option<string>,
    logo: Option<string>,
    restaurant: Option<RawRestaurant>,
    open: Option<bool>)

  /** `item.restaurant?.name` */
  function NestedName(raw: RawFood): Option<string> {
    if raw.restaurant.Some? then raw.restaurant.value.name else None
  }

  /** `item.restaurant?.logo` */
  function NestedLogo(raw: RawFood): Option<string> {
    if raw.restaurant.Some? then raw.restaurant.value.logo else None
  }

  /** `item.restaurant?.status` */
  function NestedStatus(raw: RawFood): Option<string> {
    if raw.restaurant.Some? then raw.restaurant.value.status else None
  }

  // ---------------------------------------------------------------------------
  // The normaliser

  /** The status text the record carries: the first truthy of the three status keys. */
  function StatusText(raw: RawFood): Option<string> {
    FirstNonEmpty([NestedStatus(raw), raw.status, raw.restaurant_status])
  }

  /** `getStatus`: open when the status text says so or the record has `open === true`. */
  function StatusOf(raw: RawFood): (status: Status)
    ensures raw.open == Some(true) ==> status == Open
    ensures Truthy(NestedStatus(raw)) && NestedStatus(raw).value !in {"Open Now", "Open"} && raw.open != Some(true)
            ==> status == Closed
  {
    var text := StatusText(raw);
    if text == Some("Open Now") || text == Some("Open") || raw.open == Some(true) then Open else Closed
  }

  /** The logo that decides whether a restaurant is attached. */
  function LogoOf(raw: RawFood): Option<string> {
    FirstNonEmpty([NestedLogo(raw), raw.restaurant_logo, raw.logo])
  }

  /** The price text before the currency symbol is removed: a `??` chain ending in "0". */
  function PriceText(raw: RawFood): string {
    FirstPresent([raw.Price, raw.price]).GetOr("0")
  }

  /** `parseFloat(String(item.rating)) || 0`; a JSON number reads back as itself. */
  function RatingOf(rating: RawRating): real {
    match rating
    case RatingAbsent => 0.0
    case RatingNumber(x) => x
    case RatingText(t) => ParseFloat(t).GetOr(0.0)
  }

  /** `sanitizeFoodItem`: total; never fails on a missing key. */
  function Sanitize(raw: RawFood): (item: FoodItem)
    ensures item.id == raw.id && item.createdAt == raw.createdAt
    ensures item.name != ""
    ensures item.name == if Truthy(raw.name) then raw.name.value else "Unnamed Food"
    ensures item.image == if Truthy(raw.image) then raw.image else raw.avatar
    ensures item.restaurant.Some?
        <==> Truthy(NestedLogo(raw)) || Truthy(raw.restaurant_logo) || Truthy(raw.logo)
    ensures item.restaurant.Some? ==>
      Some(item.restaurant.value.logo)
        == if Truthy(NestedLogo(raw)) then NestedLogo(raw)
           else if Truthy(raw.restaurant_logo) then raw.restaurant_logo
           else raw.logo
    ensures item.restaurant.Some? ==>
      item.restaurant.value.name
        == if Truthy(NestedName(raw)) then NestedName(raw).value
           else if Truthy(raw.restaurant_name) then raw.restaurant_name.value
           else "Unnamed Restaurant"
  {
    FirstNonEmptyOfThree(NestedLogo(raw), raw.restaurant_logo, raw.logo);
    FirstNonEmptyOfTwo(NestedName(raw), raw.restaurant_name);
    var logo := LogoOf(raw);
    var restaurantName := FirstNonEmpty([NestedName(raw), raw.restaurant_name]);
    var restaurant :=
      if logo.Some? then Some(Restaurant(restaurantName.GetOr("Unnamed Restaurant"), logo.value, StatusOf(raw)))
      else None;
    FoodItem(
      raw.id,
      raw.createdAt,
      if Truthy(raw.name) then raw.name.value else "Unnamed Food",
      Or(raw.image, raw.avatar),
      RatingOf(raw.rating),
      restaurant,
      RemoveFirst(PriceText(raw), '$'))
  }

  /** The price and restaurant of a normalised record, named by the helpers that compute them. */
  lemma SanitizeParts(raw: RawFood)
    ensures Sanitize(raw).price == RemoveFirst(PriceText(raw), '$')
    ensures Sanitize(raw).restaurant
         == if LogoOf(raw).Some? then
              Some(Restaurant(FirstNonEmpty([NestedName(raw), raw.restaurant_name]).GetOr("Unnamed Restaurant"),
                              LogoOf(raw).value, StatusOf(raw)))
            else None
  {
  }

  /** The price text is `Price` when present, else `price` when present, else "0". */
  lemma PriceTextChain(raw: RawFood)
    ensures PriceText(raw) == if raw.Price.Some? then raw.Price.value
                              else if raw.price.Some? then raw.price.value
                              else "0"
  {
    FirstPresentOfTwo(raw.Price, raw.price);
  }

  /**
    An attached restaurant is open exactly when the record says `open === true`,
    or the first truthy of `restaurant.status`, `status`, `restaurant_status`
    reads "Open Now" or "Open".
   */
  lemma SanitizeStatus(raw: RawFood)
    requires Sanitize(raw).restaurant.Some?
    ensures Sanitize(raw).restaurant.value.status == Open
        <==> || raw.open == Some(true)
             || (Truthy(NestedStatus(raw)) && NestedStatus(raw).value in {"Open Now", "Open"})
             || (!Truthy(NestedStatus(raw)) && Truthy(raw.status) && raw.status.value in {"Open Now", "Open"})
             || (!Truthy(NestedStatus(raw)) && !Truthy(raw.status) && Truthy(raw.restaurant_status)
                 && raw.restaurant_status.value in {"Open Now", "Open"})
  {
    FirstNonEmptyOfThree(NestedStatus(raw), raw.status, raw.restaurant_status);
  }

  /**
    The price is the first present of `Price`, `price`, "0" (an empty `Price`
    wins over `price`), with its first '$' removed wherever it stands: text
    without '$' is kept, text starting with '$' loses exactly that character,
    and otherwise the text around the first '$' is joined, one '$' fewer.
   */
  lemma SanitizePrice(raw: RawFood)
    ensures var text := if raw.Price.Some? then raw.Price.value
                        else if raw.price.Some? then raw.price.value
                        else "0";
      && PriceText(raw) == text
      && ('$' !in text ==> Sanitize(raw).price == text)
      && (|text| > 0 && text[0] == '$' ==> Sanitize(raw).price == text[1..])
      && ('$' in text ==>
            && Sanitize(raw).price == text[..IndexOf(text, '$')] + text[IndexOf(text, '$') + 1..]
            && multiset(Sanitize(raw).price) == multiset(text) - multiset{'$'})
  {
    SanitizeParts(raw);
    PriceTextChain(raw);
    RemoveFirstFacts(PriceText(raw), '$');
  }

  /** The rating is the parsed value, and 0 when the value is missing or does not parse. */
  lemma SanitizeRating(raw: RawFood)
    ensures raw.rating.RatingAbsent? ==> Sanitize(raw).rating == 0.0
    ensures raw.rating.RatingNumber? ==> Sanitize(raw).rating == raw.rating.number
    ensures raw.rating.RatingText? ==>
      Sanitize(raw).rating == if ParseFloat(raw.rating.text).Some? then ParseFloat(raw.rating.text).value else 0.0
  {
  }

  // ---------------------------------------------------------------------------
  // The write payload

  /** The `restaurant` object of a write payload. */
  datatype PayloadRestaurant = PayloadRestaurant(name: string, logo: string, status: string)

  /**
    The JSON body of a create or update. `rating` is `Number(food_rating)`,
    `None` for NaN; `image` is `None` when the form holds `undefined`.
   */
  datatype Payload = Payload(
    name: string,
    image: Option<string>,
    rating: Option<real>,
    Price: string,
    restaurant: PayloadRestaurant)

  /** `transformFormDataToApiPayload`: renames the form's fields to the API's schema. */
  function ToPayload(f: FormState): Payload {
    Payload(
      f.food_name,
      f.food_image,
      ToNumber(f.food_rating),
      f.price,
      PayloadRestaurant(f.restaurant_name, f.restaurant_logo, f.restaurant_status))
  }

  /**
    The payload keeps every field of the form as typed except the rating,
    which it carries as the number `Number` reads: two forms give the same
    payload exactly when they differ at most in how the same rating is written.
   */
  lemma PayloadKeepsFormText(f: FormState, g: FormState)
    ensures ToPayload(f) == ToPayload(g)
        <==> f.(food_rating := "") == g.(food_rating := "") && ToNumber(f.food_rating) == ToNumber(g.food_rating)
  {
  }

  /**
    The record the collection stores for a payload and returns: the body as
    `JSON.stringify` sends it (an `undefined` image is dropped, a NaN rating
    becomes `null`), plus the `id` and `createdAt` the remote side assigns.
   */
  function Stored(p: Payload, id: string, createdAt: string): RawFood {
    RawFood(
      id, createdAt,
      Some(p.name),
      p.image,
      None,
      if p.rating.Some? then RatingNumber(p.rating.value) else RatingAbsent,
      Some(p.Price),
      None,
      None, None, None, None, None,
      Some(RawRestaurant(Some(p.restaurant.name), Some(p.restaurant.logo), Some(p.restaurant.status))),
      None)
  }

  /**
    What a create or update followed by normalisation of the stored record
    yields for a form's own fields: the name when non-empty, the image when
    non-empty, the rating `Number` gave (0 for NaN), and the price with its
    first '$' removed.
   */
  lemma RoundTripFields(f: FormState, id: string, createdAt: string)
    ensures var item := Sanitize(Stored(ToPayload(f), id, createdAt));
      && item.id == id && item.createdAt == createdAt
      && item.name == (if f.food_name != "" then f.food_name else "Unnamed Food")
      && item.image == (if Truthy(f.food_image) then f.food_image else None)
      && item.rating == ToNumber(f.food_rating).GetOr(0.0)
      && item.price == RemoveFirst(f.price, '$')
  {
    var raw := Stored(ToPayload(f), id, createdAt);
    FirstPresentOfTwo(raw.Price, raw.price);
    assert PriceText(raw) == f.price;
  }

  /**
    The restaurant a create or update yields after normalisation: present
    exactly when a logo was given, with that logo, and named by the form or
    "Unnamed Restaurant".
   */
  lemma RoundTripRestaurant(f: FormState, id: string, createdAt: string)
    ensures var item := Sanitize(Stored(ToPayload(f), id, createdAt));
      && (item.restaurant.Some? <==> f.restaurant_logo != "")
      && (item.restaurant.Some? ==>
            && item.restaurant.value.logo == f.restaurant_logo
            && item.restaurant.value.name == if f.restaurant_name != "" then f.restaurant_name else "Unnamed Restaurant")
  {
    var raw := Stored(ToPayload(f), id, createdAt);
    SanitizeParts(raw);
    assert NestedLogo(raw) == Some(f.restaurant_logo) && raw.restaurant_logo.None? && raw.logo.None?;
    FirstNonEmptyOfThree(NestedLogo(raw), raw.restaurant_logo, raw.logo);
    assert NestedName(raw) == Some(f.restaurant_name) && raw.restaurant_name.None?;
    FirstNonEmptyOfTwo(NestedName(raw), raw.restaurant_name);
  }

  /**
    The restaurant status after a create or update and normalisation: open
    exactly when the form's status text is "Open Now" or "Open".
   */
  lemma RoundTripStatus(f: FormState, id: string, createdAt: string)
    requires f.restaurant_logo != ""
    ensures var item := Sanitize(Stored(ToPayload(f), id, createdAt));
      && item.restaurant.Some?
      && (item.restaurant.value.status == Open <==> f.restaurant_status == "Open Now" || f.restaurant_status == "Open")
  {
    var raw := Stored(ToPayload(f), id, createdAt);
    SanitizeParts(raw);
    assert NestedLogo(raw) == Some(f.restaurant_logo) && raw.restaurant_logo.None? && raw.logo.None?;
    FirstNonEmptyOfThree(NestedLogo(raw), raw.restaurant_logo, raw.logo);
    assert NestedStatus(raw) == Some(f.restaurant_status) && raw.status.None? && raw.restaurant_status.None?;
    FirstNonEmptyOfThree(NestedStatus(raw), raw.status, raw.restaurant_status);
    assert StatusText(raw) == if f.restaurant_status != "" then Some(f.restaurant_status) else None;
    assert StatusOf(raw) == Open <==> f.restaurant_status == "Open Now" || f.restaurant_status == "Open";
  }

  // ---------------------------------------------------------------------------
  // Requests and responses

  datatype Method = Get | Post | Put | Delete

  /** A request relative to the API base URL; `nameQuery` is the `name` search parameter. */
  datatype Request = Request(verb: Method, path: string, nameQuery: Option<string>, body: Option<Payload>)

  /** `getFoods(searchTerm)`: the `name` filter is sent only for a truthy search term. */
  function GetFoodsRequest(searchTerm: Option<string>): (r: Request)
    ensures r.verb == Get && r.path == "/Food" && r.body.None?
    ensures r.nameQuery.Some? <==> Truthy(searchTerm)
    ensures r.nameQuery.Some? ==> r.nameQuery == searchTerm
  {
    Request(Get, "/Food", if Truthy(searchTerm) then searchTerm else None, None)
  }

  /** `createFood(formData)` posts the payload to the collection. */
  function CreateRequest(f: FormState): Request {
    Request(Post, "/Food", None, Some(ToPayload(f)))
  }

  /** `updateFood(id, formData)` puts the payload to the item's own path. */
  function UpdateRequest(id: string, f: FormState): Request {
    Request(Put, "/Food/" + id, None, Some(ToPayload(f)))
  }

  /** `deleteFood(id)` deletes the item's own path, with no body. */
  function DeleteRequest(id: string): Request {
    Request(Delete, "/Food/" + id, None, None)
  }

  /**
    Create and update send the same body, the form's payload, and differ only
    in verb and path; update and delete address the same item path, and a
    delete carries no body.
   */
  lemma WriteRequests(id: string, f: FormState)
    ensures CreateRequest(f).verb == Post && CreateRequest(f).path == "/Food"
    ensures UpdateRequest(id, f).verb == Put && UpdateRequest(id, f).path == "/Food/" + id
    ensures CreateRequest(f).body == UpdateRequest(id, f).body == Some(ToPayload(f))
    ensures DeleteRequest(id).verb == Delete && DeleteRequest(id).path == UpdateRequest(id, f).path
    ensures DeleteRequest(id).body.None?
    ensures CreateRequest(f).nameQuery.None? && UpdateRequest(id, f).nameQuery.None?
  {
  }

  /** What `fetch` produced: a response with its `ok` flag and parsed body, or a rejection. */
  datatype Response<+T> = Responded(ok: bool, body: T) | NetworkFailure(reason: Thrown)

  /**
    How the gateway settles a response: an `ok` response yields its body
    converted, a non-`ok` one rejects with an `Error` carrying `failure`, and a
    rejected `fetch` propagates its reason.
   */
  function Receive<T, U>(resp: Response<T>, failure: string, convert: T -> U): (r: Settled<U>)
    ensures r.Fulfilled? <==> resp.Responded? && resp.ok
    ensures r.Fulfilled? ==> r.value == convert(resp.body)
    ensures resp.Responded? && !resp.ok ==> r == Rejected(ErrorObject(failure))
    ensures resp.NetworkFailure? ==> r == Rejected(resp.reason)
  {
    match resp
    case Responded(ok, body) => if ok then Fulfilled(convert(body)) else Rejected(ErrorObject(failure))
    case NetworkFailure(reason) => Rejected(reason)
  }

  /** `data.map(sanitizeFoodItem)` */
  function SanitizeAll(data: seq<RawFood>): (items: seq<FoodItem>)
    ensures |items| == |data|
    ensures forall i :: 0 <= i < |data| ==> items[i] == Sanitize(data[i])
  {
    if |data| == 0 then [] else [Sanitize(data[0])] + SanitizeAll(data[1..])
  }

  /** `getFoods`: every record of an `ok` response is normalised, in order. */
  function GetFoods(resp: Response<seq<RawFood>>): (r: Settled<seq<FoodItem>>)
    ensures r.Fulfilled? <==> resp.Responded? && resp.ok
    ensures r.Fulfilled? ==>
      && |r.value| == |resp.body|
      && forall i :: 0 <= i < |resp.body| ==> r.value[i] == Sanitize(resp.body[i])
    ensures resp.Responded? && !resp.ok ==> r == Rejected(ErrorObject("Failed to fetch food items"))
    ensures resp.NetworkFailure? ==> r == Rejected(resp.reason)
  {
    Receive(resp, "Failed to fetch food items", SanitizeAll)
  }

  /** `createFood`: the created record comes back normalised. */
  function CreateFood(resp: Response<RawFood>): (r: Settled<FoodItem>)
    ensures r.Fulfilled? <==> resp.Responded? && resp.ok
    ensures r.Fulfilled? ==> r.value == Sanitize(resp.body)
    ensures resp.Responded? && !resp.ok ==> r == Rejected(ErrorObject("Failed to create food item"))
    ensures resp.NetworkFailure? ==> r == Rejected(resp.reason)
  {
    Receive(resp, "Failed to create food item", Sanitize)
  }

  /** `updateFood`: the updated record comes back normalised. */
  function UpdateFood(resp: Response<RawFood>): (r: Settled<FoodItem>)
    ensures r.Fulfilled? <==> resp.Responded? && resp.ok
    ensures r.Fulfilled? ==> r.value == Sanitize(resp.body)
    ensures resp.Responded? && !resp.ok ==> r == Rejected(ErrorObject("Failed to update food item"))
    ensures resp.NetworkFailure? ==> r == Rejected(resp.reason)
  {
    Receive(resp, "Failed to update food item", Sanitize)
  }

  /** `deleteFood`: no body is read on success. */
  function DeleteFood(resp: Response<()>): (r: Settled<()>)
    ensures r.Fulfilled? <==> resp.Responded? && resp.ok
    ensures resp.Responded? && !resp.ok ==> r == Rejected(ErrorObject("Failed to delete food item"))
    ensures resp.NetworkFailure? ==> r == Rejected(resp.reason)
  {
    Receive(resp, "Failed to delete food item", (u: ()) => u)
  }
}
