/**
  One card of the list: the text and image sources it shows with their
  fallbacks, the status badge, the price label, and the options menu with its
  Edit and Delete actions.
 */
module FoodCard {
  import opened Js
  import opened Types

  const ImagePlaceholder: string := "https://placehold.co/400x200"
  const LogoPlaceholder: string := "https://placehold.co/40x40"
  const OpenStatusColor: string := "bg-lime-100 text-lime-800 font-semibold"
  const ClosedStatusColor: string := "bg-orange-100 text-orange-800 font-semibold"

  /** The restaurant logo image: its source and alternative text. */
  datatype Logo = Logo(src: string, alt: string)

  /** The status badge: its label and its colour classes. */
  datatype Badge = Badge(text: string, classes: string)

  /** What a card shows; the restaurant parts are `None` when they are not rendered. */
  datatype Card = Card(
    imageSrc: string,
    imageAlt: string,
    priceLabel: string,
    title: string,
    logo: Option<Logo>,
    restaurantName: Option<string>,
    badge: Option<Badge>)

  /** The badge label: "Open Now" for an open restaurant and "Closed" otherwise. */
  function StatusLabel(status: Status): (shown: string)
    ensures status.Open? ==> shown == "Open Now"
    ensures status.Closed? ==> shown == "Closed"
    ensures shown == "Open Now" <==> status.Open?
  {
    if status == Open then "Open Now" else "Closed"
  }

  /** The badge colours follow the same test as the label. */
  function StatusClasses(status: Status): (classes: string)
    ensures status.Open? ==> classes == OpenStatusColor
    ensures status.Closed? ==> classes == ClosedStatusColor
    ensures classes == OpenStatusColor <==> status.Open?
  {
    if status == Open then OpenStatusColor else ClosedStatusColor
  }

  /** The logo's alternative text: "<name> logo", or "Restaurant logo" for an empty name. */
  function LogoAlt(name: string): (alt: string)
    ensures name != "" ==> alt == name + " logo"
    ensures name == "" ==> alt == "Restaurant logo"
  {
    if name != "" then name + " logo" else "Restaurant logo"
  }

  /**
    Every logo's alternative text ends in " logo", and two restaurants share
    it exactly when they have the same name or when one is unnamed and the
    other is called "Restaurant".
   */
  lemma LogoAltDistinguishes(a: string, b: string)
    ensures |LogoAlt(a)| >= 5 && LogoAlt(a)[|LogoAlt(a)| - 5..] == " logo"
    ensures LogoAlt(a) == LogoAlt(b) <==>
      a == b || (a == "" && b == "Restaurant") || (a == "Restaurant" && b == "")
  {
    var nameA := if a != "" then a else "Restaurant";
    var nameB := if b != "" then b else "Restaurant";
    assert LogoAlt(a) == nameA + " logo" && LogoAlt(b) == nameB + " logo";
    if LogoAlt(a) == LogoAlt(b) {
      assert nameA == LogoAlt(a)[..|LogoAlt(a)| - 5];
      assert nameB == LogoAlt(b)[..|LogoAlt(b)| - 5];
    }
  }

  /** The card for an item. */
  function Render(food: FoodItem): (c: Card)
    ensures c.imageSrc == if Truthy(food.image) then food.image.value else ImagePlaceholder
    ensures c.imageAlt == food.name && c.title == food.name
    ensures c.priceLabel == "$" + food.price
    ensures c.logo.Some? <==> food.restaurant.Some?
    ensures c.restaurantName.Some? <==> food.restaurant.Some?
    ensures c.badge.Some? <==> food.restaurant.Some?
    ensures food.restaurant.Some? ==>
      && c.logo.value.src == (if food.restaurant.value.logo != "" then food.restaurant.value.logo else LogoPlaceholder)
      && c.logo.value.alt == LogoAlt(food.restaurant.value.name)
      && c.restaurantName == Some(food.restaurant.value.name)
      && (c.badge.value.text == "Open Now" <==> food.restaurant.value.status == Open)
      && (c.badge.value.classes == OpenStatusColor <==> food.restaurant.value.status == Open)
  {
    var r := food.restaurant;
    Card(
      if Truthy(food.image) then food.image.value else ImagePlaceholder,
      food.name,
      "$" + food.price,
      food.name,
      if r.Some? then Some(Logo(if r.value.logo != "" then r.value.logo else LogoPlaceholder, LogoAlt(r.value.name)))
      else None,
      if r.Some? then Some(r.value.name) else None,
      if r.Some? then Some(Badge(StatusLabel(r.value.status), StatusClasses(r.value.status))) else None)
  }

  /**
    The price label puts back the '$' the normaliser removed: for price text
    that starts with '$' the label is that text again.
   */
  lemma PriceLabelRestoresDollar(food: FoodItem, text: string)
    requires |text| > 0 && text[0] == '$'
    requires food.price == RemoveFirst(text, '$')
    ensures Render(food).priceLabel == text
  {
    assert text == [text[0]] + text[1..];
  }

  /** For price text without '$' the label is that text with '$' in front. */
  lemma PriceLabelAddsDollar(food: FoodItem, text: string)
    requires food.price == RemoveFirst(text, '$')
    requires '$' !in text
    ensures Render(food).priceLabel == "$" + text
  {
  }

  // ---------------------------------------------------------------------------
  // The options menu

  /** What the user does to the menu: the options button, the two items, or a mouse press elsewhere. */
  datatype MenuEvent = ToggleMenu | EditClicked | DeleteClicked | PressedOutside

  /** The callback a menu item invokes, with the card's item. */
  datatype Callback = OnEdit(food: FoodItem) | OnDelete(food: FoodItem)

  datatype MenuStep = MenuStep(open: bool, callback: Option<Callback>)

  /**
    The menu's response to an event. Edit and Delete exist only while the
    menu is open; each invokes its callback with this card's item and closes
    the menu.
   */
  function Menu(food: FoodItem, open: bool, e: MenuEvent): (r: MenuStep)
    ensures e == ToggleMenu ==> r == MenuStep(!open, None)
    ensures e == PressedOutside ==> r == MenuStep(false, None)
    ensures r.callback.Some? <==> open && (e == EditClicked || e == DeleteClicked)
    ensures e == EditClicked && open ==> r == MenuStep(false, Some(OnEdit(food)))
    ensures e == DeleteClicked && open ==> r == MenuStep(false, Some(OnDelete(food)))
    ensures !open && e != ToggleMenu ==> !r.open
  {
    match e
    case ToggleMenu => MenuStep(!open, None)
    case PressedOutside => MenuStep(false, None)
    case EditClicked => if open then MenuStep(false, Some(OnEdit(food))) else MenuStep(open, None)
    case DeleteClicked => if open then MenuStep(false, Some(OnDelete(food))) else MenuStep(open, None)
  }

  /** Pressing the options button twice leaves the menu as it was. */
  lemma ToggleTwice(food: FoodItem, open: bool)
    ensures Menu(food, Menu(food, open, ToggleMenu).open, ToggleMenu).open == open
  {
  }

  /** Opening the menu from a closed card and choosing Edit hands this item to the edit callback and closes it. */
  lemma OpenThenEdit(food: FoodItem)
    ensures var shown := Menu(food, false, ToggleMenu).open;
      Menu(food, shown, EditClicked) == MenuStep(false, Some(OnEdit(food)))
  {
  }
}
