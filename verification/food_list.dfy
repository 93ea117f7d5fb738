/**
  The list view: which of its four panels it shows, and client-side
  pagination that renders a prefix of the items and grows it by a fixed page
  size each time "Load more" is pressed.
 */
module FoodList {
  import opened Js
  import opened Types

  /** How many more items each page adds. */
  const ItemsPerPage: nat := 8

  /** The panel the list renders. `Grid` holds the cards in order and whether "Load more" shows. */
  datatype View =
    | Spinner
    | ErrorPanel(message: string)
    | EmptyPanel
    | Grid(cards: seq<FoodItem>, loadMore: bool)

  function Min(a: nat, b: nat): nat {
    if a <= b then a else b
  }

  /**
    The rendered panel: the spinner while loading, then the error when it is
    truthy (an empty message is not), then the empty-state panel, then the
    first `visibleCount` items with "Load more" while some are hidden.
   */
  function Render(foods: seq<FoodItem>, isLoading: bool, error: Option<string>, visibleCount: nat): (v: View)
    ensures v.Spinner? <==> isLoading
    ensures v.ErrorPanel? <==> !isLoading && Truthy(error)
    ensures v.ErrorPanel? ==> Some(v.message) == error
    ensures v.EmptyPanel? <==> !isLoading && !Truthy(error) && |foods| == 0
    ensures v.Grid? <==> !isLoading && !Truthy(error) && |foods| > 0
    ensures v.Grid? ==>
      && |v.cards| == Min(visibleCount, |foods|)
      && (forall i :: 0 <= i < |v.cards| ==> v.cards[i] == foods[i])
      && (v.loadMore <==> visibleCount < |foods|)
  {
    if isLoading then Spinner
    else if Truthy(error) then ErrorPanel(error.value)
    else
      var visible := foods[..Min(visibleCount, |foods|)];
      if |foods| == 0 then EmptyPanel
      else Grid(visible, visibleCount < |foods|)
  }

  /** `handleLoadMore`: one more page. */
  function LoadMore(visibleCount: nat): (c: nat)
    ensures c == visibleCount + ItemsPerPage
  {
    visibleCount + ItemsPerPage
  }

  /** The visible count after the button has been pressed `presses` times since the list mounted. */
  function AfterPresses(presses: nat): nat {
    if presses == 0 then ItemsPerPage else LoadMore(AfterPresses(presses - 1))
  }

  /** Each press shows one more page: after `n` presses, `n + 1` pages. */
  lemma {:induction false} AfterPressesIsPages(n: nat)
    ensures AfterPresses(n) == ItemsPerPage * (n + 1)
  {
    if n > 0 {
      AfterPressesIsPages(n - 1);
    }
  }

  /** A list of at most one page shows every item once, in order, without "Load more". */
  lemma SmallListShowsAll(foods: seq<FoodItem>)
    requires 0 < |foods| <= ItemsPerPage
    ensures Render(foods, false, None, AfterPresses(0)) == Grid(foods, false)
  {
    assert foods[..|foods|] == foods;
  }

  /**
    After enough presses every item is shown, in order, and "Load more" is
    gone; before that the button is still there.
   */
  lemma PressesShowAll(foods: seq<FoodItem>, n: nat)
    requires |foods| > 0
    ensures ItemsPerPage * (n + 1) >= |foods| ==> Render(foods, false, None, AfterPresses(n)) == Grid(foods, false)
    ensures ItemsPerPage * (n + 1) < |foods| ==> Render(foods, false, None, AfterPresses(n)).loadMore
  {
    AfterPressesIsPages(n);
    assert foods[..|foods|] == foods;
  }

  /**
    Pressing "Load more" keeps the cards already shown and adds the next ones:
    the old cards are a prefix of the new, and exactly a page more are shown
    unless the list runs out.
   */
  lemma LoadMoreExtends(foods: seq<FoodItem>, visibleCount: nat)
    requires |foods| > 0
    ensures var before := Render(foods, false, None, visibleCount);
      var after := Render(foods, false, None, LoadMore(visibleCount));
      && before.cards <= after.cards
      && |after.cards| == Min(visibleCount + ItemsPerPage, |foods|)
  {
  }
}
