/** The project filter (js/main.js, the click handler installed on each `.filter-btn` in
    `initializeAnimations`): the buttons' `active` classes and the project cards' `display`
    styles, updated in place. */
module ProjectFilter {
  import opened Wrappers

  /** A card's `style.display`: `'block'` or `'none'`. */
  datatype Display = Block | Hidden

  /** The filter value that shows every card. */
  const ShowAll := "all"

  /** A card with `data-category` value `category` is shown under the button filter `filter`
      (`undefined` attributes are `None`, and `undefined === undefined` holds). */
  predicate Shows(filter: Option<string>, category: Option<string>) {
    filter == Some(ShowAll) || category == filter
  }

  /** The `active` classes after button `clicked` of `n` was clicked. */
  function ActiveAfter(n: nat, clicked: nat): (flags: seq<bool>)
    ensures |flags| == n
    ensures forall b :: 0 <= b < n ==> (flags[b] <==> b == clicked)
  {
    seq(n, b => b == clicked)
  }

  /** The `display` styles of cards with the given categories under `filter`. */
  function DisplayUnder(filter: Option<string>, categories: seq<Option<string>>): (shown: seq<Display>)
    ensures |shown| == |categories|
    ensures forall c :: 0 <= c < |categories| ==> (shown[c] == Block <==> Shows(filter, categories[c]))
  {
    seq(|categories|, c requires 0 <= c < |categories| => if Shows(filter, categories[c]) then Block else Hidden)
  }

  /** The set of buttons carrying the `active` class. */
  function ActiveButtons(flags: seq<bool>): set<nat> {
    set b: nat | b < |flags| && flags[b]
  }

  /** After a click exactly one button, the clicked one, is active. */
  lemma ExactlyOneActive(n: nat, clicked: nat)
    requires clicked < n
    ensures ActiveButtons(ActiveAfter(n, clicked)) == {clicked}
  {
    var flags := ActiveAfter(n, clicked);
    assert clicked in ActiveButtons(flags);
  }

  /** The `all` filter shows every card, whatever its category. */
  lemma ShowAllShowsEveryCard(categories: seq<Option<string>>)
    ensures forall c :: 0 <= c < |categories| ==> DisplayUnder(Some(ShowAll), categories)[c] == Block
  {
  }

  /** Any other filter shows exactly the cards of that category. */
  lemma FilterShowsOnlyItsCategory(filter: Option<string>, categories: seq<Option<string>>, c: nat)
    requires filter != Some(ShowAll) && c < |categories|
    ensures DisplayUnder(filter, categories)[c] == Block <==> categories[c] == filter
  {
  }

  /** A click on filter button `clicked`: every button loses `active`, the clicked one gains it,
      and every card is shown or hidden by the clicked button's filter. The result does not
      depend on the earlier state, so clicking the same button again changes nothing. */
  method ClickFilter(active: array<bool>, filters: seq<Option<string>>, clicked: nat,
                     categories: seq<Option<string>>, display: array<Display>)
    requires active.Length == |filters| && clicked < |filters|
    requires display.Length == |categories|
    modifies active, display
    ensures active[..] == ActiveAfter(|filters|, clicked)
    ensures display[..] == DisplayUnder(filters[clicked], categories)
  {
    var b := 0;
    while b < active.Length
      invariant 0 <= b <= active.Length
      invariant forall k :: 0 <= k < b ==> !active[k]
    {
      active[b] := false;
      b := b + 1;
    }
    active[clicked] := true;
    assert active[..] == ActiveAfter(|filters|, clicked);

    var filter := filters[clicked];
    var c := 0;
    while c < display.Length
      invariant 0 <= c <= display.Length
      invariant active[..] == ActiveAfter(|filters|, clicked)
      invariant forall k :: 0 <= k < c ==> (display[k] == Block <==> Shows(filter, categories[k]))
    {
      if filter == Some(ShowAll) || categories[c] == filter {
        display[c] := Block;
      } else {
        display[c] := Hidden;
      }
      c := c + 1;
    }
  }
}
