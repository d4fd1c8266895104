/** The tag filter (JS/script.js, the filter-button click handler and the
    visibility rule that layoutCards repeats): a set of active tags and the
    rule deciding which cards are displayed. */
module Filters {

  /** A card is displayed iff no filter is active or one of the active tags
      is among the card's classes (`[...activeFilters].some(f =>
      card.classList.contains(f))`). */
  predicate Visible(active: set<string>, classes: set<string>) {
    |active| == 0 || exists f :: f in active && f in classes
  }

  /** The visibility rule as a set identity: hidden exactly when filters are
      active and none of them is a class of the card. */
  lemma VisibleIffMeets(active: set<string>, classes: set<string>)
    ensures Visible(active, classes) <==> active == {} || active * classes != {}
  {
    if active * classes != {} {
      var f :| f in active * classes;
      assert f in active && f in classes;
    }
    if |active| == 0 {
      assert active == {};
    } else if Visible(active, classes) {
      var f :| f in active && f in classes;
      assert f in active * classes;
    }
  }

  /** One click on the button of `tag`: drop the tag if it is active, add it
      otherwise. */
  function Toggle(active: set<string>, tag: string): (r: set<string>)
    ensures tag in r <==> tag !in active
    ensures forall u :: u != tag ==> (u in r <==> u in active)
  {
    if tag in active then active - {tag} else active + {tag}
  }

  /** Clicking the same button twice restores the filter set. */
  lemma ToggleTwice(active: set<string>, tag: string)
    ensures Toggle(Toggle(active, tag), tag) == active
  {
    assert forall u :: u in Toggle(Toggle(active, tag), tag) <==> u in active;
  }

  /** Clicks on two buttons give the same filter set in either order: the
      displayed result depends on membership only. */
  lemma ToggleCommutes(active: set<string>, a: string, b: string)
    ensures Toggle(Toggle(active, a), b) == Toggle(Toggle(active, b), a)
  {
    assert forall u :: u in Toggle(Toggle(active, a), b) <==> u in Toggle(Toggle(active, b), a);
  }

  /** Three cards under the `web` filter: with {"web"} active the cards
      tagged {"web"}, {"design"} and {"web", "design"} are shown, hidden,
      shown. */
  lemma WebFilterExample()
    ensures Visible({"web"}, {"web"})
    ensures !Visible({"web"}, {"design"})
    ensures Visible({"web"}, {"web", "design"})
  {
    assert "web" in {"web"};
    assert "web" != "design";
  }
}
