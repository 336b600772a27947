/**
 * The "Load More" modal of public/app.js: `openModal` lists a feed's items
 * from the first one the card does not show up to index 15, and
 * `handleModalScroll` / `loadMoreModalItems` append ten more at a time
 * while items remain and no load is under way.
 *
 * `openModal` skips a fixed three items, but a card shows `feed.limit`
 * items, which is five for the security feeds; `FirstPageAsWritten` and
 * `Modal.OpenAsWritten` keep that behaviour and `AsWrittenRepeatsCardItems`
 * shows the repeated items. `Modal.Open` skips the items its card shows.
 */
module ModalPager {
  import opened JsText
  import opened Timeline

  const MODAL_LOAD_INCREMENT := 10

  /** `modalLoadOffset` right after opening: the first page ends before index 15. */
  const FIRST_PAGE_END := 15

  /** The number of items `openModal` skips, whatever the card shows. */
  const SKIPPED_AS_WRITTEN := 3

  /** The items a card shows: `items.slice(0, initialLimit)`. */
  function CardItems(items: seq<Article>, initialLimit: int): (r: seq<Article>)
    ensures 0 <= initialLimit ==> |r| == Min(initialLimit, |items|) && r == items[..|r|]
  {
    JsSlice(items, 0, initialLimit)
  }

  /** The first page as written: `modalItems.slice(3, 15)`. */
  function FirstPageAsWritten(items: seq<Article>): (r: seq<Article>)
    ensures |items| <= SKIPPED_AS_WRITTEN ==> r == []
    ensures |items| > SKIPPED_AS_WRITTEN ==> r == items[SKIPPED_AS_WRITTEN..Min(FIRST_PAGE_END, |items|)]
  {
    JsSlice(items, SKIPPED_AS_WRITTEN, FIRST_PAGE_END)
  }

  /** The first page starting after the `cardShown` items on the card. */
  function FirstPage(items: seq<Article>, cardShown: nat): (r: seq<Article>)
    ensures cardShown >= Min(FIRST_PAGE_END, |items|) ==> r == []
    ensures cardShown < Min(FIRST_PAGE_END, |items|) ==> r == items[cardShown..Min(FIRST_PAGE_END, |items|)]
  {
    JsSlice(items, cardShown, FIRST_PAGE_END)
  }

  /** With a card of five items, its last two are listed again at the top of the modal. */
  lemma AsWrittenRepeatsCardItems(items: seq<Article>)
    requires |items| >= 5
    ensures |FirstPageAsWritten(items)| >= 2
    ensures CardItems(items, 5)[3..5] == FirstPageAsWritten(items)[..2]
  {
  }

  /** The card followed by the corrected first page lists items 0 to 14 once each, in order. */
  lemma CardThenFirstPage(items: seq<Article>, cardShown: nat)
    requires cardShown <= FIRST_PAGE_END
    ensures CardItems(items, cardShown) + FirstPage(items, cardShown) == JsSlice(items, 0, FIRST_PAGE_END)
  {
    var c := Min(cardShown, |items|);
    var e := Min(FIRST_PAGE_END, |items|);
    assert items[..e] == items[0..c] + items[c..e];
  }

  /** For the three-item cards the corrected page is the page as written. */
  lemma ThreeItemCardsAgree(items: seq<Article>)
    ensures FirstPage(items, 3) == FirstPageAsWritten(items)
  {
  }

  /** The modal's module-level state: `modalItems`, `modalTotalItems`, `modalLoadOffset`, `modalIsLoading`. */
  class Modal {
    var items: seq<Article>
    var total: int
    var offset: int
    var loading: bool
    /** The index of the first listed item. */
    var first: int
    /** The items listed in the modal body, in order. */
    var shown: seq<Article>

    /** The list is always one contiguous run of `items`, from `first` up to `offset`. */
    ghost predicate Valid()
      reads this
    {
      && total == |items|
      && 0 <= first && 0 <= offset
      && (first <= offset || total <= offset)
      && shown == JsSlice(items, first, offset)
    }

    constructor ()
      ensures Valid()
      ensures items == [] && offset == 0 && !loading && shown == []
    {
      items := [];
      total := 0;
      offset := 0;
      loading := false;
      first := 0;
      shown := [];
    }

    /** `openModal(feedName, {items})` as written: the list always starts at index 3. */
    method OpenAsWritten(feedItems: seq<Article>)
      modifies this
      ensures Valid()
      ensures items == feedItems && total == |feedItems|
      ensures offset == FIRST_PAGE_END && !loading
      ensures shown == FirstPageAsWritten(feedItems)
    {
      offset := FIRST_PAGE_END;
      items := feedItems;
      total := |feedItems|;
      loading := false;
      first := SKIPPED_AS_WRITTEN;
      shown := FirstPageAsWritten(items);
    }

    /** `openModal(feedName, {items})`, corrected for a card that shows `cardShown` of the items. */
    method Open(feedItems: seq<Article>, cardShown: nat)
      modifies this
      ensures Valid()
      ensures items == feedItems && total == |feedItems|
      ensures offset == FIRST_PAGE_END && !loading
      ensures shown == FirstPage(feedItems, cardShown)
    {
      offset := FIRST_PAGE_END;
      items := feedItems;
      total := |feedItems|;
      loading := false;
      first := Min(cardShown, FIRST_PAGE_END);
      shown := FirstPage(items, cardShown);
    }

    /** `loadMoreModalItems()`. */
    method LoadMore()
      requires Valid()
      modifies this
      ensures Valid()
      ensures offset == Min(old(offset) + MODAL_LOAD_INCREMENT, total)
      ensures old(offset) < total ==> shown == old(shown) + items[old(offset)..offset]
      ensures old(offset) >= total ==> shown == old(shown)
      ensures items == old(items) && total == old(total) && first == old(first) && loading == old(loading)
    {
      var nextOffset := Min(offset + MODAL_LOAD_INCREMENT, total);
      var newItems := JsSlice(items, offset, nextOffset);
      shown := shown + newItems;
      offset := nextOffset;
    }

    /** `handleModalScroll()`: a load starts only near the bottom, when idle and with items left. */
    method HandleScroll(nearBottom: bool) returns (started: bool)
      modifies this
      ensures started <==> nearBottom && !old(loading) && old(offset) < old(total)
      ensures loading == (old(loading) || started)
      ensures items == old(items) && total == old(total) && offset == old(offset)
      ensures first == old(first) && shown == old(shown)
    {
      started := nearBottom && !loading && offset < total;
      if started {
        loading := true;
      }
    }

    /** The timer callback of `handleModalScroll`: load the next items, then clear the flag. */
    method FinishLoad()
      requires Valid()
      modifies this
      ensures Valid()
      ensures !loading
      ensures offset == Min(old(offset) + MODAL_LOAD_INCREMENT, total)
      ensures old(offset) < total ==> shown == old(shown) + items[old(offset)..offset]
      ensures old(offset) >= total ==> shown == old(shown)
      ensures items == old(items) && total == old(total) && first == old(first)
    {
      LoadMore();
      loading := false;
    }
  }
}
