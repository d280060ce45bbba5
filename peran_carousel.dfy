/** The index of the "peran" carousel, moved by its previous and next
    buttons. The pixel offset it drives is not part of this model. */
module PeranCarousel {

  datatype Click = Prev | Next

  /** `Math.max(0, cardCount - 1)`: the last card's index, 0 with no cards. */
  function MaxIndex(cardCount: nat): nat {
    if cardCount == 0 then 0 else cardCount - 1
  }

  /** Option of a card count: `None` when the carousel element is missing. */
  datatype Option = None | Some(value: nat)

  /** The bound on the index: the last card's index when the carousel element
      is on the page (`cards` is its current card count), and 0 otherwise. */
  function Bound(cards: Option): nat {
    match cards
    case Some(n) => MaxIndex(n)
    case None => 0
  }

  /** The previous button: `Math.max(0, peranIndex - 1)`. */
  function AfterPrev(i: int): (r: int)
    ensures r >= 0
    ensures i >= 1 ==> r == i - 1
    ensures i <= 0 ==> r == 0
  {
    if i - 1 > 0 then i - 1 else 0
  }

  /** The next button: nothing without the carousel element, otherwise
      `Math.min(maxIndex, peranIndex + 1)` against the card count read at
      the click. */
  function AfterNext(i: int, cards: Option): (r: int)
    ensures cards.None? ==> r == i
    ensures cards.Some? ==> r <= MaxIndex(cards.value)
    ensures cards.Some? && i < MaxIndex(cards.value) ==> r == i + 1
    ensures cards.Some? && i == MaxIndex(cards.value) ==> r == i
  {
    match cards
    case None => i
    case Some(n) => if MaxIndex(n) < i + 1 then MaxIndex(n) else i + 1
  }

  function AfterClick(i: int, click: Click, cards: Option): int {
    match click
    case Prev => AfterPrev(i)
    case Next => AfterNext(i, cards)
  }

  /** The index after a sequence of clicks, the card count staying fixed. */
  function Run(i: int, clicks: seq<Click>, cards: Option): int
    decreases |clicks|
  {
    if clicks == [] then i else Run(AfterClick(i, clicks[0], cards), clicks[1..], cards)
  }

  /** Whatever the clicks, an index that starts in `[0, Bound(cards)]` stays
      there; in particular from the initial index 0. */
  lemma {:induction false} RunStaysInRange(i: int, clicks: seq<Click>, cards: Option)
    requires 0 <= i <= Bound(cards)
    ensures 0 <= Run(i, clicks, cards) <= Bound(cards)
    decreases |clicks|
  {
    if clicks != [] {
      RunStaysInRange(AfterClick(i, clicks[0], cards), clicks[1..], cards);
    }
  }

  /** Next then previous returns to the same card when there is a next card;
      previous then next does too when there is a previous one. */
  lemma NextPrevRoundTrip(i: int, n: nat)
    ensures 0 <= i < MaxIndex(n) ==> AfterPrev(AfterNext(i, Some(n))) == i
    ensures 0 < i <= MaxIndex(n) ==> AfterNext(AfterPrev(i), Some(n)) == i
  {
  }

  /** The carousel's captured index. */
  class Carousel {
    var peranIndex: int

    constructor ()
      ensures peranIndex == 0
    {
      peranIndex := 0;
    }

    method OnPrevClick()
      modifies this
      ensures peranIndex == AfterPrev(old(peranIndex))
    {
      peranIndex := if peranIndex - 1 > 0 then peranIndex - 1 else 0;
    }

    method OnNextClick(cards: Option)
      modifies this
      ensures peranIndex == AfterNext(old(peranIndex), cards)
    {
      if cards.None? {
        return;
      }
      var maxIndex := if cards.value == 0 then 0 else cards.value - 1;
      peranIndex := if maxIndex < peranIndex + 1 then maxIndex else peranIndex + 1;
    }
  }
}
