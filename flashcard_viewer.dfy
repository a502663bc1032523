/**
 * The flashcard review viewer: an index into the deck and a flip flag, moved
 * by the Prev and Next buttons and toggled by a click on the card.
 */
module FlashcardReview {
  import opened Common
  import opened Page

  /** The viewer's two pieces of state. */
  datatype View = View(index: int, flipped: bool)

  const Start := View(0, false)

  /** The index stays on a card of the deck (or at 0 for an empty deck). */
  predicate InDeck(count: nat, v: View)
  {
    0 <= v.index && (count == 0 ==> v.index == 0) && (count > 0 ==> v.index < count)
  }

  /** The `next` handler: unflip, and advance unless on the last card. */
  function NextView(count: nat, v: View): (r: View)
    requires InDeck(count, v)
    ensures InDeck(count, r)
  {
    View(if v.index < count - 1 then v.index + 1 else v.index, false)
  }

  /** The `prev` handler: unflip, and step back unless on the first card. */
  function PrevView(count: nat, v: View): (r: View)
    requires InDeck(count, v)
    ensures InDeck(count, r)
  {
    View(if v.index > 0 then v.index - 1 else v.index, false)
  }

  /** The card's click handler. */
  function FlipView(v: View): View
  {
    v.(flipped := !v.flipped)
  }

  predicate PrevDisabled(count: nat, v: View) { v.index == 0 }

  predicate NextDisabled(count: nat, v: View) { v.index == count - 1 }

  /** The text on the card: its back when flipped, its front otherwise; nothing past the deck. */
  function Face(cards: seq<Flashcard>, v: View): Option<string>
  {
    if 0 <= v.index < |cards| then Some(if v.flipped then cards[v.index].back else cards[v.index].front)
    else None
  }

  datatype Control = NextButton | PrevButton | CardClick

  function Apply(count: nat, v: View, c: Control): (r: View)
    requires InDeck(count, v)
    ensures InDeck(count, r)
  {
    match c
    case NextButton => NextView(count, v)
    case PrevButton => PrevView(count, v)
    case CardClick => FlipView(v)
  }

  /** Under any sequence of controls the index stays within the deck. */
  function Replay(count: nat, v: View, controls: seq<Control>): (r: View)
    requires InDeck(count, v)
    ensures InDeck(count, r)
    ensures count > 0 ==> 0 <= r.index <= count - 1
    decreases |controls|
  {
    if |controls| == 0 then v else Replay(count, Apply(count, v, controls[0]), controls[1..])
  }

  /** Review opens on the first card, front up, and that is within any deck. */
  lemma StartsOnFirstCard(cards: seq<Flashcard>)
    ensures InDeck(|cards|, Start)
    ensures |cards| > 0 ==> Face(cards, Start) == Some(cards[0].front)
  {
  }

  /** `next` always unflips; it moves forward by one exactly when the Next button is enabled. */
  lemma NextMovesIffEnabled(count: nat, v: View)
    requires count > 0 && InDeck(count, v)
    ensures !NextView(count, v).flipped
    ensures NextView(count, v).index == v.index + 1 <==> !NextDisabled(count, v)
    ensures NextView(count, v).index == v.index <==> NextDisabled(count, v)
  {
  }

  /** `prev` always unflips; it moves back by one exactly when the Prev button is enabled. */
  lemma PrevMovesIffEnabled(count: nat, v: View)
    requires InDeck(count, v)
    ensures !PrevView(count, v).flipped
    ensures PrevView(count, v).index == v.index - 1 <==> !PrevDisabled(count, v)
    ensures PrevView(count, v).index == v.index <==> PrevDisabled(count, v)
  {
  }

  /** With an empty deck the Next button is not disabled, yet `next` leaves the index at 0. */
  lemma EmptyDeckNextEnabledButStill(v: View)
    requires InDeck(0, v)
    ensures !NextDisabled(0, v) && NextView(0, v).index == 0
  {
  }

  /** Two clicks on the card restore the view; one click shows the other side of the same card. */
  lemma ClickTwiceRestores(cards: seq<Flashcard>, v: View)
    requires 0 <= v.index < |cards|
    ensures FlipView(FlipView(v)) == v
    ensures FlipView(v).index == v.index
    ensures Face(cards, FlipView(v)) == Some(if v.flipped then cards[v.index].front else cards[v.index].back)
  {
  }

  /** Pressing Next k times from the first card reaches card min(k, count - 1). */
  lemma {:induction false} NextRepeated(count: nat, k: nat)
    requires count > 0
    ensures Replay(count, Start, seq(k, _ => NextButton)).index == if k < count then k else count - 1
  {
    NextRepeatedFrom(count, 0, k);
  }

  lemma {:induction false} NextRepeatedFrom(count: nat, i: int, k: nat)
    requires count > 0 && 0 <= i < count
    ensures Replay(count, View(i, false), seq(k, _ => NextButton)).index == if i + k < count then i + k else count - 1
    decreases k
  {
    if k > 0 {
      var controls := seq(k, _ => NextButton);
      assert controls[0] == NextButton;
      assert controls[1..] == seq(k - 1, _ => NextButton);
      NextRepeatedFrom(count, NextView(count, View(i, false)).index, k - 1);
    }
  }

  /** The mounted viewer component. */
  class FlashcardViewer {
    const cards: seq<Flashcard>
    var index: int
    var flipped: bool

    function State(): View
      reads this
    {
      View(index, flipped)
    }

    ghost predicate Valid()
      reads this
    {
      InDeck(|cards|, State())
    }

    constructor (cards: seq<Flashcard>)
      ensures this.cards == cards
      ensures State() == Start && Valid()
    {
      this.cards := cards;
      index := 0;
      flipped := false;
    }

    method Next()
      requires Valid()
      modifies this
      ensures Valid() && State() == NextView(|cards|, old(State()))
    {
      flipped := false;
      if index < |cards| - 1 {
        index := index + 1;
      }
    }

    method Prev()
      requires Valid()
      modifies this
      ensures Valid() && State() == PrevView(|cards|, old(State()))
    {
      flipped := false;
      if index > 0 {
        index := index - 1;
      }
    }

    /** The card's onClick. */
    method Flip()
      requires Valid()
      modifies this
      ensures Valid() && State() == FlipView(old(State()))
    {
      flipped := !flipped;
    }

    /** What the card shows. */
    method ShownFace() returns (face: Option<string>)
      requires Valid()
      ensures face == Face(cards, State())
      ensures |cards| > 0 ==> face.Some? && face.value == (if flipped then cards[index].back else cards[index].front)
    {
      if index < |cards| {
        var card := cards[index];
        face := Some(if flipped then card.back else card.front);
      } else {
        face := None;
      }
    }

    /** The `disabled` attributes of the two buttons. */
    method ButtonsDisabled() returns (prevDisabled: bool, nextDisabled: bool)
      requires Valid()
      ensures prevDisabled == PrevDisabled(|cards|, State()) && nextDisabled == NextDisabled(|cards|, State())
      ensures |cards| > 0 ==> (prevDisabled <==> index == 0) && (nextDisabled <==> index == |cards| - 1)
    {
      prevDisabled := index == 0;
      nextDisabled := index == |cards| - 1;
    }
  }
}
