/** The two legality rules the move executor consults before it touches the
    game window. Both are pure. */
module Legality {
  import opened Results
  import opened Cards
  import opened Game

  /** May `card` be laid on the column `deck`? A King opens a column that is
      empty through and through; otherwise the card must continue the column's
      face-up run. The source reads the top of the face-up run even when that
      run is empty (an out-of-range read); the model refuses the move there. */
  function IsTransferLegal(card: Card, deck: TableauDeck): (legal: bool)
    ensures deck.numDownCards == 0 && deck.cards == [] ==> (legal <==> card.number == KING)
    ensures deck.numDownCards > 0 && deck.cards == [] ==> !legal
    ensures deck.cards != [] ==> (legal <==> Stacks(Top(deck), card))
  {
    if deck.numDownCards == 0 && |deck.cards| == 0 && card.number == KING then
      true
    else if |deck.cards| == 0 then
      false
    else
      Top(deck).number - 1 == card.number && Top(deck).suite % 2 != card.suite % 2
  }

  /** May `card` go onto the foundation slot `foundation`, as the source has it.
      NOTE: the occupied-slot case compares the slot card's SUIT with the
      card's rank minus one, where the slot card's rank was meant. The effect is
      that a card joins an occupied slot of its own suit only when its rank is
      its suit index plus one. */
  function IsPromoteToFoundationLegal(foundation: Option<Card>, card: Card): (legal: bool)
    ensures foundation.None? ==> (legal <==> card.number == ACE)
    ensures foundation.Some? ==>
              (legal <==> foundation.value.suite == card.suite && card.number == card.suite + 1)
  {
    (foundation.None? && card.number == ACE)
    || (foundation.Some?
        && foundation.value.suite == card.suite
        && foundation.value.suite == card.number - 1)
  }

  /** The foundation rule as it was evidently meant: an Ace opens a slot, and a
      slot accepts the next rank of its own suit. */
  function IsPromoteToFoundationLegalIntended(foundation: Option<Card>, card: Card): (legal: bool)
    ensures foundation.None? ==> (legal <==> card.number == ACE)
    ensures foundation.Some? ==>
              (legal <==> foundation.value.number < KING
                          && card == Card(foundation.value.suite, foundation.value.number + 1))
  {
    (foundation.None? && card.number == ACE)
    || (foundation.Some?
        && foundation.value.suite == card.suite
        && foundation.value.number == card.number - 1)
  }

  /** The rule as written refuses the Two of a suit on its Ace, and accepts the
      Two of suit 1 on the Nine of suit 1. */
  lemma AsWrittenRuleMisjudges()
    ensures IsPromoteToFoundationLegalIntended(Some(Card(0, ACE)), Card(0, 2))
    ensures !IsPromoteToFoundationLegal(Some(Card(0, ACE)), Card(0, 2))
    ensures !IsPromoteToFoundationLegalIntended(Some(Card(1, 9)), Card(1, 2))
    ensures IsPromoteToFoundationLegal(Some(Card(1, 9)), Card(1, 2))
  {
  }

  /** As written, no occupied slot ever accepts a card above the Four, so no
      foundation can be completed up to the King. */
  lemma AsWrittenSlotsStopAtFour(slot: Card, card: Card)
    requires IsPromoteToFoundationLegal(Some(slot), card)
    ensures card.number <= 4
  {
  }
}
