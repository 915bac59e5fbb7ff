/** What holds of the engine across moves: the stock/waste invariant and the
    alternating tableau are kept by every move, every card is accounted for, and
    the stock can be run through and turned back over. */
module Properties {
  import opened Results
  import opened Cards
  import opened Game
  import opened Legality
  import opened Interact

  /** The moves a driver may ask for, with what the recogniser reports after each. */
  datatype Move =
    | DrawCard(seen: Card)
    | ResetStock
    | WasteToTableau(deck: nat, seen: Card)
    | WasteToFoundation(slot: nat, seen: Card)

  /** A move names an existing column or foundation slot. */
  predicate InRange(m: Move)
  {
    match m
    case WasteToTableau(deck, _) => deck < 7
    case WasteToFoundation(slot, _) => slot < 4
    case _ => true
  }

  predicate AllInRange(moves: seq<Move>)
  {
    forall i :: 0 <= i < |moves| ==> InRange(moves[i])
  }

  function Step(s: GameState, m: Move): Result<GameState>
    requires InRange(m)
  {
    match m
    case DrawCard(seen) => Draw(s, seen)
    case ResetStock => Reset(s)
    case WasteToTableau(deck, seen) => ToTableau(s, deck, seen)
    case WasteToFoundation(slot, seen) => ToFoundation(s, slot, seen)
  }

  /** The driver's loop: on success the new state replaces the old one; an
      illegal move leaves the current state as it was. */
  function After(s: GameState, m: Move): GameState
    requires InRange(m)
  {
    match Step(s, m)
    case Ok(next) => next
    case IllegalMove => s
  }

  function Run(s: GameState, moves: seq<Move>): GameState
    requires AllInRange(moves)
    decreases moves
  {
    if moves == [] then s else Run(After(s, moves[0]), moves[1..])
  }

  /** How many of the moves put a card onto a foundation. */
  function Promotions(s: GameState, moves: seq<Move>): nat
    requires AllInRange(moves)
    decreases moves
  {
    if moves == [] then 0
    else
      (if moves[0].WasteToFoundation? && Step(s, moves[0]).Ok? then 1 else 0)
      + Promotions(After(s, moves[0]), moves[1..])
  }

  // ---------------------------------------------------------------------------
  // The invariant

  /** The deal is consistent. */
  lemma InitialStateConsistent(recognize: TableauPosition -> Card)
    ensures Consistent(InitialState(recognize))
  {
  }

  /** Whenever the waste shows a card the circuit is not empty, so the decrement
      of the circuit count never wraps round. */
  lemma WasteImpliesCircuitNonEmpty(s: GameState)
    requires StockWasteConsistent(s) && s.wastePileTop.Some?
    ensures s.remainingPileSize > 0
    ensures Dec32(s.remainingPileSize) == s.remainingPileSize - 1
  {
  }

  lemma DrawKeepsConsistent(s: GameState, seen: Card)
    requires Consistent(s) && Draw(s, seen).Ok?
    ensures Consistent(Draw(s, seen).value)
  {
  }

  lemma ResetKeepsConsistent(s: GameState)
    requires Consistent(s) && Reset(s).Ok?
    ensures Consistent(Reset(s).value)
  {
  }

  /** Laying the waste top on a column keeps that column alternating. */
  lemma AppendKeepsAlternating(column: TableauDeck, card: Card)
    requires Alternates(column.cards) && IsTransferLegal(card, column)
    ensures Alternates(column.cards + [card])
  {
  }

  lemma ToTableauKeepsConsistent(s: GameState, deck: nat, seen: Card)
    requires deck < 7 && Consistent(s) && ToTableau(s, deck, seen).Ok?
    ensures Consistent(ToTableau(s, deck, seen).value)
    ensures ToTableau(s, deck, seen).value.remainingPileSize == s.remainingPileSize - 1
  {
  }

  lemma ToFoundationKeepsConsistent(s: GameState, pos: nat, seen: Card)
    requires pos < 4 && Consistent(s) && ToFoundation(s, pos, seen).Ok?
    ensures Consistent(ToFoundation(s, pos, seen).value)
    ensures ToFoundation(s, pos, seen).value.remainingPileSize == s.remainingPileSize - 1
  {
  }

  lemma StepKeepsConsistent(s: GameState, m: Move)
    requires InRange(m) && Consistent(s)
    ensures Consistent(After(s, m))
  {
    if Step(s, m).Ok? {
      match m
      case DrawCard(seen) => DrawKeepsConsistent(s, seen);
      case ResetStock => ResetKeepsConsistent(s);
      case WasteToTableau(deck, seen) => ToTableauKeepsConsistent(s, deck, seen);
      case WasteToFoundation(slot, seen) => ToFoundationKeepsConsistent(s, slot, seen);
    }
  }

  lemma {:induction false} RunKeepsConsistent(s: GameState, moves: seq<Move>)
    requires AllInRange(moves) && Consistent(s)
    ensures Consistent(Run(s, moves))
    decreases moves
  {
    if moves != [] {
      StepKeepsConsistent(s, moves[0]);
      RunKeepsConsistent(After(s, moves[0]), moves[1..]);
    }
  }

  /** Every state a driver can reach from the deal is consistent. */
  lemma ReachableStatesConsistent(recognize: TableauPosition -> Card, moves: seq<Move>)
    requires AllInRange(moves)
    ensures Consistent(Run(InitialState(recognize), moves))
  {
    InitialStateConsistent(recognize);
    RunKeepsConsistent(InitialState(recognize), moves);
  }

  // ---------------------------------------------------------------------------
  // Accounting for the cards

  /** The deal puts 28 cards on the tableau and 24 in the stock. */
  lemma InitialStateHas52Cards(recognize: TableauPosition -> Card)
    ensures CardsInPlay(InitialState(recognize)) == 52
  {
    var t := InitialState(recognize).tableau;
    assert SizeUpTo(t, 1) == 1;
    assert SizeUpTo(t, 2) == 3;
    assert SizeUpTo(t, 3) == 6;
    assert SizeUpTo(t, 4) == 10;
    assert SizeUpTo(t, 5) == 15;
    assert SizeUpTo(t, 6) == 21;
    assert SizeUpTo(t, 7) == 28;
  }

  /** A step keeps every card in play, except a promotion, which takes exactly
      one card out of play. */
  lemma StepAccounting(s: GameState, m: Move)
    requires InRange(m) && Consistent(s)
    ensures CardsInPlay(After(s, m)) + (if m.WasteToFoundation? && Step(s, m).Ok? then 1 else 0)
            == CardsInPlay(s)
  {
    if Step(s, m).Ok? {
      match m
      case DrawCard(_) =>
      case ResetStock =>
      case WasteToTableau(deck, seen) =>
        var next := ToTableau(s, deck, seen).value;
        ToTableauKeepsConsistent(s, deck, seen);
        assert next.tableau == s.tableau[deck := next.tableau[deck]];
        TableauSizeUpdate(s.tableau, deck, next.tableau[deck]);
      case WasteToFoundation(slot, seen) =>
        ToFoundationKeepsConsistent(s, slot, seen);
    }
  }

  lemma {:induction false} RunAccounting(s: GameState, moves: seq<Move>)
    requires AllInRange(moves) && Consistent(s)
    ensures CardsInPlay(Run(s, moves)) + Promotions(s, moves) == CardsInPlay(s)
    decreases moves
  {
    if moves != [] {
      StepAccounting(s, moves[0]);
      StepKeepsConsistent(s, moves[0]);
      RunAccounting(After(s, moves[0]), moves[1..]);
    }
  }

  /** All 52 cards stay accounted for: on the tableau, in the stock/waste circuit,
      or promoted to a foundation. */
  lemma CardsConserved(recognize: TableauPosition -> Card, moves: seq<Move>)
    requires AllInRange(moves)
    ensures CardsInPlay(Run(InitialState(recognize), moves)) + Promotions(InitialState(recognize), moves) == 52
  {
    InitialStateConsistent(recognize);
    InitialStateHas52Cards(recognize);
    RunAccounting(InitialState(recognize), moves);
  }

  // ---------------------------------------------------------------------------
  // The stock cycle

  /** Draw once for every card in `seens`, stopping at the first refusal. */
  function DrawAll(s: GameState, seens: seq<Card>): Result<GameState>
    decreases seens
  {
    if seens == [] then Ok(s)
    else
      match Draw(s, seens[0])
      case IllegalMove => IllegalMove
      case Ok(next) => DrawAll(next, seens[1..])
  }

  /** Drawing k cards succeeds exactly when the stock holds at least k, lowers
      the stock by k, shows the last card drawn, and changes nothing else. */
  lemma {:induction false} DrawAllEffect(s: GameState, seens: seq<Card>)
    ensures DrawAll(s, seens).Ok? <==> |seens| <= s.stockPileSize
    ensures DrawAll(s, seens).Ok? ==>
              var t := DrawAll(s, seens).value;
              && t.stockPileSize == s.stockPileSize - |seens|
              && t.wastePileTop == (if seens == [] then s.wastePileTop else Some(seens[|seens| - 1]))
              && t.tableau == s.tableau && t.foundation == s.foundation
              && t.remainingPileSize == s.remainingPileSize
    decreases seens
  {
    if seens != [] && s.stockPileSize > 0 {
      var next := Draw(s, seens[0]).value;
      DrawAllEffect(next, seens[1..]);
      if |seens| > 1 {
        assert seens[1..][|seens[1..]| - 1] == seens[|seens| - 1];
      }
    }
  }

  /** Drawing the whole of a freshly turned stock and turning it back over
      restores the state exactly. */
  lemma StockCycle(s: GameState, seens: seq<Card>)
    requires s.stockPileSize == s.remainingPileSize == |seens| && s.wastePileTop.None?
    ensures DrawAll(s, seens).Ok?
    ensures DrawAll(s, seens).value.stockPileSize == 0
    ensures Reset(DrawAll(s, seens).value) == Ok(s)
  {
    DrawAllEffect(s, seens);
  }

  // ---------------------------------------------------------------------------
  // A short game

  /** Deal, draw a card that is not an Ace, and try to promote it to an empty
      slot: the draw succeeds and the promotion is refused. */
  lemma DealDrawPromoteScenario(recognize: TableauPosition -> Card, drawn: Card, beneath: Card)
    requires drawn.number != ACE
    ensures var dealt := InitialState(recognize);
            && dealt.tableau[6].numDownCards == 6 && |dealt.tableau[6].cards| == 1
            && Draw(dealt, drawn).Ok?
            && Draw(dealt, drawn).value.stockPileSize == 23
            && Draw(dealt, drawn).value.wastePileTop == Some(drawn)
            && ToFoundation(Draw(dealt, drawn).value, 0, beneath) == IllegalMove
  {
  }

  // ---------------------------------------------------------------------------
  // Foundations under the intended rule

  /** Under the intended rule a slot either receives an Ace or goes up by one
      rank in its own suit. */
  lemma IntendedPromotionAdvancesSlot(s: GameState, pos: nat, seen: Card)
    requires pos < 4 && ToFoundationIntended(s, pos, seen).Ok?
    ensures var slot := ToFoundationIntended(s, pos, seen).value.foundation[pos].value;
            if s.foundation[pos].None? then slot.number == ACE
            else slot.suite == s.foundation[pos].value.suite
                 && slot.number == s.foundation[pos].value.number + 1
  {
  }
}
