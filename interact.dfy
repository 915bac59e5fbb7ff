/** The move executor: the deal, the four moves and the waste bookkeeping they
    share. Each move is given twice: as a function stating the transition, and
    as a method that builds the next state field by field on a copy of the
    current one and reports the mouse action it performs. Results of the
    screen-recognition collaborator enter as parameters (`seen`, `recognize`). */
module Interact {
  import opened Results
  import opened Cards
  import opened Game
  import opened Legality
  import opened Layout

  // ---------------------------------------------------------------------------
  // Transitions

  /** After the top waste card has left the circuit: one card fewer in the
      circuit, and the waste shows the card beneath (`seen`) unless every card
      of the circuit is back in the stock. */
  function RemoveFromVisiblePile(state: GameState, seen: Card): (next: GameState)
    ensures next.remainingPileSize == Dec32(state.remainingPileSize)
    ensures next.wastePileTop.None? <==> next.remainingPileSize == state.stockPileSize
    ensures next.wastePileTop.Some? ==> next.wastePileTop.value == seen
    ensures next.tableau == state.tableau && next.foundation == state.foundation
    ensures next.stockPileSize == state.stockPileSize
  {
    var remaining := Dec32(state.remainingPileSize);
    state.(remainingPileSize := remaining,
           wastePileTop := if remaining == state.stockPileSize then None else Some(seen))
  }

  /** Turn the next stock card onto the waste pile, where it is seen to be `seen`. */
  function Draw(state: GameState, seen: Card): (r: Result<GameState>)
    ensures r.IllegalMove? <==> state.stockPileSize == 0
    ensures r.Ok? ==> r.value.stockPileSize == state.stockPileSize - 1
                      && r.value.wastePileTop == Some(seen)
                      && r.value.tableau == state.tableau
                      && r.value.foundation == state.foundation
                      && r.value.remainingPileSize == state.remainingPileSize
  {
    if state.stockPileSize == 0 then IllegalMove
    else Ok(state.(stockPileSize := state.stockPileSize - 1, wastePileTop := Some(seen)))
  }

  /** Turn the whole waste pile back over into the stock. */
  function Reset(state: GameState): (r: Result<GameState>)
    ensures r.IllegalMove? <==> state.stockPileSize != 0
    ensures r.Ok? ==> r.value.stockPileSize == state.remainingPileSize
                      && r.value.wastePileTop.None?
                      && r.value.tableau == state.tableau
                      && r.value.foundation == state.foundation
                      && r.value.remainingPileSize == state.remainingPileSize
  {
    if state.stockPileSize != 0 then IllegalMove
    else Ok(state.(stockPileSize := state.remainingPileSize, wastePileTop := None))
  }

  /** Lay the top waste card on column `deck`; the card beneath it, if the waste
      still holds one, is seen to be `seen`. */
  function ToTableau(state: GameState, deck: nat, seen: Card): (r: Result<GameState>)
    requires deck < 7
    ensures r.IllegalMove? <==>
              state.wastePileTop.None? || !IsTransferLegal(state.wastePileTop.value, state.tableau[deck])
    ensures r.Ok? ==>
              && r.value.tableau[deck].cards == state.tableau[deck].cards + [state.wastePileTop.value]
              && r.value.tableau[deck].numDownCards == state.tableau[deck].numDownCards
              && (forall d :: 0 <= d < 7 && d != deck ==> r.value.tableau[d] == state.tableau[d])
              && r.value.foundation == state.foundation
              && r.value.stockPileSize == state.stockPileSize
              && r.value.remainingPileSize == Dec32(state.remainingPileSize)
              && (r.value.wastePileTop.None? <==> r.value.remainingPileSize == state.stockPileSize)
              && (r.value.wastePileTop.Some? ==> r.value.wastePileTop.value == seen)
  {
    if state.wastePileTop.None? then IllegalMove
    else
      var card := state.wastePileTop.value;
      var column := state.tableau[deck];
      if !IsTransferLegal(card, column) then IllegalMove
      else
        var placed := state.(tableau := state.tableau[deck := column.(cards := column.cards + [card])]);
        Ok(RemoveFromVisiblePile(placed, seen))
  }

  /** The effect shared by every promotion of the waste top to slot `pos`. */
  function PromoteWasteTop(state: GameState, pos: nat, seen: Card): (next: GameState)
    requires pos < 4 && state.wastePileTop.Some?
    ensures next.foundation[pos] == state.wastePileTop
    ensures forall p :: 0 <= p < 4 && p != pos ==> next.foundation[p] == state.foundation[p]
    ensures next.tableau == state.tableau && next.stockPileSize == state.stockPileSize
    ensures next.remainingPileSize == Dec32(state.remainingPileSize)
    ensures next.wastePileTop.None? <==> next.remainingPileSize == state.stockPileSize
    ensures next.wastePileTop.Some? ==> next.wastePileTop.value == seen
  {
    RemoveFromVisiblePile(state.(foundation := state.foundation[pos := state.wastePileTop]), seen)
  }

  /** Promote the top waste card to foundation slot `pos`, under the rule as the
      source writes it. */
  function ToFoundation(state: GameState, pos: nat, seen: Card): (r: Result<GameState>)
    requires pos < 4
    ensures r.IllegalMove? <==>
              state.wastePileTop.None?
              || !IsPromoteToFoundationLegal(state.foundation[pos], state.wastePileTop.value)
    ensures r.Ok? ==> r.value == PromoteWasteTop(state, pos, seen)
  {
    if state.wastePileTop.None? then IllegalMove
    else if !IsPromoteToFoundationLegal(state.foundation[pos], state.wastePileTop.value) then IllegalMove
    else Ok(PromoteWasteTop(state, pos, seen))
  }

  /** The same move under the foundation rule as it was meant. */
  function ToFoundationIntended(state: GameState, pos: nat, seen: Card): (r: Result<GameState>)
    requires pos < 4
    ensures r.IllegalMove? <==>
              state.wastePileTop.None?
              || !IsPromoteToFoundationLegalIntended(state.foundation[pos], state.wastePileTop.value)
    ensures r.Ok? ==> r.value == PromoteWasteTop(state, pos, seen)
  {
    if state.wastePileTop.None? then IllegalMove
    else if !IsPromoteToFoundationLegalIntended(state.foundation[pos], state.wastePileTop.value) then IllegalMove
    else Ok(PromoteWasteTop(state, pos, seen))
  }

  /** The column dealt at index `i`: `i` cards face down under one face-up card,
      recognised at the top of that column. */
  function DealtColumn(recognize: TableauPosition -> Card, i: nat): TableauDeck
  {
    TableauDeck(i, [recognize(TableauPosition(i, i, 0))])
  }

  function InitialState(recognize: TableauPosition -> Card): GameState
  {
    GameState(seq(7, i requires 0 <= i => DealtColumn(recognize, i)),
              [None, None, None, None], 24, 24, None)
  }

  // ---------------------------------------------------------------------------
  // The executor

  /** Deal: fill a scratch tableau column by column, clear the foundations, copy
      the tableau across and set both pile counters to the 24 undealt cards. */
  method LoadInitialGameState(recognize: TableauPosition -> Card) returns (ret: GameState)
    ensures ret == InitialState(recognize)
    ensures forall i :: 0 <= i < 7 ==>
              ret.tableau[i].numDownCards == i && ret.tableau[i].cards == [recognize(TableauPosition(i, i, 0))]
    ensures forall p :: 0 <= p < 4 ==> ret.foundation[p].None?
    ensures ret.wastePileTop.None? && ret.stockPileSize == 24 && ret.remainingPileSize == 24
  {
    var tableau := new TableauDeck[7];
    var stockPileSize: U32 := 24;
    for i := 0 to 7
      modifies tableau
      invariant forall k :: 0 <= k < i ==> tableau[k] == DealtColumn(recognize, k)
    {
      var pos := TableauPosition(i, i, 0);
      tableau[i] := TableauDeck(i, [recognize(pos)]);
    }
    var none: Option<Card> := None;

    var foundation := new Option<Card>[4];
    for i := 0 to 4
      modifies foundation
      invariant forall k :: 0 <= k < i ==> foundation[k] == none
    {
      foundation[i] := none;
    }
    var retTableau := new TableauDeck[7];
    for i := 0 to 7
      modifies retTableau
      invariant forall k :: 0 <= k < i ==> retTableau[k] == tableau[k]
    {
      retTableau[i] := tableau[i];
    }
    assert retTableau[..] == InitialState(recognize).tableau;
    assert foundation[..] == [none, none, none, none];
    ret := GameState(retTableau[..], foundation[..], stockPileSize, stockPileSize, none);
  }

  /** The waste bookkeeping, updating a copy of the state in place. */
  method RemoveCardFromVisiblePile(state: GameState, seen: Card) returns (next: GameState)
    ensures next == RemoveFromVisiblePile(state, seen)
  {
    next := state;
    next := next.(remainingPileSize := Dec32(next.remainingPileSize));
    if next.remainingPileSize == next.stockPileSize {
      next := next.(wastePileTop := None);
    } else {
      next := next.(wastePileTop := Some(seen));
    }
  }

  method DrawFromStockPile(state: GameState, g: Geometry, seen: Card)
    returns (r: Result<GameState>, action: Option<Action>)
    ensures r == Draw(state, seen)
    ensures action == if r.Ok? then Some(Click(CardCentre(g, g.drawPile))) else None
  {
    var nextState := state;
    if state.stockPileSize == 0 {
      return IllegalMove, None;
    }
    action := Some(Click(CardCentre(g, g.drawPile)));
    nextState := nextState.(stockPileSize := nextState.stockPileSize - 1);
    nextState := nextState.(wastePileTop := Some(seen));
    r := Ok(nextState);
  }

  method ResetStockPile(state: GameState, g: Geometry)
    returns (r: Result<GameState>, action: Option<Action>)
    ensures r == Reset(state)
    ensures action == if r.Ok? then Some(Click(CardCentre(g, g.drawPile))) else None
  {
    var nextState := state;
    if state.stockPileSize != 0 {
      return IllegalMove, None;
    }
    action := Some(Click(CardCentre(g, g.drawPile)));
    nextState := nextState.(stockPileSize := state.remainingPileSize);
    nextState := nextState.(wastePileTop := None);
    r := Ok(nextState);
  }

  method MoveFromVisiblePileToTableau(state: GameState, g: Geometry, deck: nat, seen: Card)
    returns (r: Result<GameState>, action: Option<Action>)
    requires deck < 7
    ensures r == ToTableau(state, deck, seen)
    ensures action == if r.Ok? then Some(Drag(CardCentre(g, g.visiblePile),
                                              TableauDropTarget(g, deck, state.tableau[deck])))
                      else None
  {
    if state.wastePileTop.None? {
      return IllegalMove, None;
    }
    var wastePileTop := state.wastePileTop.value;
    var tableauDeck := state.tableau[deck];
    if !IsTransferLegal(wastePileTop, tableauDeck) {
      return IllegalMove, None;
    }
    action := Some(Drag(CardCentre(g, g.visiblePile), TableauDropTarget(g, deck, tableauDeck)));

    var nextState := state;
    nextState := nextState.(tableau := nextState.tableau[deck :=
                   nextState.tableau[deck].(cards := nextState.tableau[deck].cards + [wastePileTop])]);
    nextState := RemoveCardFromVisiblePile(nextState, seen);
    r := Ok(nextState);
  }

  method MoveFromVisiblePileToFoundation(state: GameState, g: Geometry, pos: nat, seen: Card)
    returns (r: Result<GameState>, action: Option<Action>)
    requires pos < 4
    ensures r == ToFoundation(state, pos, seen)
    ensures action == if r.Ok? then Some(Drag(CardCentre(g, g.visiblePile),
                                              CardCentre(g, g.foundationDecks[pos])))
                      else None
  {
    if state.wastePileTop.None? {
      return IllegalMove, None;
    }
    var foundation := state.foundation[pos];
    var wastePileTop := state.wastePileTop.value;
    if !IsPromoteToFoundationLegal(foundation, wastePileTop) {
      return IllegalMove, None;
    }
    action := Some(Drag(CardCentre(g, g.visiblePile), CardCentre(g, g.foundationDecks[pos])));

    var nextState := state;
    nextState := nextState.(foundation := nextState.foundation[pos := Some(wastePileTop)]);
    nextState := RemoveCardFromVisiblePile(nextState, seen);
    r := Ok(nextState);
  }
}
