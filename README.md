# Klondike game-state engine of the solitaire bot

This project models the rule engine of a bot that plays Klondike solitaire
through the mouse (test/interact.cpp). The bot keeps its own picture of the
game as a value. That value holds seven tableau columns, each a count of
face-down cards under a run of face-up cards. It holds four foundation slots,
each empty or showing its top card. It also holds the stock/waste circuit:
`stockPileSize` cards still face down in the stock, `remainingPileSize` cards
in the whole circuit, and the face-up card on top of the waste pile, if any.

The bot has four moves: draw from the stock, turn the waste back into the
stock, lay the waste top on a column, and promote the waste top to a
foundation slot. Each move checks its legality rule first. An illegal move
fails before anything is clicked or dragged, and the caller keeps its state.
A legal move returns an updated copy of the state.

Files, one module each:

- `results.dfy`: `Option` and `Result` (`Ok` or `IllegalMove`, the source's `IllegalMoveException`).
- `cards.dfy`: cards, `ACE`/`KING`, suit colours, and the tableau stacking rule `Stacks`.
- `game.dfy`: the game state, unsigned 32-bit counters, the invariant `Consistent`, and card counting.
- `legality.dfy`: `is_transfer_legal`, `is_promote_to_foundation_legal` as written, and the foundation rule as it was meant.
- `layout.dfy`: the pixel coordinates of clicks and drags, with the window layout as a `Geometry` parameter.
- `interact.dfy`: the transitions as functions, and the executor as methods.
  - Each method copies the state, updates it field by field as the source does, and returns the mouse action it performs.
  - `LoadInitialGameState` fills the tableau and foundations with the source's loops.
- `properties.dfy`: a driver loop (`Run`) over any sequence of moves, with the lemmas proved over it.
  - Every reachable state keeps the stock/waste invariant and alternating columns.
  - All 52 cards stay accounted for.
  - A full pass through the stock, then a reset, restores the state exactly.

Recognition results enter as parameters. `seen` is the card the recogniser
reports on the waste after a move. `recognize` maps a tableau position to the
card shown there. The window layout constants enter as `Geometry`.

## Model

| member | source | states |
|---|---|---|
| `Legality.IsTransferLegal` | test/interact.cpp:122-137 | On a column with no hidden and no face-up cards, legal exactly for a King. On a column with hidden cards but no face-up run, never legal. Otherwise legal exactly when the column's top card is one rank higher and of the other colour (`Stacks`). |
| `Legality.IsPromoteToFoundationLegal` | test/interact.cpp:139-149 | Rule as written: an empty slot takes exactly an Ace. An occupied slot takes a card exactly when the suits match and the card's rank is its own suit index plus one. |
| `Legality.IsPromoteToFoundationLegalIntended` | test/interact.cpp:139-149 | Rule as meant: an empty slot takes exactly an Ace. An occupied slot takes exactly the next rank of its own suit, and nothing once it shows a King. |
| `Legality.AsWrittenRuleMisjudges` | test/interact.cpp:145-147 | The rule as written refuses the Two of suit 0 on its Ace, which the intended rule accepts. It accepts the Two of suit 1 on the Nine of suit 1, which the intended rule refuses. |
| `Legality.AsWrittenSlotsStopAtFour` | test/interact.cpp:145-147 | Under the rule as written, an occupied slot never accepts a card above rank 4, so no foundation can be completed. |
| `Game.Dec32` | test/interact.cpp:38 | The unsigned decrement of the circuit count: n - 1 for positive n, and 0 wraps to 2^32 - 1. |
| `Layout.DropTargetStepsRight` | test/interact.cpp:172-175 | The drop point of the next column is one column offset further right (modulo 2^32) at the same height. |
| `Layout.DropTargetFollowsTop` | test/interact.cpp:176-180 | After a card is laid on a column, the column's drop point keeps its x. Its y moves down one face-up offset, or stays put if the run was empty, so the point stays on the top card. |
| `Interact.RemoveFromVisiblePile` | test/interact.cpp:36-45 | The circuit count drops by one (unsigned). The waste is empty exactly when the new count equals the stock size; otherwise it shows the newly recognised card. Tableau, foundations and stock are unchanged. |
| `Interact.Draw` | test/interact.cpp:84-101 | Illegal exactly when the stock is empty. Otherwise the stock drops by one and the waste shows the drawn card. Tableau, foundations and circuit count are unchanged. |
| `Interact.Reset` | test/interact.cpp:103-120 | Illegal exactly when the stock is not empty. Otherwise the stock size becomes the circuit count and the waste is empty. Everything else is unchanged. |
| `Interact.ToTableau` | test/interact.cpp:151-191 | Illegal exactly when there is no waste card or the transfer rule refuses it. Otherwise the waste card is appended to column `deck`, whose hidden count is kept. Every other column, the foundations and the stock are unchanged, and the waste bookkeeping of lines 36-45 follows. |
| `Interact.PromoteWasteTop` | test/interact.cpp:219-221 | Slot `pos` shows the former waste top, and the other slots, the tableau and the stock are unchanged. The circuit count drops by one, and the waste bookkeeping of lines 36-45 follows. |
| `Interact.ToFoundation` | test/interact.cpp:193-224 | Illegal exactly when there is no waste card or the foundation rule as written refuses it. Otherwise the result is the promotion `PromoteWasteTop`. |
| `Interact.ToFoundationIntended` | test/interact.cpp:193-224 | The same move under the intended foundation rule: illegal exactly when there is no waste card or that rule refuses it, otherwise `PromoteWasteTop`. |
| `Interact.LoadInitialGameState` | test/interact.cpp:57-82 | Column i has i face-down cards under exactly the one card recognised at position (i, i, 0). All four slots and the waste are empty, and the stock and circuit both hold 24 cards. |
| `Interact.RemoveCardFromVisiblePile` | test/interact.cpp:36-45 | The in-place update of a copy yields exactly `RemoveFromVisiblePile`. |
| `Interact.DrawFromStockPile` | test/interact.cpp:84-101 | Yields exactly `Draw`. It clicks the middle of the stock when, and only when, the draw is legal. |
| `Interact.ResetStockPile` | test/interact.cpp:103-120 | Yields exactly `Reset`. It clicks the middle of the stock when, and only when, the reset is legal. |
| `Interact.MoveFromVisiblePileToTableau` | test/interact.cpp:151-191 | Yields exactly `ToTableau`. Only a legal move drags, from the middle of the waste to the column's drop point computed on the state before the move. |
| `Interact.MoveFromVisiblePileToFoundation` | test/interact.cpp:193-224 | Yields exactly `ToFoundation`. Only a legal move drags, from the middle of the waste to the middle of slot `pos`. |
| `Properties.InitialStateConsistent` | test/interact.cpp:74-79 | The deal satisfies the invariant: stock equals circuit with the waste empty, and every column alternates. |
| `Properties.WasteImpliesCircuitNonEmpty` | test/interact.cpp:36-40 | Under the invariant, a waste card means the circuit is not empty, so the decrement at line 38 never wraps. |
| `Properties.DrawKeepsConsistent` | test/interact.cpp:84-101 | A legal draw keeps the invariant. |
| `Properties.ResetKeepsConsistent` | test/interact.cpp:103-120 | A legal reset keeps the invariant. |
| `Properties.AppendKeepsAlternating` | test/interact.cpp:122-137 | Appending a card that the transfer rule accepts keeps an alternating column alternating. |
| `Properties.ToTableauKeepsConsistent` | test/interact.cpp:151-191 | A legal waste-to-tableau move keeps the invariant and lowers the circuit count by exactly one. |
| `Properties.ToFoundationKeepsConsistent` | test/interact.cpp:193-224 | A legal waste-to-foundation move keeps the invariant and lowers the circuit count by exactly one. |
| `Properties.StepKeepsConsistent` | test/interact.cpp:84-224 | One driver step, legal or refused, keeps the invariant. |
| `Properties.RunKeepsConsistent` | test/interact.cpp:84-224 | Any sequence of moves keeps the invariant. |
| `Properties.ReachableStatesConsistent` | test/interact.cpp:57-224 | Every state reached from the deal by any sequence of moves is consistent. |
| `Properties.InitialStateHas52Cards` | test/interact.cpp:57-82 | The deal places 28 cards on the tableau and 24 in the circuit. |
| `Properties.StepAccounting` | test/interact.cpp:84-224 | A step keeps the count of cards in play (tableau plus circuit). The exception is a legal promotion, which lowers it by exactly one. |
| `Properties.RunAccounting` | test/interact.cpp:84-224 | Over any sequence of moves, cards in play plus successful promotions equals the cards in play at the start. |
| `Properties.CardsConserved` | test/interact.cpp:57-224 | From the deal, cards in play plus successful promotions is always 52. |
| `Properties.DrawAllEffect` | test/interact.cpp:84-101 | Drawing k times succeeds exactly when the stock holds at least k. On success the stock drops by k, the waste shows the last card drawn, and nothing else changes. |
| `Properties.StockCycle` | test/interact.cpp:84-120 | From a freshly turned stock, drawing every card and then resetting gives back the starting state exactly. |
| `Properties.DealDrawPromoteScenario` | test/interact.cpp:57-101 | After the deal, column 6 has 6 hidden cards and one face-up card. Drawing a non-Ace leaves 23 in the stock and shows that card. Promoting it to an empty slot is illegal. |
| `Properties.IntendedPromotionAdvancesSlot` | test/interact.cpp:193-224 | Under the intended rule, a promotion puts an Ace on an empty slot, or raises an occupied slot by exactly one rank in its own suit. |

## Left out

- Mouse automation and timing (`click_card`, `drag_mouse`, `interact_init`, the `robot` handle, `usleep`; test/interact.cpp:10-34, 47-50) are calls into the robot library and wall-clock sleeps. The model keeps only the click or drag each method performs, as a returned `Action`. That action is `None` exactly when the move is illegal, because each throw comes before the click or drag.
- Recognition (`recognize_visible_pile_card`, `recognize_tableau_card`): vision.hpp is not part of this model. Their answers are parameters. The `seen` card is ignored when the waste becomes empty, where the source does not ask the recogniser.
- `set_sandbox_mode` and the `sandbox` flag (test/interact.cpp:9, 52-55) are never read by any logic.
- `move_from_tableau_to_foundation` and `move_from_column_to_column` are declared in test/interact.hpp:27-36 but have no definition in the source. They are not modelled.
- game.hpp is not part of this model. `ACE` = 1 and `KING` = 13 are assumed, suits are numbered 0..3, and both pile counters are taken to be unsigned 32-bit.
- Layout constants (`DRAW_PILE`, `VISIBLE_PILE`, `TABLEAU`, `FOUNDATION_DECKS`, `CARD_WIDTH`, `CARD_HEIGHT`, the `TABLEAU_*_OFFSET`s) are `Geometry` parameters, assumed to be non-negative integers. The coordinates are reduced modulo 2^32, as the `uint32_t` pair does.
- test/main.cpp is a mouse-move loop with sleeps: pure I/O.
- `Legality.IsTransferLegal`: the source reads the top of the face-up run even when that run is empty. That is a non-King on an empty column, or any card on a column with hidden cards but no face-up cards, and the read is undefined behaviour. The model answers "illegal" there.
- `Interact.RemoveCardFromVisiblePile`: the source updates the state through a pointer. The pointer always targets the move's own local copy, so the model passes the copy in and returns it updated. No aliasing is lost.
- Column and slot indices are unchecked in the source (lines 161, 202). The model requires `deck < 7` and `pos < 4`.
- Foundation ranks: under the rule as written, a promotion need not raise a slot's rank by one. The model therefore claims no rank progression for the source's rule. It counts cards through the number of successful promotions instead, and proves the progression only for the intended rule.

## Findings

| source | as written | input that shows it | evidently intended | confidence | as-written member | corrected member |
|---|---|---|---|---|---|---|
| test/interact.cpp:147 | `foundation.get().suite == card.number - 1` compares the slot card's suit with the new card's rank minus one | Slot shows the Ace of suit 0 and the waste shows the Two of suit 0: refused. Slot shows the Nine of suit 1 and the waste shows the Two of suit 1: accepted. | `foundation.get().number == card.number - 1`: a slot takes the next rank of its own suit | high; not executed | `Legality.AsWrittenRuleMisjudges` | `Legality.IsPromoteToFoundationLegalIntended` |

The executor's transitions (`Interact.ToFoundation`, and `Properties.Run` built on it) keep the rule as written, because that is what the bot does. The corrected rule drives `Interact.ToFoundationIntended`. For that move, `Properties.IntendedPromotionAdvancesSlot` proves that each slot climbs from the Ace one rank at a time within its suit.
