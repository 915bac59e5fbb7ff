/** The game-state snapshot: seven tableau columns, four foundation slots and
    the stock/waste circuit. */
module Game {
  import opened Results
  import opened Cards

  /** The source keeps the pile counters in unsigned 32-bit integers. */
  type U32 = n: int | 0 <= n < 0x1_0000_0000

  /** Reduction modulo 2^32, as unsigned arithmetic does it. */
  function Wrap32(n: int): U32
  {
    n % 0x1_0000_0000
  }

  /** Unsigned 32-bit decrement: zero wraps round to the largest value. */
  function Dec32(n: U32): (r: U32)
    ensures n > 0 ==> r == n - 1
    ensures n == 0 ==> r == 0xFFFF_FFFF
  {
    Wrap32(n - 1)
  }

  /** A place on the tableau: the column, how many cards lie face down in it, and
      the index within the face-up run. */
  datatype TableauPosition = TableauPosition(deck: nat, numHidden: nat, position: nat)

  /** One tableau column: a number of face-down cards under a run of face-up
      cards whose last element is the top of the column. */
  datatype TableauDeck = TableauDeck(numDownCards: nat, cards: seq<Card>)

  type Tableau = t: seq<TableauDeck> | |t| == 7
    witness [TableauDeck(0, []), TableauDeck(0, []), TableauDeck(0, []), TableauDeck(0, []),
             TableauDeck(0, []), TableauDeck(0, []), TableauDeck(0, [])]

  type Foundations = f: seq<Option<Card>> | |f| == 4 witness [None, None, None, None]

  /** The whole game. `remainingPileSize` counts the cards of the stock/waste
      circuit, `stockPileSize` those of them still face down in the stock, and
      `wastePileTop` is the face-up card on the waste pile, if any. */
  datatype GameState = GameState(
    tableau: Tableau,
    foundation: Foundations,
    stockPileSize: U32,
    remainingPileSize: U32,
    wastePileTop: Option<Card>)

  /** The stock is part of the circuit, and the waste shows a card exactly when
      some card of the circuit is not in the stock. */
  predicate StockWasteConsistent(s: GameState)
  {
    s.stockPileSize <= s.remainingPileSize
    && (s.wastePileTop.None? <==> s.stockPileSize == s.remainingPileSize)
  }

  function Top(d: TableauDeck): Card
    requires |d.cards| > 0
  {
    d.cards[|d.cards| - 1]
  }

  /** Every face-up card lies on one a rank higher and of the other colour. */
  predicate Alternates(cards: seq<Card>)
  {
    forall i :: 0 < i < |cards| ==> Stacks(cards[i - 1], cards[i])
  }

  predicate TableauAlternates(s: GameState)
  {
    forall d :: 0 <= d < 7 ==> Alternates(s.tableau[d].cards)
  }

  /** The invariant every reachable state keeps. */
  predicate Consistent(s: GameState)
  {
    StockWasteConsistent(s) && TableauAlternates(s)
  }

  function ColumnSize(d: TableauDeck): nat
  {
    d.numDownCards + |d.cards|
  }

  /** Number of cards, face down or up, on the first `n` columns of `t`. */
  function SizeUpTo(t: seq<TableauDeck>, n: nat): nat
    requires n <= |t|
  {
    if n == 0 then 0 else SizeUpTo(t, n - 1) + ColumnSize(t[n - 1])
  }

  function TableauSize(t: seq<TableauDeck>): nat
  {
    SizeUpTo(t, |t|)
  }

  /** Cards still in play: on the tableau or in the stock/waste circuit. */
  function CardsInPlay(s: GameState): nat
  {
    TableauSize(s.tableau) + s.remainingPileSize
  }

  /** Replacing one column changes the tableau's card count by the difference
      of the two columns' sizes. */
  lemma {:induction false} SizeUpToUpdate(t: seq<TableauDeck>, k: nat, d: TableauDeck, n: nat)
    requires k < |t| && n <= |t|
    ensures SizeUpTo(t[k := d], n)
            == if k < n then SizeUpTo(t, n) - ColumnSize(t[k]) + ColumnSize(d) else SizeUpTo(t, n)
  {
    if n > 0 {
      SizeUpToUpdate(t, k, d, n - 1);
    }
  }

  lemma TableauSizeUpdate(t: seq<TableauDeck>, k: nat, d: TableauDeck)
    requires k < |t|
    ensures TableauSize(t[k := d]) == TableauSize(t) - ColumnSize(t[k]) + ColumnSize(d)
  {
    SizeUpToUpdate(t, k, d, |t|);
  }
}
