/** Playing cards as the game engine sees them: a suit index and a rank. */
module Cards {

  /** Lowest and highest rank. The enumeration that defines them (game.hpp) is
      not part of this model; the usual face values are assumed. */
  const ACE: int := 1
  const KING: int := 13

  /** The four suits are numbered 0..3; the engine only ever looks at their parity. */
  type Suite = s: int | 0 <= s < 4

  type Rank = n: int | ACE <= n <= KING witness ACE

  datatype Card = Card(suite: Suite, number: Rank)

  /** The two colours of a pack. Suits of one colour share the parity of their index. */
  datatype Colour = Red | Black

  function ColourOf(s: Suite): Colour
  {
    if s == 0 || s == 2 then Red else Black
  }

  /** Klondike's tableau rule: `upper` may lie on `lower` when it is one rank
      lower and of the other colour. */
  predicate Stacks(lower: Card, upper: Card)
  {
    lower.number == upper.number + 1 && ColourOf(lower.suite) != ColourOf(upper.suite)
  }
}
