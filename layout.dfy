/** Screen geometry of the executor's clicks and drags. The anchors and sizes
    are layout constants of the game window and enter as parameters. */
module Layout {
  import opened Cards
  import opened Game

  /** Top-left corner of a pile in the game window. */
  datatype Anchor = Anchor(x: nat, y: nat)

  type FoundationAnchors = s: seq<Anchor> | |s| == 4
    witness [Anchor(0, 0), Anchor(0, 0), Anchor(0, 0), Anchor(0, 0)]

  datatype Geometry = Geometry(
    drawPile: Anchor,
    visiblePile: Anchor,
    tableau: Anchor,
    foundationDecks: FoundationAnchors,
    cardWidth: nat,
    cardHeight: nat,
    tableauSideOffset: nat,
    tableauUnseenOffset: nat,
    tableauSeenOffset: nat)

  /** A screen coordinate, an unsigned 32-bit pair. */
  datatype Point = Point(x: U32, y: U32)

  /** What the executor does with the mouse. */
  datatype Action = Click(at: Point) | Drag(from: Point, to: Point)

  /** The middle of a card whose top-left corner is `corner`. */
  function CardCentre(g: Geometry, corner: Anchor): Point
  {
    Point(Wrap32(corner.x + g.cardWidth / 2), Wrap32(corner.y + g.cardHeight / 2))
  }

  /** Where a card is dropped onto `column`, the `deck`-th column: one column
      width per column index across, and down past the face-down cards and all
      face-up cards but the top one. */
  function TableauDropTarget(g: Geometry, deck: nat, column: TableauDeck): Point
  {
    var seen := if |column.cards| > 0 then |column.cards| - 1 else 0;
    Point(
      Wrap32(g.tableau.x + deck * g.tableauSideOffset + g.cardWidth / 2),
      Wrap32(g.tableau.y + column.numDownCards * g.tableauUnseenOffset
             + seen * g.tableauSeenOffset + g.cardHeight / 2))
  }

  lemma WrapAdd(a: int, b: int)
    ensures Wrap32(Wrap32(a) + b) == Wrap32(a + b)
  {
  }

  /** The next column's drop target lies exactly one column offset further right,
      at the same height. */
  lemma DropTargetStepsRight(g: Geometry, deck: nat, column: TableauDeck)
    ensures TableauDropTarget(g, deck + 1, column).x
            == Wrap32(TableauDropTarget(g, deck, column).x + g.tableauSideOffset)
    ensures TableauDropTarget(g, deck + 1, column).y == TableauDropTarget(g, deck, column).y
  {
  }

  /** Once a card is laid on a column, the column's drop target follows it: one
      face-up offset lower if the run was not empty, unchanged if it was. */
  lemma DropTargetFollowsTop(g: Geometry, deck: nat, column: TableauDeck, card: Card)
    ensures TableauDropTarget(g, deck, column.(cards := column.cards + [card])).x
            == TableauDropTarget(g, deck, column).x
    ensures TableauDropTarget(g, deck, column.(cards := column.cards + [card])).y
            == if column.cards == [] then TableauDropTarget(g, deck, column).y
               else Wrap32(TableauDropTarget(g, deck, column).y + g.tableauSeenOffset)
  {
    if column.cards != [] {
      var n := |column.cards|;
      var base := g.tableau.y + column.numDownCards * g.tableauUnseenOffset + g.cardHeight / 2;
      assert n * g.tableauSeenOffset == (n - 1) * g.tableauSeenOffset + g.tableauSeenOffset;
      WrapAdd(base + (n - 1) * g.tableauSeenOffset, g.tableauSeenOffset);
    }
  }
}
