/**
 * Shapes of players and keyholes, and the kinds of barrier pieces.
 * One enumeration for both revisions of the game: the later revision adds
 * UNINITIALIZED, the value a barrier carries before it is built.
 */
module Shapes {

  datatype Shape = UNINITIALIZED | CIRCLE | TRIANGLE | SQUARE

  /** A barrier piece is either a solid blocker or a keyhole shaped for one player shape. */
  datatype PieceKind = DefaultPiece | Keyhole(shape: Shape)

  /** The numeric value of a shape in the enumeration `{CIRCLE = 0, TRIANGLE = 1, SQUARE = 2}`. */
  function Code(s: Shape): int
  {
    match s
    case CIRCLE => 0
    case TRIANGLE => 1
    case SQUARE => 2
    case UNINITIALIZED => -1
  }

  /**
   * The cast `(Shape) code`. A code outside the enumeration gives a value that
   * no case of a switch matches; UNINITIALIZED stands for it here.
   */
  function ShapeOf(code: int): (s: Shape)
    ensures s != UNINITIALIZED <==> 0 <= code < 3
    ensures s != UNINITIALIZED ==> Code(s) == code
  {
    if code == 0 then CIRCLE
    else if code == 1 then TRIANGLE
    else if code == 2 then SQUARE
    else UNINITIALIZED
  }

  /**
   * The piece the keyhole switch instantiates for a required shape: the
   * matching keyhole, or a default piece when no case matches.
   */
  function KeyholeKind(s: Shape): (k: PieceKind)
    ensures k == DefaultPiece <==> s == UNINITIALIZED
    ensures k.Keyhole? ==> k.shape == s
  {
    match s
    case CIRCLE => Keyhole(CIRCLE)
    case SQUARE => Keyhole(SQUARE)
    case TRIANGLE => Keyhole(TRIANGLE)
    case UNINITIALIZED => DefaultPiece
  }

  /**
   * The shape of the player prefab instantiated for a required shape: the
   * switch falls back to the circle prefab when no case matches.
   */
  function PrefabShape(s: Shape): (p: Shape)
    ensures p != UNINITIALIZED
    ensures s != UNINITIALIZED ==> p == s
  {
    if s == UNINITIALIZED then CIRCLE else s
  }
}
