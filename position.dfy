/** The immutable 1-based board coordinate of the Player revision
    (src/models/Position.model.ts). */
module PositionModel {

  /** A value type: two positions with the same coordinates are the same position. */
  datatype Position = Position(i: int, j: int)

  /** `isInBoard(size)`: both coordinates lie in 1..size; on a board of size
      below 1 no position is in the board. */
  predicate IsInBoard(p: Position, size: int): (r: bool)
    ensures size < 1 ==> !r
  {
    p.i >= 1 && p.i <= size && p.j >= 1 && p.j <= size
  }

  /** `equal(other)`: coordinate-wise comparison, which for a value type is
      structural equality. */
  predicate Equal(p: Position, other: Position): (r: bool)
    ensures r <==> p == other
  {
    p.i == other.i && p.j == other.j
  }

  /** A position in a board stays in every larger board. */
  lemma InBoardMonotone(p: Position, size: int, larger: int)
    requires IsInBoard(p, size) && size <= larger
    ensures IsInBoard(p, larger)
  {
  }

  /** `equal` is an equivalence relation. */
  lemma EqualIsEquivalence(p: Position, q: Position, r: Position)
    ensures Equal(p, p)
    ensures Equal(p, q) ==> Equal(q, p)
    ensures Equal(p, q) && Equal(q, r) ==> Equal(p, r)
  {
  }
}
