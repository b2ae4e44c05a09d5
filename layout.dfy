/**
 * The row of pieces a barrier is made of: `count` pieces, all default except
 * the one at the keyhole index, which is the keyhole for the required shape.
 */
module Layout {
  import opened Shapes

  /** The draws `Random.Range(1, count - 2)` can produce: the interior slots, never the first or the last two. */
  predicate KeyholeDraw(count: int, k: int)
  {
    1 <= k < count - 2
  }

  /** The kind of piece `i` of a barrier with its keyhole at `k`. */
  function PieceAt(k: int, required: Shape, i: int): PieceKind
  {
    if i == k then KeyholeKind(required) else DefaultPiece
  }

  /** The piece kinds, in order, of a barrier with `count` pieces and its keyhole at `k`. */
  function Row(count: nat, k: int, required: Shape): (r: seq<PieceKind>)
    ensures |r| == count
    ensures forall i :: 0 <= i < count ==> r[i] == PieceAt(k, required, i)
  {
    seq(count, i => PieceAt(k, required, i))
  }

  /** The number of keyhole pieces in a row. */
  function KeyholeCount(r: seq<PieceKind>): nat
  {
    if r == [] then 0
    else KeyholeCount(r[..|r| - 1]) + (if r[|r| - 1].Keyhole? then 1 else 0)
  }

  /** Only the piece at the keyhole index can be a keyhole, and it is the one for the required shape. */
  lemma RowPieces(count: nat, k: int, required: Shape, i: int)
    requires 0 <= i < count
    ensures Row(count, k, required)[i].Keyhole? ==> i == k
    ensures i == k ==> Row(count, k, required)[i] == KeyholeKind(required)
    ensures i != k ==> Row(count, k, required)[i] == DefaultPiece
  {
  }

  /** The keyholes among the first `j` pieces of a row. */
  lemma {:induction false} RowPrefixKeyholes(count: nat, k: int, required: Shape, j: nat)
    requires j <= count
    ensures KeyholeCount(Row(count, k, required)[..j])
            == if 0 <= k < j && required != UNINITIALIZED then 1 else 0
  {
    var r := Row(count, k, required);
    if j > 0 {
      RowPrefixKeyholes(count, k, required, j - 1);
      assert r[..j][..j - 1] == r[..j - 1];
    }
  }

  /**
   * A barrier whose keyhole index lies in the row has exactly one keyhole,
   * unless its required shape is UNINITIALIZED, in which case it has none.
   */
  lemma ExactlyOneKeyhole(count: nat, k: int, required: Shape)
    requires 0 <= k < count
    ensures KeyholeCount(Row(count, k, required)) == if required == UNINITIALIZED then 0 else 1
  {
    RowPrefixKeyholes(count, k, required, count);
    assert Row(count, k, required)[..count] == Row(count, k, required);
  }

  /** A drawn keyhole index always lies inside the row, away from its edges. */
  lemma DrawInsideRow(count: int, k: int)
    requires KeyholeDraw(count, k)
    ensures 0 < k < count && k != count - 2 && k != count - 1
  {
  }
}
