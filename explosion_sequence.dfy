/** Model of Assets/Scripts/ExplosionSequence.cs: the authored attack-pattern data.
    A sequence is a list of small integer codes: 1..NumEdgesInTile name the edge of
    the current tile to cross next, and a code above NumEdgesInTile crosses edge
    (code - NumEdgesInTile) but marks the tile reached as skipped for damage. */
module ExplosionSequences {

  /** Board.NumEdgesInTile: tiles are squares. */
  const NumEdgesInTile: int := 4

  datatype ExplosionSequence = ExplosionSequence(sequence: seq<int>, isRepeating: bool)

  /** A code naming one of the tile's edges. */
  predicate IsEdge(code: int) {
    1 <= code <= NumEdgesInTile
  }

  /** A code asking to skip the tile it reaches. */
  predicate IsSkip(code: int) {
    code > NumEdgesInTile
  }

  /** The edge a code actually crosses: a skip code crosses the edge it is offset from. */
  function EdgeCrossed(code: int): int {
    if IsSkip(code) then code - NumEdgesInTile else code
  }

  /** For square tiles the skip codes are exactly 5..8, and code 4 + e skips in the
      direction of edge e. */
  lemma SquareSkipCodes(code: int)
    ensures IsSkip(code) && IsEdge(EdgeCrossed(code)) <==> 5 <= code <= 8
    ensures IsEdge(code) ==> IsSkip(code + NumEdgesInTile) && EdgeCrossed(code + NumEdgesInTile) == code
    ensures IsEdge(code) ==> !IsSkip(code)
  {
  }
}
