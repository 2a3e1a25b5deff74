/** The parts of a chess piece that the modelled logic reads. A piece is a value with
    a unique `id`; two values stand for the same Unity object exactly when they are equal. */
module Pieces {
  import opened ExplosionSequences

  datatype ChessPiece = ChessPiece(
    id: nat,
    isPlayer: bool,                              // ChessPiece.IsPlayerPiece()
    x: int,                                      // transform.position.x, as an ordering key
    explosionPattern: seq<ExplosionSequence>)    // ChessPiece.ExplosionPattern
}
