/** The JSON messages exchanged between the browser client and the match
    service. A field the sender leaves out, or sets to null, is `None`. */
module Wire {
  import opened Common

  /** An 8x8 grid of piece letters, upper case for white, "" (or null) for empty. */
  type Grid = seq<seq<string>>

  /** A move as the client publishes it to /app/game/{id}/move and as the
      server's MoveRequest reads it. */
  datatype MoveRequest = MoveRequest(
    fromRow: Option<int>, fromCol: Option<int>, toRow: Option<int>, toCol: Option<int>,
    piece: Option<string>, promotedTo: Option<string>, capturedPiece: Option<string>,
    castled: Option<bool>, isEnPassant: Option<bool>, isPromotion: Option<bool>,
    fenBefore: Option<string>, fenAfter: Option<string>, board: Option<Grid>,
    moveNotation: Option<string>, status: Option<string>, playerColor: Option<string>,
    matchId: Option<int>)

  /** A move as the server broadcasts it on /topic/moves/{id}. */
  datatype MoveDto = MoveDto(
    fromRow: Option<int>, fromCol: Option<int>, toRow: Option<int>, toCol: Option<int>,
    piece: Option<string>, promotedTo: Option<string>, capturedPiece: Option<string>,
    castled: bool, isEnPassant: bool, isPromotion: bool,
    fenBefore: Option<string>, fenAfter: Option<string>, board: Option<Grid>,
    isWhiteTurn: bool, playerColor: Option<string>, matchId: int,
    moveNotation: string, playerUsername: Option<string>)

  /** Messages on the game-state topic and the private draw-offer queue. */
  datatype GameStateMessage =
    | Resignation(player: string)
    | DrawOffer(from: string, offerMatchId: int)
    | DrawAccepted(player: string)
    | DrawDeclined(player: string)
    | OtherMessage(kind: string)
}
