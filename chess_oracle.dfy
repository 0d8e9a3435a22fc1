/** The chess rules engine the client relies on (the chess.js library), seen
    only through its interface. No chess rule is implemented here: a `Rules`
    value bundles total functions that stand for whatever the library answers,
    and every statement proved in this project holds for every such bundle.
    A position is identified by its FEN text, because the client rebuilds the
    library's board from the FEN before trying each move. */
module ChessOracle {
  import opened Common

  datatype Color = White | Black

  function Opposite(c: Color): (r: Color)
    ensures r != c
  {
    if c == White then Black else White
  }

  /** A move as the client hands it to the library: from-square, to-square and
      the promotion letter the library should use if the move promotes. */
  datatype MoveInput = MoveInput(from: string, to: string, promotion: string)

  /** The verbose move record the library returns for an accepted move; `after`
      is the FEN of the resulting position, `flags` the library's move flags
      ('p' marks a promotion), empty strings stand for absent fields. */
  datatype MoveRecord = MoveRecord(
    color: Color, from: string, to: string, piece: string, captured: string,
    promotion: string, flags: string, san: string, after: string)

  /** The library's answers for a position given by its FEN. `move` is `None`
      when the library rejects the move (chess.js throws, the client catches). */
  datatype Rules = Rules(
    move: (string, MoveInput) -> Option<MoveRecord>,
    turn: string -> Color,
    isGameOver: string -> bool,
    isCheckmate: string -> bool,
    isDraw: string -> bool,
    isStalemate: string -> bool,
    inCheck: string -> bool,
    movesFrom: (string, string) -> seq<MoveRecord>,
    grid: string -> seq<seq<string>>,
    loads: string -> bool)

  /** The library hands the move to the other side after every accepted move,
      and records the colour that moved. Only lemmas about turn alternation
      assume this of the library. */
  ghost predicate Alternates(rules: Rules)
  {
    forall fen: string, mv: MoveInput ::
      rules.move(fen, mv).Some? ==>
        rules.move(fen, mv).value.color == rules.turn(fen) &&
        rules.turn(rules.move(fen, mv).value.after) == Opposite(rules.turn(fen))
  }

  /** FEN of the standard starting position. */
  const StartFen: string := "rnbqkbnr/pppppppp/8/8/8/8/PPPPPPPP/RNBQKBNR w KQkq - 0 1"
}
