/** Square names and the row/column form used on the wire. Row 0 is rank 8 and
    column 0 is file 'a'. The board component names squares this way
    (getSquareName), the game container decodes received moves the same way,
    and it encodes its own moves in the opposite direction before publishing. */
module Squares {
  import opened Common

  /** A square in the wire form of a move message. */
  datatype WireSquare = WireSquare(row: int, col: int)

  predicate OnBoard(row: int, col: int) { 0 <= row < 8 && 0 <= col < 8 }

  /** An algebraic square name: a file letter a-h followed by a rank digit 1-8. */
  predicate IsSquare(s: string)
  {
    |s| == 2 && 'a' <= s[0] <= 'h' && '1' <= s[1] <= '8'
  }

  /** `String.fromCharCode('a'.charCodeAt(0) + col)`. */
  function FileChar(col: int): (c: char)
    ensures 0 <= col < 8 ==> 'a' <= c <= 'h' && c as int - 97 == col
  {
    CodeUnitChar(97 + col)
  }

  /** The square name of a board cell: file 'a' + col, then rank 8 - row. */
  function SquareName(row: int, col: int): (s: string)
    ensures OnBoard(row, col) ==> IsSquare(s)
  {
    [FileChar(col)] + IntToString(8 - row)
  }

  /** The row/column the client publishes for a square name: `8 - parseInt(sq[1])`
      and `sq.charCodeAt(0) - 97`. A second character that is not a digit makes
      the row NaN in the source; that is `None` here. */
  function EncodeSquare(sq: string): (w: Option<WireSquare>)
    ensures w.Some? <==> |sq| >= 2 && IsDigit(sq[1])
  {
    if |sq| >= 2 && IsDigit(sq[1]) then Some(WireSquare(8 - DigitValue(sq[1]), sq[0] as int - 97))
    else None
  }

  /** Encoding the name of an on-board cell gives back its row and column. */
  lemma EncodeSquareName(row: int, col: int)
    requires OnBoard(row, col)
    ensures EncodeSquare(SquareName(row, col)) == Some(WireSquare(row, col))
  {
    SmallIntToString(8 - row);
  }

  /** Decoding the encoding of a square name gives back the name, and the
      encoding lies on the board. */
  lemma SquareNameOfEncoding(sq: string)
    requires IsSquare(sq)
    ensures EncodeSquare(sq).Some?
    ensures OnBoard(EncodeSquare(sq).value.row, EncodeSquare(sq).value.col)
    ensures SquareName(EncodeSquare(sq).value.row, EncodeSquare(sq).value.col) == sq
  {
    var w := EncodeSquare(sq).value;
    SmallIntToString(8 - w.row);
    assert [FileChar(w.col)] + IntToString(8 - w.row) == [sq[0]] + [sq[1]];
  }

  /** Distinct on-board cells have distinct names. */
  lemma SquareNameInjective(r1: int, c1: int, r2: int, c2: int)
    requires OnBoard(r1, c1) && OnBoard(r2, c2)
    requires SquareName(r1, c1) == SquareName(r2, c2)
    ensures r1 == r2 && c1 == c2
  {
    EncodeSquareName(r1, c1);
    EncodeSquareName(r2, c2);
  }
}
