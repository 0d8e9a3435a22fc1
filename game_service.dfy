/** The server's move relay (GameService.java): a table of live games keyed by
    match id, the turn-ownership check that guards each relayed move, the
    board-to-FEN serialiser, the simplified SAN and UCI texts, the ply
    bookkeeping of stored moves, and the resignation and draw transitions. */
module GameService {
  import opened Common
  import opened ChessOracle
  import opened Squares
  import opened Wire
  import opened MatchStore
  import opened OnlineMatchService

  /** One live game: the board as the last mover sent it, whose turn it is,
      the status text, and the two players (player1 plays white). */
  datatype GameState = GameState(
    board: Grid, whiteTurn: bool, status: string, player1: string, player2: string)

  const InitialBoard: Grid := [
    ["r", "n", "b", "q", "k", "b", "n", "r"],
    ["p", "p", "p", "p", "p", "p", "p", "p"],
    ["", "", "", "", "", "", "", ""],
    ["", "", "", "", "", "", "", ""],
    ["", "", "", "", "", "", "", ""],
    ["", "", "", "", "", "", "", ""],
    ["P", "P", "P", "P", "P", "P", "P", "P"],
    ["R", "N", "B", "Q", "K", "B", "N", "R"]
  ]

  /** initializeGameState: the standard board, white to move, in progress. */
  function InitialGameState(m: Match): GameState
  {
    GameState(InitialBoard, true, "IN_PROGRESS", m.player1, m.player2)
  }

  // ------------------------------------------------------------ board to FEN

  /** The board is indexed up to row 7 and column 7 without bounds checks. */
  predicate Fits(board: Grid)
  {
    |board| >= 8 && forall r :: 0 <= r < 8 ==> |board[r]| >= 8
  }

  /** The count of a pending run of empty squares, or nothing for no run. */
  function RunText(empty: nat): (t: string)
    ensures empty == 0 ==> t == ""
    ensures 0 < empty < 10 ==> t == [DigitChar(empty)]
  {
    if empty > 0 then NatToString(empty) else ""
  }

  /** The FEN text of the remaining cells of a rank, with `empty` empty
      squares already counted and not yet written. An empty square is "" (a
      null cell reads the same). */
  function RunFen(cells: seq<string>, empty: nat): string
    decreases |cells|
  {
    if cells == [] then RunText(empty)
    else if cells[0] == "" then RunFen(cells[1..], empty + 1)
    else RunText(empty) + cells[0] + RunFen(cells[1..], 0)
  }

  /** The FEN text of one rank: its first eight cells. */
  function RowFen(row: seq<string>): string
    requires |row| >= 8
  {
    RunFen(row[..8], 0)
  }

  /** The piece-placement field from rank row `k` on, ranks separated by '/'. */
  function PlacementFrom(board: Grid, k: nat): string
    requires Fits(board) && k <= 8
    decreases 8 - k
  {
    if k == 8 then "" else RowFen(board[k]) + (if k < 7 then "/" else "") + PlacementFrom(board, k + 1)
  }

  /** The whole FEN: the placement, the side to move, and fixed castling,
      en-passant and clock fields. */
  function BoardFen(board: Grid, whiteTurn: bool): string
    requires Fits(board)
  {
    PlacementFrom(board, 0) + " " + (if whiteTurn then "w" else "b") + " KQkq - 0 1"
  }

  /** convertBoardToFEN: a rank-by-rank scan with a counter of empty squares.
      A board smaller than 8x8 makes the source fail on an index. */
  method ConvertBoardToFen(board: Grid, whiteTurn: bool) returns (r: Result<string>)
    ensures Fits(board) ==> r == Ok(BoardFen(board, whiteTurn))
    ensures !Fits(board) ==> r.Err?
  {
    if !Fits(board) {
      return Err("ArrayIndexOutOfBoundsException");
    }
    var fen := Placement(board);
    ghost var placement := fen;
    var side := if whiteTurn then "w" else "b";
    fen := fen + " " + side;
    fen := fen + " " + "KQkq";
    fen := fen + " " + "-";
    fen := fen + " " + "0 1";
    FixedFenFields(placement, side);
    r := Ok(fen);
  }

  /** The rank loop of convertBoardToFEN: each rank's text, with a '/' after
      every rank but the last. */
  method Placement(board: Grid) returns (fen: string)
    requires Fits(board)
    ensures fen == PlacementFrom(board, 0)
  {
    fen := "";
    for row := 0 to 8
      invariant fen + PlacementFrom(board, row) == PlacementFrom(board, 0)
    {
      PlacementStep(board, row, fen);
      fen := AppendRank(fen, board[row]);
      if row < 7 {
        fen := fen + "/";
      }
    }
    assert fen == PlacementFrom(board, 0);
  }

  /** One rank of the placement, followed by its separator and the rest. */
  lemma PlacementStep(board: Grid, row: nat, prefix: string)
    requires Fits(board) && row < 8
    ensures prefix + PlacementFrom(board, row) ==
            prefix + RowFen(board[row]) + (if row < 7 then "/" else "") + PlacementFrom(board, row + 1)
  {
  }

  /** Appending the last four fields one by one gives the fixed suffix. */
  lemma FixedFenFields(placement: string, side: string)
    ensures placement + " " + side + " " + "KQkq" + " " + "-" + " " + "0 1" ==
            placement + " " + side + " KQkq - 0 1"
  {
  }

  /** The inner scan of convertBoardToFEN over one rank: empty cells are
      counted, and the count is written before the next piece and at the end. */
  method AppendRank(fen: string, row: seq<string>) returns (out: string)
    requires |row| >= 8
    ensures out == fen + RowFen(row)
  {
    out := fen;
    var emptyCount: nat := 0;
    assert row[0..8] == row[..8];
    for col := 0 to 8
      invariant out + RunFen(row[col..8], emptyCount) == fen + RowFen(row)
    {
      var piece := row[col];
      assert row[col..8] == [piece] + row[col + 1..8];
      if piece == "" {
        emptyCount := emptyCount + 1;
      } else {
        if emptyCount > 0 {
          out := out + NatToString(emptyCount);
          emptyCount := 0;
        }
        out := out + piece;
      }
    }
    assert row[8..8] == [];
    if emptyCount > 0 {
      out := out + NatToString(emptyCount);
    }
  }

  /** A cell the FEN reader can take back: empty, or one character that is
      not a digit, a rank separator or a field separator. */
  predicate IsPieceCell(c: string)
  {
    c == "" || (|c| == 1 && !IsDigit(c[0]) && c[0] != '/' && c[0] != ' ')
  }

  predicate PieceCells(board: Grid)
  {
    Fits(board) && forall r, c :: 0 <= r < 8 && 0 <= c < 8 ==> IsPieceCell(board[r][c])
  }

  function Empties(n: nat): (e: seq<string>)
    ensures |e| == n && forall i :: 0 <= i < n ==> e[i] == ""
  {
    seq(n, _ => "")
  }

  /** Reads a rank text back into cells: a digit stands for that many empty
      squares, any other character for the piece it names. */
  function ExpandRow(s: string): seq<string>
    decreases |s|
  {
    if s == [] then []
    else (if IsDigit(s[0]) then Empties(DigitValue(s[0])) else [[s[0]]]) + ExpandRow(s[1..])
  }

  lemma {:induction false} ExpandConcat(a: string, b: string)
    ensures ExpandRow(a + b) == ExpandRow(a) + ExpandRow(b)
    decreases |a|
  {
    if a == [] {
      assert a + b == b;
    } else {
      assert (a + b)[0] == a[0];
      assert (a + b)[1..] == a[1..] + b;
      ExpandConcat(a[1..], b);
    }
  }

  lemma RunTextExpands(e: nat)
    requires e < 10
    ensures ExpandRow(RunText(e)) == Empties(e)
    ensures ' ' !in RunText(e) && '/' !in RunText(e)
  {
    if e > 0 {
      assert ExpandRow([DigitChar(e)]) == Empties(e) + ExpandRow([]);
    }
  }

  /** Reading a serialised run back gives the pending empty squares followed
      by the cells, and the text holds no separator. */
  lemma {:induction false} RunFenExpands(cells: seq<string>, e: nat)
    requires forall i :: 0 <= i < |cells| ==> IsPieceCell(cells[i])
    requires e + |cells| <= 9
    ensures ExpandRow(RunFen(cells, e)) == Empties(e) + cells
    ensures ' ' !in RunFen(cells, e) && '/' !in RunFen(cells, e)
    decreases |cells|
  {
    if cells == [] {
      RunTextExpands(e);
    } else if cells[0] == "" {
      RunFenExpands(cells[1..], e + 1);
      assert Empties(e + 1) + cells[1..] == Empties(e) + cells;
    } else {
      var c := cells[0];
      RunTextExpands(e);
      RunFenExpands(cells[1..], 0);
      PieceStepExpands(e, c, RunFen(cells[1..], 0));
      assert Empties(e) + [c] + cells[1..] == Empties(e) + cells;
    }
  }

  /** A run count, then one piece, then more text reads back as the empty
      squares, the piece and the rest. */
  lemma PieceStepExpands(e: nat, c: string, rest: string)
    requires e < 10 && |c| == 1 && !IsDigit(c[0])
    ensures ExpandRow(RunText(e) + c + rest) == Empties(e) + [c] + ExpandRow(rest)
  {
    RunTextExpands(e);
    ExpandConcat(RunText(e) + c, rest);
    ExpandConcat(RunText(e), c);
    assert c == [c[0]];
    assert ExpandRow(c) == [c] + ExpandRow([]);
  }

  /** A rank's text reads back as its first eight cells. */
  lemma RowFenRoundTrip(row: seq<string>)
    requires |row| >= 8 && forall c :: 0 <= c < 8 ==> IsPieceCell(row[c])
    ensures ExpandRow(RowFen(row)) == row[..8]
    ensures ' ' !in RowFen(row) && '/' !in RowFen(row)
  {
    RunFenExpands(row[..8], 0);
    assert Empties(0) + row[..8] == row[..8];
  }

  /** `split("/")`: the pieces of a text between rank separators. */
  function SplitSlash(s: string): (parts: seq<string>)
    ensures |parts| >= 1
    decreases |s|
  {
    if s == [] then [""]
    else
      var rest := SplitSlash(s[1..]);
      if s[0] == '/' then [""] + rest else [[s[0]] + rest[0]] + rest[1..]
  }

  lemma {:induction false} SplitNoSlash(a: string)
    requires '/' !in a
    ensures SplitSlash(a) == [a]
    decreases |a|
  {
    if a != [] {
      SplitNoSlash(a[1..]);
      assert [a[0]] + a[1..] == a;
    }
  }

  lemma {:induction false} SplitAtSlash(a: string, b: string)
    requires '/' !in a
    ensures SplitSlash(a + "/" + b) == [a] + SplitSlash(b)
    decreases |a|
  {
    var s := a + "/" + b;
    if a == [] {
      assert s[0] == '/' && s[1..] == b;
    } else {
      assert s[0] == a[0];
      assert s[1..] == a[1..] + "/" + b;
      SplitAtSlash(a[1..], b);
      assert [a[0]] + a[1..] == a;
    }
  }

  lemma {:induction false} PlacementSplits(board: Grid, k: nat)
    requires PieceCells(board) && k < 8
    ensures SplitSlash(PlacementFrom(board, k)) == seq(8 - k, i requires 0 <= i < 8 - k => RowFen(board[k + i]))
    decreases 8 - k
  {
    RowFenRoundTrip(board[k]);
    if k == 7 {
      assert PlacementFrom(board, 7) == RowFen(board[7]);
      SplitNoSlash(RowFen(board[7]));
    } else {
      PlacementSplits(board, k + 1);
      SplitAtSlash(RowFen(board[k]), PlacementFrom(board, k + 1));
    }
  }

  /** The placement field splits into exactly eight ranks, and each reads
      back as the first eight cells of its board row, so every rank counts
      eight squares. */
  lemma FenPlacementRoundTrip(board: Grid)
    requires PieceCells(board)
    ensures var ranks := SplitSlash(PlacementFrom(board, 0));
            |ranks| == 8 &&
            forall r :: 0 <= r < 8 ==> ExpandRow(ranks[r]) == board[r][..8] && |ExpandRow(ranks[r])| == 8
    ensures ' ' !in PlacementFrom(board, 0)
  {
    PlacementSplits(board, 0);
    forall r | 0 <= r < 8
      ensures ExpandRow(SplitSlash(PlacementFrom(board, 0))[r]) == board[r][..8]
    {
      RowFenRoundTrip(board[r]);
    }
    PlacementHasNoSpace(board, 0);
  }

  lemma {:induction false} PlacementHasNoSpace(board: Grid, k: nat)
    requires PieceCells(board) && k <= 8
    ensures ' ' !in PlacementFrom(board, k)
    decreases 8 - k
  {
    if k < 8 {
      RowFenRoundTrip(board[k]);
      PlacementHasNoSpace(board, k + 1);
    }
  }

  /** The FEN's first field is the placement and its second the side to move. */
  lemma BoardFenFields(board: Grid, whiteTurn: bool)
    requires PieceCells(board)
    ensures var fen := BoardFen(board, whiteTurn);
            var p := |PlacementFrom(board, 0)|;
            IndexOf(fen, " ") == Some(p) && fen[..p] == PlacementFrom(board, 0) &&
            fen[p + 1] == (if whiteTurn then 'w' else 'b') && fen[p + 2..] == " KQkq - 0 1"
  {
    PlacementHasNoSpace(board, 0);
    FenFieldsOf(PlacementFrom(board, 0), if whiteTurn then "w" else "b");
  }

  /** A space-free placement is followed by the first space of the FEN, the
      side to move and the fixed fields. */
  lemma FenFieldsOf(placement: string, side: string)
    requires ' ' !in placement && |side| == 1
    ensures var fen := placement + " " + side + " KQkq - 0 1";
            var p := |placement|;
            IndexOf(fen, " ") == Some(p) && fen[..p] == placement &&
            fen[p + 1] == side[0] && fen[p + 2..] == " KQkq - 0 1"
  {
    var tail := side + " KQkq - 0 1";
    FirstOccurrenceAfter(placement, ' ', tail);
    assert placement + " " + side + " KQkq - 0 1" == placement + [' '] + tail;
  }

  /** The ranks of the server's initial board, as FEN text. */
  lemma InitialRanks()
    ensures Fits(InitialBoard)
    ensures RowFen(InitialBoard[0]) == "rnbqkbnr" && RowFen(InitialBoard[1]) == "pppppppp"
    ensures RowFen(InitialBoard[2]) == "8" && RowFen(InitialBoard[3]) == "8"
    ensures RowFen(InitialBoard[4]) == "8" && RowFen(InitialBoard[5]) == "8"
    ensures RowFen(InitialBoard[6]) == "PPPPPPPP" && RowFen(InitialBoard[7]) == "RNBQKBNR"
  {
    var b := InitialBoard;
    RunOfPieces(b[0][..8]);
    assert PieceLetters(b[0][..8]) == "rnbqkbnr";
    RunOfPieces(b[1][..8]);
    assert PieceLetters(b[1][..8]) == "pppppppp";
    RunOfPieces(b[6][..8]);
    assert PieceLetters(b[6][..8]) == "PPPPPPPP";
    RunOfPieces(b[7][..8]);
    assert PieceLetters(b[7][..8]) == "RNBQKBNR";
    RunOfEmpties(8, 0);
    forall r | 2 <= r < 6 ensures RowFen(b[r]) == "8" {
      assert b[r][..8] == Empties(8);
    }
  }

  /** The placement is the eight rank texts joined by '/'. */
  lemma PlacementOfRanks(b: Grid)
    requires Fits(b)
    ensures PlacementFrom(b, 0) ==
              RowFen(b[0]) + "/" + RowFen(b[1]) + "/" + RowFen(b[2]) + "/" + RowFen(b[3]) + "/" +
              RowFen(b[4]) + "/" + RowFen(b[5]) + "/" + RowFen(b[6]) + "/" + RowFen(b[7])
  {
    var r := seq(8, i requires 0 <= i < 8 => RowFen(b[i]));
    assert PlacementFrom(b, 0) == r[0] + "/" + PlacementFrom(b, 1);
    JoinStep(r[0] + "/", r[1], PlacementFrom(b, 2));
    JoinStep(r[0] + "/" + r[1] + "/", r[2], PlacementFrom(b, 3));
    JoinStep(r[0] + "/" + r[1] + "/" + r[2] + "/", r[3], PlacementFrom(b, 4));
    JoinStep(r[0] + "/" + r[1] + "/" + r[2] + "/" + r[3] + "/", r[4], PlacementFrom(b, 5));
    JoinStep(r[0] + "/" + r[1] + "/" + r[2] + "/" + r[3] + "/" + r[4] + "/", r[5], PlacementFrom(b, 6));
    JoinStep(r[0] + "/" + r[1] + "/" + r[2] + "/" + r[3] + "/" + r[4] + "/" + r[5] + "/", r[6], PlacementFrom(b, 7));
    assert PlacementFrom(b, 7) == r[7] + "" + "";
  }

  /** Moving one rank and its separator from the rest to the joined prefix. */
  lemma JoinStep(p: string, rank: string, rest: string)
    ensures p + (rank + "/" + rest) == p + rank + "/" + rest
  {
  }

  /** Any board whose ranks read as the starting ranks gives the starting FEN. */
  lemma StartRanksGiveStartFen(b: Grid)
    requires Fits(b)
    requires RowFen(b[0]) == "rnbqkbnr" && RowFen(b[1]) == "pppppppp"
    requires RowFen(b[2]) == "8" && RowFen(b[3]) == "8" && RowFen(b[4]) == "8" && RowFen(b[5]) == "8"
    requires RowFen(b[6]) == "PPPPPPPP" && RowFen(b[7]) == "RNBQKBNR"
    ensures BoardFen(b, true) == StartFen
  {
    PlacementOfRanks(b);
    StartRanksJoin(RowFen(b[0]), RowFen(b[1]), RowFen(b[2]), RowFen(b[3]),
                   RowFen(b[4]), RowFen(b[5]), RowFen(b[6]), RowFen(b[7]));
  }

  /** The starting ranks joined by '/' and followed by white to move, full
      castling rights and fresh clocks spell the starting FEN. */
  lemma StartRanksJoin(r0: string, r1: string, r2: string, r3: string,
                       r4: string, r5: string, r6: string, r7: string)
    requires r0 == "rnbqkbnr" && r1 == "pppppppp" && r6 == "PPPPPPPP" && r7 == "RNBQKBNR"
    requires r2 == "8" && r3 == "8" && r4 == "8" && r5 == "8"
    ensures r0 + "/" + r1 + "/" + r2 + "/" + r3 + "/" + r4 + "/" + r5 + "/" + r6 + "/" + r7 +
            " " + "w" + " KQkq - 0 1" == StartFen
  {
    var placement := r0 + "/" + r1 + "/" + r2 + "/" + r3 + "/" + r4 + "/" + r5 + "/" + r6 + "/" + r7;
    assert placement == "rnbqkbnr/pppppppp/8/8/8/8/PPPPPPPP/RNBQKBNR";
  }

  /** The server's initial board serialises to the standard starting FEN. */
  lemma InitialBoardIsStart()
    ensures Fits(InitialBoard)
    ensures BoardFen(InitialBoard, true) == StartFen
  {
    InitialRanks();
    StartRanksGiveStartFen(InitialBoard);
  }

  /** The letters of a rank of one-letter pieces. */
  function PieceLetters(cells: seq<string>): (s: string)
    requires forall i :: 0 <= i < |cells| ==> |cells[i]| == 1
    ensures |s| == |cells| && forall i :: 0 <= i < |cells| ==> s[i] == cells[i][0]
  {
    seq(|cells|, i requires 0 <= i < |cells| => cells[i][0])
  }

  /** A rank without empty squares is written letter by letter. */
  lemma {:induction false} RunOfPieces(cells: seq<string>)
    requires forall i :: 0 <= i < |cells| ==> |cells[i]| == 1
    ensures RunFen(cells, 0) == PieceLetters(cells)
    decreases |cells|
  {
    if cells != [] {
      RunOfPieces(cells[1..]);
      assert cells[0] == [cells[0][0]];
      assert PieceLetters(cells) == [cells[0][0]] + PieceLetters(cells[1..]);
    }
  }

  /** A run of empty squares is written as one count. */
  lemma {:induction false} RunOfEmpties(n: nat, e: nat)
    ensures RunFen(Empties(n), e) == RunText(n + e)
    decreases n
  {
    if n > 0 {
      assert Empties(n)[1..] == Empties(n - 1);
      RunOfEmpties(n - 1, e + 1);
    }
  }

  // ------------------------------------------------------------ move texts

  /** `colToFile`: the character 'a' + col. */
  function ColToFile(col: int): (f: string)
    ensures |f| == 1 && f[0] == FileChar(col)
  {
    [CodeUnitChar(97 + col)]
  }

  predicate IsCastled(m: MoveRequest) { m.castled == Some(true) }

  /** createMoveNotation: castling as O-O (target column 6) or O-O-O;
      otherwise the upper-cased piece (nothing for a pawn), an 'x' when a
      captured piece is named, and the target square. */
  function CreateMoveNotation(m: MoveRequest): (san: string)
    requires m.toRow.Some? && m.toCol.Some? && m.piece.Some?
    ensures IsCastled(m) ==> (san == "O-O" <==> m.toCol.value == 6) && san in {"O-O", "O-O-O"}
    ensures !IsCastled(m) ==>
              var sq := SquareName(m.toRow.value, m.toCol.value);
              |sq| <= |san| && san[|san| - |sq|..] == sq
  {
    var toSquare := ColToFile(m.toCol.value) + IntToString(8 - m.toRow.value);
    if IsCastled(m) then (if m.toCol.value == 6 then "O-O" else "O-O-O")
    else
      var piece := m.piece.value;
      var symbol := if EqualsIgnoreCase("p", piece) then "" else ToUpper(piece);
      var capture := if m.capturedPiece.Some? && m.capturedPiece.value != "" then "x" else "";
      var san := symbol + capture + toSquare;
      assert san[|san| - |toSquare|..] == toSquare;
      san
  }

  /** The parts a simplified SAN text carries. */
  datatype SanParts = SanParts(piece: string, capture: bool, target: string)

  /** Reads a simplified SAN text: the last two characters are the target
      square, an 'x' before them marks a capture, the rest is the piece. */
  function ReadSan(s: string): Option<SanParts>
  {
    if |s| < 2 then None
    else
      var head := s[..|s| - 2];
      if |head| >= 1 && head[|head| - 1] == 'x' then Some(SanParts(head[..|head| - 1], true, s[|s| - 2..]))
      else Some(SanParts(head, false, s[|s| - 2..]))
  }

  predicate IsPieceLetter(p: string)
  {
    |p| == 1 && p[0] in "pnbrqkPNBRQK"
  }

  /** For a non-castling move of a one-letter piece onto a board square, the
      notation reads back as the piece symbol (none for a pawn), whether a
      capture was named, and the target square under the client's naming. */
  lemma MoveNotationReadsBack(m: MoveRequest)
    requires m.toRow.Some? && m.toCol.Some? && m.piece.Some?
    requires !IsCastled(m) && OnBoard(m.toRow.value, m.toCol.value) && IsPieceLetter(m.piece.value)
    ensures ReadSan(CreateMoveNotation(m)) == Some(SanParts(
              if ToLower(m.piece.value) == "p" then "" else ToUpper(m.piece.value),
              m.capturedPiece.Some? && m.capturedPiece.value != "",
              SquareName(m.toRow.value, m.toCol.value)))
  {
    var piece := m.piece.value;
    var sq := SquareName(m.toRow.value, m.toCol.value);
    var symbol := if EqualsIgnoreCase("p", piece) then "" else ToUpper(piece);
    var capture := if m.capturedPiece.Some? && m.capturedPiece.value != "" then "x" else "";
    assert ToLower("p") == "p";
    assert ColToFile(m.toCol.value) + IntToString(8 - m.toRow.value) == sq;
    var san := symbol + capture + sq;
    assert CreateMoveNotation(m) == san;
    assert |sq| == 2;
    var head := symbol + capture;
    assert san[..|san| - 2] == head && san[|san| - 2..] == sq;
    assert symbol == "" <==> ToLower(piece) == "p";
    if symbol != "" {
      assert symbol[0] == UpperChar(piece[0]) != 'x';
    }
    if capture == "x" {
      assert head[..|head| - 1] == symbol;
    } else {
      assert head == symbol;
    }
  }

  /** The promotion letter createUCI appends: q, r, b or n in either case,
      and only for a move marked as a promotion. */
  function UciPromotion(m: MoveRequest): (p: string)
    ensures p in {"", "q", "r", "b", "n"}
    ensures p != "" ==> m.isPromotion == Some(true) && m.promotedTo.Some? && ToLower(m.promotedTo.value) == p
  {
    if m.isPromotion == Some(true) && m.promotedTo.Some? then
      var promoted := ToLower(m.promotedTo.value);
      if promoted == "q" then "q"
      else if promoted == "r" then "r"
      else if promoted == "b" then "b"
      else if promoted == "n" then "n"
      else ""
    else ""
  }

  /** createUCI: empty when a coordinate is missing; otherwise the from-file,
      from-rank, to-file and to-rank, then the promotion letter if any. */
  function CreateUci(m: MoveRequest): (uci: string)
    ensures uci == "" <==> m.fromRow.None? || m.fromCol.None? || m.toRow.None? || m.toCol.None?
    ensures uci != "" && OnBoard(m.fromRow.value, m.fromCol.value) && OnBoard(m.toRow.value, m.toCol.value) ==>
              uci == SquareName(m.fromRow.value, m.fromCol.value) + SquareName(m.toRow.value, m.toCol.value) + UciPromotion(m)
  {
    if m.fromCol.None? || m.fromRow.None? || m.toCol.None? || m.toRow.None? then ""
    else
      ColToFile(m.fromCol.value) + IntToString(8 - m.fromRow.value) +
      ColToFile(m.toCol.value) + IntToString(8 - m.toRow.value) + UciPromotion(m)
  }

  /** For board coordinates, the UCI text decodes back through the wire
      square encoding to the same rows and columns. */
  lemma UciDecodes(m: MoveRequest)
    requires m.fromRow.Some? && m.fromCol.Some? && m.toRow.Some? && m.toCol.Some?
    requires OnBoard(m.fromRow.value, m.fromCol.value) && OnBoard(m.toRow.value, m.toCol.value)
    ensures var uci := CreateUci(m);
            4 <= |uci| <= 5 &&
            EncodeSquare(uci[..2]) == Some(WireSquare(m.fromRow.value, m.fromCol.value)) &&
            EncodeSquare(uci[2..4]) == Some(WireSquare(m.toRow.value, m.toCol.value))
  {
    var from := SquareName(m.fromRow.value, m.fromCol.value);
    var to := SquareName(m.toRow.value, m.toCol.value);
    var uci := CreateUci(m);
    assert uci == from + to + UciPromotion(m);
    assert uci[..2] == from && uci[2..4] == to;
    EncodeSquareName(m.fromRow.value, m.fromCol.value);
    EncodeSquareName(m.toRow.value, m.toCol.value);
  }

  // ------------------------------------------------------------ ply bookkeeping

  /** The ply of the next stored move: a null counter counts as zero. */
  function NextPly(current: Option<nat>): (p: nat)
    ensures p >= 1
  {
    PlyOf(current) + 1
  }

  /** The full-move number of a ply (plies 1 and 2 are move 1). */
  function MoveNumber(ply: nat): nat
  {
    (ply + 1) / 2
  }

  /** The colour of the side that made a ply: white on odd plies. */
  function ColorOfPly(ply: nat): PieceColor
  {
    if ply % 2 == 1 then WhiteColor else BlackColor
  }

  /** Stored plies alternate colour starting with white, and the move number
      goes up by one after each black ply. */
  lemma PlyBookkeeping(ply: nat)
    requires ply >= 1
    ensures ColorOfPly(1) == WhiteColor && MoveNumber(1) == 1
    ensures ColorOfPly(ply + 1) != ColorOfPly(ply)
    ensures MoveNumber(ply + 1) == MoveNumber(ply) + (if ColorOfPly(ply) == BlackColor then 1 else 0)
    ensures MoveNumber(ply) == (if ColorOfPly(ply) == WhiteColor then (ply + 1) / 2 else ply / 2)
  {
  }

  /** The row stored for a move at a given ply. */
  function MoveRowAt(ply: nat, m: MoveRequest): MoveRow
    requires m.toRow.Some? && m.toCol.Some? && m.piece.Some?
  {
    MoveRow(ply, MoveNumber(ply), ColorOfPly(ply), CreateUci(m), CreateMoveNotation(m), m.fenBefore, m.fenAfter)
  }

  /** A stored match after a move: the supplied FEN and a non-empty UCI
      replace the old ones, and the ply counter moves to the next ply. */
  function MatchAfterMove(match_: Match, m: MoveRequest): Match
  {
    var uci := CreateUci(m);
    match_.(fenCurrent := if m.fenAfter.Some? then m.fenAfter else match_.fenCurrent,
            lastMoveUci := if uci != "" then Some(uci) else match_.lastMoveUci,
            currentPly := Some(NextPly(match_.currentPly)))
  }

  // ------------------------------------------------------------ the relay

  /** The move message the relay broadcasts for an accepted request. */
  function RelayedMove(matchId: int, m: MoveRequest, newBoard: Grid, whiteTurnAfter: bool, username: string): (dto: MoveDto)
    requires m.toRow.Some? && m.toCol.Some? && m.piece.Some? && m.playerColor.Some?
    ensures dto.fromRow == m.fromRow && dto.fromCol == m.fromCol && dto.toRow == m.toRow && dto.toCol == m.toCol
    ensures dto.promotedTo == m.promotedTo && dto.piece == m.piece
    ensures dto.isWhiteTurn == whiteTurnAfter && dto.playerUsername == Some(username)
    ensures dto.board == Some(newBoard) && dto.matchId == matchId
    ensures dto.castled <==> IsCastled(m)
  {
    MoveDto(m.fromRow, m.fromCol, m.toRow, m.toCol, m.piece, m.promotedTo, m.capturedPiece,
      m.castled == Some(true), m.isEnPassant == Some(true), m.isPromotion == Some(true),
      m.fenBefore, m.fenAfter, Some(newBoard), whiteTurnAfter, m.playerColor, matchId,
      CreateMoveNotation(m), Some(username))
  }

  /** Why processMove refuses a request, checked in this order; None when it
      is accepted. */
  function MoveRejection(games: map<int, GameState>, matchId: int, m: MoveRequest, username: string): (e: Option<string>)
    ensures e.None? ==> m.fromRow.Some? && m.fromCol.Some? && m.toRow.Some? && m.toCol.Some?
    ensures e.None? ==> m.piece.Some? && m.piece.value != "" && m.playerColor.Some? && m.board.Some?
    ensures e.None? ==>
              (matchId in games &&
               username == (if games[matchId].whiteTurn then games[matchId].player1 else games[matchId].player2) &&
               m.playerColor.value == (if games[matchId].whiteTurn then "white" else "black"))
  {
    if m.fromRow.None? || m.fromCol.None? || m.toRow.None? || m.toCol.None? then
      Some("Move coordinates cannot be null")
    else if m.piece.None? || m.piece.value == "" then Some("Piece cannot be null or empty")
    else if m.playerColor.None? then Some("Player color cannot be null")
    else if matchId !in games then Some("Game not found or not active")
    else
      var g := games[matchId];
      if username != (if g.whiteTurn then g.player1 else g.player2) then Some("Not your turn")
      else if g.whiteTurn && m.playerColor.value != "white" then
        Some("Invalid move: White's turn but player is " + m.playerColor.value)
      else if !g.whiteTurn && m.playerColor.value != "black" then
        Some("Invalid move: Black's turn but player is " + m.playerColor.value)
      else if m.board.None? then Some("Board cannot be null")
      else None
  }

  /** A request the relay accepts comes from the player whose turn it is, and
      from no other user when the two players differ. */
  lemma OnlyTheMoverIsAccepted(games: map<int, GameState>, matchId: int, m: MoveRequest, username: string, other: string)
    requires matchId in games && games[matchId].player1 != games[matchId].player2
    requires MoveRejection(games, matchId, m, username).None?
    requires other != username
    ensures MoveRejection(games, matchId, m, other) == Some("Not your turn")
  {
  }

  class Relay {
    const db: MatchDb
    const online: OnlineMatches
    var activeGames: map<int, GameState>

    ghost predicate Valid()
      reads this, db
    {
      online.db == db && online.Valid()
    }

    constructor (db: MatchDb, online: OnlineMatches)
      requires online.db == db && online.Valid()
      ensures Valid()
      ensures this.db == db && this.online == online && activeGames == map[]
    {
      this.db := db;
      this.online := online;
      activeGames := map[];
    }

    /** determineMyTurn for a match id: false without a live game; otherwise
        whether the user is the player of the side to move. */
    function DetermineMyTurn(matchId: int, username: string): (b: bool)
      reads this
      ensures b ==> matchId in activeGames
      ensures b ==> username == (if activeGames[matchId].whiteTurn then activeGames[matchId].player1
                                 else activeGames[matchId].player2)
    {
      if matchId !in activeGames then false
      else
        var g := activeGames[matchId];
        if g.whiteTurn then g.player1 == username else g.player2 == username
    }

    /** With two distinct players, exactly one of them has the turn. */
    lemma ExactlyOneToMove(matchId: int)
      requires matchId in activeGames
      requires activeGames[matchId].player1 != activeGames[matchId].player2
      ensures DetermineMyTurn(matchId, activeGames[matchId].player1) != DetermineMyTurn(matchId, activeGames[matchId].player2)
    {
    }

    /** getOpponentUsername: the other player of a live game; none for a user
        who plays in neither seat, or without a live game. */
    function GetOpponentUsername(matchId: int, username: string): (o: Option<string>)
      reads this
      ensures o.Some? ==> matchId in activeGames
      ensures matchId in activeGames && username == activeGames[matchId].player1 ==>
                o == Some(activeGames[matchId].player2)
      ensures (matchId in activeGames && username == activeGames[matchId].player2 &&
               username != activeGames[matchId].player1) ==> o == Some(activeGames[matchId].player1)
      ensures (matchId !in activeGames ||
               (username != activeGames[matchId].player1 && username != activeGames[matchId].player2)) ==> o.None?
    {
      if matchId !in activeGames then None
      else
        var g := activeGames[matchId];
        if username == g.player1 then Some(g.player2)
        else if username == g.player2 then Some(g.player1)
        else None
    }

    /** The opponent relation is symmetric between two distinct players. */
    lemma OpponentIsSymmetric(matchId: int, a: string)
      requires matchId in activeGames && activeGames[matchId].player1 != activeGames[matchId].player2
      requires GetOpponentUsername(matchId, a).Some?
      ensures var b := GetOpponentUsername(matchId, a).value;
              b != a && GetOpponentUsername(matchId, b) == Some(a)
    {
    }

    /** updateMatchInDatabase: store the move under the next ply of the match,
        with its move number, colour, UCI and notation, and advance the match's
        FEN, last move and ply. Nothing happens for an unknown match. The next
        ply is always free, so the (match, ply) uniqueness never trips. */
    method UpdateMatchInDatabase(matchId: int, m: MoveRequest)
      requires Valid()
      requires m.toRow.Some? && m.toCol.Some? && m.piece.Some?
      modifies db`matches, db`moves
      ensures Valid()
      ensures matchId !in old(db.matches) ==> db.matches == old(db.matches) && db.moves == old(db.moves)
      ensures matchId in old(db.matches) ==>
                var ply := NextPly(old(db.matches)[matchId].currentPly);
                (matchId, ply) !in old(db.moves) &&
                db.moves == old(db.moves)[(matchId, ply) := MoveRowAt(ply, m)] &&
                db.matches == old(db.matches)[matchId := MatchAfterMove(old(db.matches)[matchId], m)]
    {
      if matchId !in db.matches {
        return;
      }
      var match_ := db.matches[matchId];
      if m.fenAfter.Some? {
        match_ := match_.(fenCurrent := m.fenAfter);
      }
      var uci := CreateUci(m);
      if uci != "" {
        match_ := match_.(lastMoveUci := Some(uci));
      }
      var newPly := NextPly(match_.currentPly);
      match_ := match_.(currentPly := Some(newPly));
      var row := MoveRow(newPly, MoveNumber(newPly), ColorOfPly(newPly), uci, CreateMoveNotation(m), m.fenBefore, m.fenAfter);
      db.RecordMove(matchId, match_, row);
    }

    /** processMove: a rejected request changes nothing. An accepted one
        stores the supplied board, flips the turn once, takes the supplied
        status (IN_PROGRESS when absent), reports any other status on the room
        (the mover as winner only for FINISHED), records the move, and answers
        with the move message carrying the new turn and the mover's name. */
    method ProcessMove(matchId: int, m: MoveRequest, username: string) returns (r: Result<MoveDto>)
      requires Valid()
      modifies this`activeGames, db`rooms, db`matches, db`moves
      ensures Valid()
      ensures r.Err? <==> MoveRejection(old(activeGames), matchId, m, username).Some?
      ensures r.Err? ==> r.message == MoveRejection(old(activeGames), matchId, m, username).value
      ensures r.Err? ==> activeGames == old(activeGames) && db.rooms == old(db.rooms) &&
                         db.matches == old(db.matches) && db.moves == old(db.moves)
      ensures r.Ok? ==>
                var g := old(activeGames)[matchId];
                var status := if m.status.Some? then m.status.value else "IN_PROGRESS";
                activeGames == old(activeGames)[matchId := g.(board := m.board.value, whiteTurn := !g.whiteTurn, status := status)] &&
                r.value == RelayedMove(matchId, m, m.board.value, !g.whiteTurn, username)
      ensures r.Ok? && (m.status.None? || m.status == Some("IN_PROGRESS")) ==> db.rooms == old(db.rooms)
      ensures r.Ok? && m.status.Some? && m.status.value != "IN_PROGRESS" && matchId in old(db.matches) ==>
                forall c :: c in old(db.rooms) && old(db.rooms)[c].matchId == Some(matchId) ==>
                  db.rooms == old(db.rooms)[c := old(db.rooms)[c].(
                    status := StatusFromName(m.status.value),
                    winnerName := if m.status.value == "FINISHED" then Some(username) else None)]
      ensures r.Ok? && m.status.Some? && m.status.value != "IN_PROGRESS" ==>
                db.rooms == RoomsWithResult(old(db.rooms), matchId in old(db.matches), matchId,
                                            StatusFromName(m.status.value),
                                            if m.status.value == "FINISHED" then Some(username) else None)
      ensures (matchId !in old(db.matches) || forall c :: c in old(db.rooms) ==> old(db.rooms)[c].matchId != Some(matchId)) ==>
                db.rooms == old(db.rooms)
      ensures r.Ok? && matchId !in old(db.matches) ==> db.matches == old(db.matches) && db.moves == old(db.moves)
      ensures r.Ok? && matchId in old(db.matches) ==>
                var ply := NextPly(old(db.matches)[matchId].currentPly);
                (matchId, ply) !in old(db.moves) &&
                db.moves == old(db.moves)[(matchId, ply) := MoveRowAt(ply, m)] &&
                db.matches == old(db.matches)[matchId := MatchAfterMove(old(db.matches)[matchId], m)]
      ensures r.Ok? && matchId in old(db.matches) ==>
                matchId in db.matches && db.matches[matchId].currentPly == Some(NextPly(old(db.matches)[matchId].currentPly))
    {
      var rejection := MoveRejection(activeGames, matchId, m, username);
      if rejection.Some? {
        return Err(rejection.value);
      }
      var g := activeGames[matchId];
      var newBoard := m.board.value;
      var status := if m.status.Some? then m.status.value else "IN_PROGRESS";
      activeGames := activeGames[matchId := g.(board := newBoard, whiteTurn := !g.whiteTurn, status := status)];
      if status != "IN_PROGRESS" {
        var winner := if status == "FINISHED" then Some(username) else None;
        online.UpdateMatchResult(matchId, status, winner);
      }
      UpdateMatchInDatabase(matchId, m);
      r := Ok(RelayedMove(matchId, m, newBoard, !g.whiteTurn, username));
    }

    /** handleResignation: a live game becomes RESIGNED and the room records
        the opponent of the resigning user as winner. */
    method HandleResignation(matchId: int, username: string)
      requires Valid()
      modifies this`activeGames, db`rooms
      ensures Valid()
      ensures matchId !in old(activeGames) ==> activeGames == old(activeGames) && db.rooms == old(db.rooms)
      ensures matchId in old(activeGames) ==>
                activeGames == old(activeGames)[matchId := old(activeGames)[matchId].(status := "RESIGNED")]
      ensures matchId in old(activeGames) && matchId in db.matches ==>
                forall c :: c in old(db.rooms) && old(db.rooms)[c].matchId == Some(matchId) ==>
                  db.rooms == old(db.rooms)[c := old(db.rooms)[c].(
                    status := Resigned, winnerName := old(GetOpponentUsername(matchId, username)))]
      ensures matchId in old(activeGames) ==>
                db.rooms == RoomsWithResult(old(db.rooms), matchId in db.matches, matchId, Resigned,
                                            old(GetOpponentUsername(matchId, username)))
      ensures (matchId !in db.matches || forall c :: c in old(db.rooms) ==> old(db.rooms)[c].matchId != Some(matchId)) ==>
                db.rooms == old(db.rooms)
    {
      if matchId in activeGames {
        var opponent := GetOpponentUsername(matchId, username);
        activeGames := activeGames[matchId := activeGames[matchId].(status := "RESIGNED")];
        StatusFromNameRoundTrip(Resigned);
        online.UpdateMatchResult(matchId, "RESIGNED", opponent);
      }
    }

    /** handleDrawAccept: a live game becomes DRAW and the room records no winner. */
    method HandleDrawAccept(matchId: int)
      requires Valid()
      modifies this`activeGames, db`rooms
      ensures Valid()
      ensures matchId !in old(activeGames) ==> activeGames == old(activeGames) && db.rooms == old(db.rooms)
      ensures matchId in old(activeGames) ==>
                activeGames == old(activeGames)[matchId := old(activeGames)[matchId].(status := "DRAW")]
      ensures matchId in old(activeGames) && matchId in db.matches ==>
                forall c :: c in old(db.rooms) && old(db.rooms)[c].matchId == Some(matchId) ==>
                  db.rooms == old(db.rooms)[c := old(db.rooms)[c].(status := Draw, winnerName := None)]
      ensures matchId in old(activeGames) ==>
                db.rooms == RoomsWithResult(old(db.rooms), matchId in db.matches, matchId, Draw, None)
      ensures (matchId !in db.matches || forall c :: c in old(db.rooms) ==> old(db.rooms)[c].matchId != Some(matchId)) ==>
                db.rooms == old(db.rooms)
    {
      if matchId in activeGames {
        activeGames := activeGames[matchId := activeGames[matchId].(status := "DRAW")];
        StatusFromNameRoundTrip(Draw);
        online.UpdateMatchResult(matchId, "DRAW", None);
      }
    }

    /** handlePlayerJoin: a game without a live state is started from its
        stored match (or refused when there is none); the answer carries the
        live status, the caller's turn and the board with its FEN. */
    method HandlePlayerJoin(matchId: int, playerColor: string, username: string) returns (r: Result<JoinStatus>)
      modifies this`activeGames
      ensures matchId !in old(activeGames) && matchId !in db.matches ==>
                r == Err("Game not found") && activeGames == old(activeGames)
      ensures matchId !in old(activeGames) && matchId in db.matches ==>
                activeGames == old(activeGames)[matchId := InitialGameState(db.matches[matchId])]
      ensures matchId in old(activeGames) ==> activeGames == old(activeGames)
      ensures r.Ok? ==>
                matchId in activeGames && Fits(activeGames[matchId].board) &&
                r.value == JoinStatus(matchId, activeGames[matchId].status, playerColor,
                  DetermineMyTurn(matchId, username), activeGames[matchId].board,
                  BoardFen(activeGames[matchId].board, activeGames[matchId].whiteTurn))
      ensures r.Err? && matchId in activeGames ==> !Fits(activeGames[matchId].board)
    {
      if matchId !in activeGames {
        if matchId !in db.matches {
          return Err("Game not found");
        }
        activeGames := activeGames[matchId := InitialGameState(db.matches[matchId])];
      }
      var g := activeGames[matchId];
      var fen := ConvertBoardToFen(g.board, g.whiteTurn);
      if fen.Err? {
        return Err(fen.message);
      }
      r := Ok(JoinStatus(matchId, g.status, playerColor, DetermineMyTurn(matchId, username), g.board, fen.value));
    }

    /** getGameDetails: it needs a principal, a stored match and a caller who
        plays in it (white as player1, black as player2). The caller's turn is
        read before a missing live game is loaded from the match; the answer
        carries the live status, board and the board's FEN. */
    method GetGameDetails(matchId: int, principal: Option<string>) returns (r: Result<LiveGameDetails>)
      modifies this`activeGames
      ensures principal.None? ==> r == Err("User not authenticated") && activeGames == old(activeGames)
      ensures principal.Some? && matchId !in db.matches ==>
                r == Err("Game not found") && activeGames == old(activeGames)
      ensures principal.Some? && matchId in db.matches &&
              principal.value != db.matches[matchId].player1 && principal.value != db.matches[matchId].player2 ==>
                r == Err("User not part of this game") && activeGames == old(activeGames)
      ensures principal.Some? && matchId in db.matches &&
              (principal.value == db.matches[matchId].player1 || principal.value == db.matches[matchId].player2) ==>
                activeGames == (if matchId in old(activeGames) then old(activeGames)
                                else old(activeGames)[matchId := InitialGameState(db.matches[matchId])])
      ensures r.Ok? ==>
                principal.Some? && matchId in db.matches && matchId in activeGames &&
                var m := db.matches[matchId];
                var g := activeGames[matchId];
                (principal.value == m.player1 || principal.value == m.player2) && Fits(g.board) &&
                r.value == LiveGameDetails(matchId, m.player1, m.player2, g.status,
                  if principal.value == m.player1 then "white" else "black",
                  DetermineMyTurnForMatch(if matchId in old(activeGames) then Some(old(activeGames)[matchId]) else None,
                                          m, principal.value),
                  g.board, BoardFen(g.board, g.whiteTurn))
      ensures r.Err? && matchId in activeGames && principal.Some? && matchId in db.matches &&
              (principal.value == db.matches[matchId].player1 || principal.value == db.matches[matchId].player2) ==>
                !Fits(activeGames[matchId].board)
    {
      if principal.None? {
        return Err("User not authenticated");
      }
      var username := principal.value;
      if matchId !in db.matches {
        return Err("Game not found");
      }
      var m := db.matches[matchId];
      var color: string;
      if m.player1 == username {
        color := "white";
      } else if m.player2 == username {
        color := "black";
      } else {
        return Err("User not part of this game");
      }
      var live := if matchId in activeGames then Some(activeGames[matchId]) else None;
      var isMyTurn := DetermineMyTurnForMatch(live, m, username);
      if matchId !in activeGames {
        activeGames := activeGames[matchId := InitialGameState(m)];
      }
      var g := activeGames[matchId];
      var fen := ConvertBoardToFen(g.board, g.whiteTurn);
      if fen.Err? {
        return Err(fen.message);
      }
      r := Ok(LiveGameDetails(matchId, m.player1, m.player2, g.status, color, isMyTurn, g.board, fen.value));
    }
  }

  /** determineMyTurn for a stored match (the game-details variant): without a
      live state only player1 is to move; with one, the stored player whose
      colour the live turn names. */
  function DetermineMyTurnForMatch(live: Option<GameState>, m: Match, username: string): (b: bool)
    ensures live.None? ==> (b <==> username == m.player1)
    ensures live.Some? ==> (b <==> username == (if live.value.whiteTurn then m.player1 else m.player2))
  {
    if live.None? then m.player1 == username
    else if live.value.whiteTurn then m.player1 == username
    else m.player2 == username
  }

  /** The answer of getGameDetails (timestamps and the move list left out). */
  datatype LiveGameDetails = LiveGameDetails(
    matchId: int, player1: string, player2: string, status: string, playerColor: string,
    myTurn: bool, board: Grid, fen: string)

  /** The status answer of handlePlayerJoin. */
  datatype JoinStatus = JoinStatus(
    matchId: int, status: string, playerColor: string, myTurn: bool, board: Grid, fen: string)
}
