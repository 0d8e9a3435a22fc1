/** The click-to-move board (Board.js): a first click on one of the mover's
    pieces selects it and asks the rules library for its moves, a second click
    on one of those targets hands the move to the game, and a promotion first
    asks which piece to promote to. */
module Board {
  import opened Common
  import opened ChessOracle
  import opened Squares

  /** A move handed to the game's drop callback; `promotion` is the third
      argument, present only after the promotion dialog. */
  datatype Drop = Drop(from: string, to: string, promotion: Option<string>)

  /** `possibleMoves.find(m => m.to === square)`: the first listed move onto the square. */
  function FindTo(moves: seq<MoveRecord>, square: string): (r: Option<MoveRecord>)
    ensures r.Some? ==> r.value in moves && r.value.to == square
    ensures r.None? <==> forall m :: m in moves ==> m.to != square
    ensures r.Some? ==> exists i :: 0 <= i < |moves| && moves[i] == r.value &&
                          forall j :: 0 <= j < i ==> moves[j].to != square
  {
    if moves == [] then None
    else if moves[0].to == square then
      assert moves[0] == moves[0];
      Some(moves[0])
    else
      var r := FindTo(moves[1..], square);
      if r.Some? then
        var i :| 0 <= i < |moves[1..]| && moves[1..][i] == r.value &&
                 forall j :: 0 <= j < i ==> moves[1..][j].to != square;
        assert moves[i + 1] == r.value;
        assert forall j :: 0 <= j < i + 1 ==> moves[j].to != square by {
          forall j | 0 <= j < i + 1 ensures moves[j].to != square {
            if j > 0 { assert moves[j] == moves[1..][j - 1]; }
          }
        }
        r
      else
        assert forall m :: m in moves ==> m == moves[0] || m in moves[1..];
        r
  }

  /** The robust promotion check: the library named a promotion piece, or its
      flags contain 'p'. */
  predicate IsPromotion(m: MoveRecord)
  {
    m.promotion != "" || Contains(m.flags, "p")
  }

  /** A piece letter is white when upper-casing leaves it unchanged. */
  predicate IsWhitePiece(piece: string)
  {
    piece == ToUpper(piece)
  }

  /** Whether a clicked piece may be selected: in offline play it must belong
      to the side to move, otherwise to the player's colour. */
  predicate IsMyPiece(piece: string, turn: Color, playerColor: string, offlineFriend: bool)
  {
    if offlineFriend then (turn == White && IsWhitePiece(piece)) || (turn == Black && !IsWhitePiece(piece))
    else (playerColor == "white" && IsWhitePiece(piece)) || (playerColor == "black" && !IsWhitePiece(piece))
  }

  /** The promotion letter for the dialog's choice, by its first letter:
      queen, rook, bishop, and knight for anything else. */
  function PromotionLetter(pieceType: string): (p: string)
    ensures p in {"q", "r", "b", "n"}
  {
    if StartsWith(pieceType, "q") then "q"
    else if StartsWith(pieceType, "r") then "r"
    else if StartsWith(pieceType, "b") then "b"
    else "n"
  }

  /** Each choice the dialog offers maps to its own letter. */
  lemma PromotionLetterOfChoice(pieceType: string, rest: string)
    requires pieceType in {"q", "r", "b", "n"}
    ensures PromotionLetter(pieceType + rest) == pieceType
  {
    var s := pieceType + rest;
    assert s[..1] == pieceType;
  }

  class BoardClicks {
    const rules: Rules
    const playerColor: string
    const offlineFriend: bool

    var selected: Option<string>
    var possibleMoves: seq<MoveRecord>
    var showPromotion: bool
    var pending: Option<(string, string)>
    /** Every call of the drop callback, in order. */
    var drops: seq<Drop>

    /** Without a selection there are no candidate moves; the promotion
        dialog is open only while a move waits for its piece (closing the
        dialog leaves that move waiting). */
    ghost predicate Valid()
      reads this
    {
      (selected.None? ==> possibleMoves == []) &&
      (showPromotion ==> pending.Some?)
    }

    constructor (rules: Rules, playerColor: string, offlineFriend: bool)
      ensures Valid()
      ensures this.rules == rules && this.playerColor == playerColor && this.offlineFriend == offlineFriend
      ensures selected.None? && possibleMoves == [] && !showPromotion && pending.None? && drops == []
    {
      this.rules := rules;
      this.playerColor := playerColor;
      this.offlineFriend := offlineFriend;
      selected := None;
      possibleMoves := [];
      showPromotion := false;
      pending := None;
      drops := [];
    }

    method ClearSelection()
      modifies this`selected, this`possibleMoves
      ensures selected.None? && possibleMoves == []
    {
      selected := None;
      possibleMoves := [];
    }

    /** A click on the cell at (row, col) holding `piece` ("" for an empty
        cell), while the game shows position `fen`. A drop is issued only
        from the selected square to the target of one of its listed moves, and
        only when that move does not promote; a promoting one opens the dialog
        instead. Otherwise the click selects or deselects one of the mover's
        pieces, or clears the selection. */
    method HandleSquareClick(row: int, col: int, piece: string, isMyTurn: bool, fen: string)
      requires Valid()
      modifies this`selected, this`possibleMoves, this`showPromotion, this`pending, this`drops
      ensures Valid()
      ensures !isMyTurn && !offlineFriend ==>
                selected == old(selected) && possibleMoves == old(possibleMoves) &&
                showPromotion == old(showPromotion) && pending == old(pending) && drops == old(drops)
      ensures |drops| <= |old(drops)| + 1
      ensures |drops| == |old(drops)| + 1 ==>
                var sq := SquareName(row, col);
                var found := FindTo(old(possibleMoves), sq);
                old(selected).Some? && found.Some? && !IsPromotion(found.value) &&
                drops == old(drops) + [Drop(old(selected).value, sq, None)] &&
                selected.None? && possibleMoves == []
      ensures pending != old(pending) ==>
                var sq := SquareName(row, col);
                old(selected).Some? && FindTo(old(possibleMoves), sq).Some? &&
                IsPromotion(FindTo(old(possibleMoves), sq).value) &&
                pending == Some((old(selected).value, sq)) && showPromotion &&
                drops == old(drops)
      ensures selected.Some? && selected != old(selected) ==>
                selected == Some(SquareName(row, col)) && piece != "" &&
                IsMyPiece(piece, rules.turn(fen), playerColor, offlineFriend) &&
                possibleMoves == rules.movesFrom(fen, SquareName(row, col))
      ensures isMyTurn || offlineFriend ==>
                var sq := SquareName(row, col);
                var found := if old(selected).Some? then FindTo(old(possibleMoves), sq) else None;
                var mine := piece != "" && IsMyPiece(piece, rules.turn(fen), playerColor, offlineFriend);
                if found.Some? && IsPromotion(found.value) then
                  pending == Some((old(selected).value, sq)) && showPromotion &&
                  selected == old(selected) && possibleMoves == old(possibleMoves) && drops == old(drops)
                else if found.Some? then
                  drops == old(drops) + [Drop(old(selected).value, sq, None)] &&
                  selected.None? && possibleMoves == [] &&
                  pending == old(pending) && showPromotion == old(showPromotion)
                else if mine && old(selected) != Some(sq) then
                  selected == Some(sq) && possibleMoves == rules.movesFrom(fen, sq) &&
                  drops == old(drops) && pending == old(pending) && showPromotion == old(showPromotion)
                else
                  selected.None? && possibleMoves == [] &&
                  drops == old(drops) && pending == old(pending) && showPromotion == old(showPromotion)
    {
      if !isMyTurn && !offlineFriend {
        return;
      }
      var square := SquareName(row, col);
      if selected.Some? {
        var validMove := FindTo(possibleMoves, square);
        if validMove.Some? {
          if IsPromotion(validMove.value) {
            pending := Some((selected.value, square));
            showPromotion := true;
            return;
          }
          drops := drops + [Drop(selected.value, square, None)];
          ClearSelection();
          return;
        }
      }
      if piece != "" && IsMyPiece(piece, rules.turn(fen), playerColor, offlineFriend) {
        if selected == Some(square) {
          ClearSelection();
        } else {
          selected := Some(square);
          possibleMoves := rules.movesFrom(fen, square);
        }
        return;
      }
      ClearSelection();
    }

    /** The promotion dialog's close button: the dialog is hidden, and the
        waiting move, the selection and the drops are kept. */
    method ClosePromotion()
      requires Valid()
      modifies this`showPromotion
      ensures Valid()
      ensures !showPromotion
    {
      showPromotion := false;
    }

    /** The promotion dialog's answer: the waiting move is dropped with the
        chosen letter, and the dialog, the waiting move and the selection are
        all cleared. */
    method HandlePromotionSelect(pieceType: string)
      requires Valid()
      modifies this`selected, this`possibleMoves, this`showPromotion, this`pending, this`drops
      ensures Valid()
      ensures drops == old(drops) +
                (if old(pending).Some?
                 then [Drop(old(pending).value.0, old(pending).value.1, Some(PromotionLetter(pieceType)))]
                 else [])
      ensures !showPromotion && pending.None? && selected.None? && possibleMoves == []
    {
      if pending.Some? {
        drops := drops + [Drop(pending.value.0, pending.value.1, Some(PromotionLetter(pieceType)))];
      }
      showPromotion := false;
      pending := None;
      ClearSelection();
    }
  }
}
