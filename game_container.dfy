/** The game page's match state machine (GameContainer.js): one canonical
    position behind the rules library, the move history, the derived status
    text and turn flag, the per-side clocks, the online message handlers, the
    bot bridge and the save-once latch that reports a finished local game. */
module GameContainer {
  import opened Common
  import opened ChessOracle
  import opened Squares
  import opened Wire

  /** Which of the three ways of playing the page was opened in. */
  datatype Mode = Bot | OfflineFriend | Online

  /** Bot and offline-friend games run on one device and are saved by the client. */
  predicate IsLocal(mode: Mode) { mode != Online }

  /** The effective time limit: none, a stopwatch counting up, or a countdown
      from the given number of seconds. */
  datatype TimeControl = Untimed | Stopwatch | Countdown(seconds: nat)

  /** The timer effect starts only when the limit is truthy: a stopwatch, or a
      countdown from a non-zero number of seconds. */
  predicate ClockRuns(tc: TimeControl)
  {
    tc.Stopwatch? || (tc.Countdown? && tc.seconds != 0)
  }

  function ColorName(c: Color): string
  {
    if c == White then "White" else "Black"
  }

  /** `playerColor === 'white' ? isWhiteTurn : !isWhiteTurn`. */
  predicate MyColorToMove(playerColor: string, turn: Color)
  {
    if playerColor == "white" then turn == White else turn == Black
  }

  /** The bot's guard: the side to move is the colour the player did not take. */
  predicate BotToMove(playerColor: string, turn: Color)
  {
    (playerColor == "white" && turn == Black) || (playerColor == "black" && turn == White)
  }

  /** For the two colours the page is opened with, the bot moves exactly when
      the player may not. */
  lemma BotTurnIsNotMine(playerColor: string, turn: Color)
    requires playerColor == "white" || playerColor == "black"
    ensures BotToMove(playerColor, turn) <==> !MyColorToMove(playerColor, turn)
  {
  }

  // ------------------------------------------------------------ status text

  /** Status texts that the client shows once the position itself is over. */
  predicate IsTerminalText(s: string)
  {
    s == "Draw!" || s == "Stalemate!" || s == "Game Over" || StartsWith(s, "Checkmate!")
  }

  /** The status text after an accepted move, from the position reached:
      checkmate (naming the side that is not to move), then draw, then
      stalemate, then a bare "Game Over" for a finished position; for an
      unfinished one "Check!" before any turn message. */
  function StatusAfter(rules: Rules, fen: string, mode: Mode, playerColor: string): (s: string)
    ensures IsTerminalText(s) <==> rules.isGameOver(fen)
    ensures rules.isGameOver(fen) && rules.isCheckmate(fen) ==>
              s == "Checkmate! " + ColorName(Opposite(rules.turn(fen))) + " wins."
    ensures rules.isGameOver(fen) && !rules.isCheckmate(fen) ==>
              s == (if rules.isDraw(fen) then "Draw!" else if rules.isStalemate(fen) then "Stalemate!" else "Game Over")
    ensures !rules.isGameOver(fen) && rules.inCheck(fen) ==> s == "Check!"
  {
    if rules.isGameOver(fen) then
      if rules.isCheckmate(fen) then
        var s := "Checkmate! " + ColorName(if rules.turn(fen) == White then Black else White) + " wins.";
        assert s[..10] == "Checkmate!";
        s
      else if rules.isDraw(fen) then "Draw!"
      else if rules.isStalemate(fen) then "Stalemate!"
      else "Game Over"
    else if rules.inCheck(fen) then "Check!"
    else
      var white := rules.turn(fen) == White;
      if mode == OfflineFriend then
        var s := (if white then "White" else "Black") + "'s turn";
        assert s[0] != 'C';
        s
      else
        var s := if MyColorToMove(playerColor, rules.turn(fen)) then "Your turn!"
                 else if mode == Bot then "Stockfish is thinking..."
                 else "Opponent is thinking...";
        assert s[0] != 'C' && |s| >= 10;
        s
  }

  /** The status text of a live position is never the time-out text. */
  lemma StatusAfterLiveIsNotTimeout(rules: Rules, fen: string, mode: Mode, playerColor: string)
    requires !rules.isGameOver(fen)
    ensures StatusAfter(rules, fen, mode, playerColor) != "Draw by Timeout"
  {
  }

  /** The next value of isMyTurn after an accepted move. */
  function NextIsMyTurn(rules: Rules, fen: string, mode: Mode, playerColor: string): (b: bool)
  {
    if rules.isGameOver(fen) then false
    else if mode == OfflineFriend then true
    else MyColorToMove(playerColor, rules.turn(fen))
  }

  /** With a library that alternates turns, the player's own accepted move in a
      bot or online game hands the turn away. */
  lemma OwnMoveEndsTurn(rules: Rules, fen: string, mv: MoveInput, mode: Mode, playerColor: string)
    requires Alternates(rules)
    requires mode != OfflineFriend
    requires MyColorToMove(playerColor, rules.turn(fen))
    requires rules.move(fen, mv).Some?
    ensures !NextIsMyTurn(rules, rules.move(fen, mv).value.after, mode, playerColor)
  {
    var after := rules.move(fen, mv).value.after;
    assert rules.turn(after) == Opposite(rules.turn(fen));
  }

  /** With a library that alternates turns, an accepted opponent or bot move
      that does not end the game gives the turn back to the player. */
  lemma OpponentMoveGivesTurn(rules: Rules, fen: string, mv: MoveInput, mode: Mode, playerColor: string)
    requires Alternates(rules)
    requires !MyColorToMove(playerColor, rules.turn(fen))
    requires rules.move(fen, mv).Some?
    requires !rules.isGameOver(rules.move(fen, mv).value.after)
    ensures NextIsMyTurn(rules, rules.move(fen, mv).value.after, mode, playerColor)
  {
    var after := rules.move(fen, mv).value.after;
    assert rules.turn(after) == Opposite(rules.turn(fen));
  }

  // ------------------------------------------------------------ engine moves

  /** The second space-separated field of a line, as `split(" ")[1]` gives it. */
  function SecondField(line: string): (r: Option<string>)
    ensures r.Some? ==> ' ' !in r.value
  {
    match IndexOf(line, " ")
    case None => None
    case Some(i) =>
      var rest := line[i + 1..];
      match IndexOf(rest, " ")
      case None =>
        CharBeforeFirstOccurrence(rest, ' ', |rest|);
        assert rest[..|rest|] == rest;
        Some(rest)
      case Some(j) =>
        CharBeforeFirstOccurrence(rest, ' ', j);
        Some(rest[..j])
  }

  /** The move carried by an engine line `bestmove <move> ...`, unless the
      engine reports `(none)` or the field is missing or empty. */
  function BestMove(line: string): (r: Option<string>)
  {
    if !StartsWith(line, "bestmove") then None
    else match SecondField(line)
      case Some(m) => if m != "" && m != "(none)" then Some(m) else None
      case None => None
  }

  /** Reading back a `bestmove` line yields the move it was written with. */
  lemma BestMoveReadsMove(m: string, tail: string)
    requires m != "" && m != "(none)" && ' ' !in m
    requires tail == [] || tail[0] == ' '
    ensures BestMove("bestmove " + m + tail) == Some(m)
  {
    var line := "bestmove " + m + tail;
    assert line[..8] == "bestmove";
    assert OccursAt(line, " ", 8);
    forall j | 0 <= j < 8 ensures !OccursAt(line, " ", j) {
      assert line[j..j + 1] == [line[j]];
    }
    var rest := line[9..];
    assert rest == m + tail;
    forall k | 0 <= k < |m| ensures !OccursAt(rest, " ", k) {
      assert rest[k..k + 1] == [m[k]];
    }
    if tail != [] {
      assert rest[|m|..|m| + 1] == " ";
      assert rest[..|m|] == m;
    } else {
      assert rest == m;
    }
  }

  /** The move the bot handler builds from an engine move string: characters
      0-1 are the from-square, 2-3 the to-square, character 4 (if any) the
      promotion letter, which otherwise defaults to 'q'. */
  function BotMoveInput(moveStr: string): MoveInput
  {
    MoveInput(Substring(moveStr, 0, 2), Substring(moveStr, 2, 4),
              if |moveStr| > 4 then Substring(moveStr, 4, 5) else "q")
  }

  /** A long algebraic move (two square names and an optional promotion
      letter) is read back into its squares and promotion. */
  lemma BotMoveOfLongAlgebraic(from: string, to: string, promotion: string)
    requires IsSquare(from) && IsSquare(to) && |promotion| <= 1
    ensures BotMoveInput(from + to + promotion)
              == MoveInput(from, to, if promotion == "" then "q" else promotion)
  {
    var s := from + to + promotion;
    assert Substring(s, 0, 2) == from;
    assert Substring(s, 2, 4) == to;
    if promotion != "" {
      assert Substring(s, 4, 5) == promotion;
    }
  }

  // ------------------------------------------------------------ clock

  /** One second of the side to move: a stopwatch adds one; a countdown takes
      one off, and when it is already at or below zero it stays at zero and
      reports the timeout. */
  function ClockStep(tc: TimeControl, prev: int): (r: (int, bool))
    ensures tc.Stopwatch? ==> r == (prev + 1, false)
    ensures !tc.Stopwatch? && prev > 0 ==> r == (prev - 1, false)
    ensures !tc.Stopwatch? && prev <= 0 ==> r == (0, true)
  {
    if tc.Stopwatch? then (prev + 1, false)
    else if prev <= 0 then (0, true)
    else (prev - 1, false)
  }

  /** The clock value after `k` ticks of one side (ticks after a timeout keep it at zero). */
  function ClockAfter(tc: TimeControl, v: int, k: nat): int
    decreases k
  {
    if k == 0 then v else ClockAfter(tc, ClockStep(tc, v).0, k - 1)
  }

  /** Whether one of the first `k` ticks of one side reports a timeout. */
  predicate TimedOutWithin(tc: TimeControl, v: int, k: nat)
    decreases k
  {
    k > 0 && (ClockStep(tc, v).1 || TimedOutWithin(tc, ClockStep(tc, v).0, k - 1))
  }

  /** A countdown from `n` seconds shows `n - k` after `k <= n` ticks of its
      side without timing out, and times out on tick `n + 1`. */
  lemma {:induction false} CountdownRunsOut(tc: TimeControl, n: nat, k: nat)
    requires tc.Countdown?
    requires k <= n
    ensures ClockAfter(tc, n, k) == n - k
    ensures !TimedOutWithin(tc, n, k)
    ensures TimedOutWithin(tc, n, n + 1)
  {
    if k > 0 {
      CountdownRunsOut(tc, n - 1, k - 1);
    } else if n > 0 {
      CountdownRunsOut(tc, n - 1, 0);
    }
  }

  /** A stopwatch never times out and counts up by one per tick. */
  lemma {:induction false} StopwatchNeverTimesOut(v: int, k: nat)
    ensures ClockAfter(Stopwatch, v, k) == v + k
    ensures !TimedOutWithin(Stopwatch, v, k)
    decreases k
  {
    if k > 0 {
      StopwatchNeverTimesOut(v + 1, k - 1);
    }
  }

  // ------------------------------------------------------------ result saving

  /** The player names the page was opened with. `opponent` is the name from
      the page address, absent or empty when none was given. */
  datatype Players = Players(player1: string, player2: string, opponent: Option<string>)

  /** JavaScript `a || b` on an optional string. */
  function TruthyOr(a: Option<string>, b: string): string
  {
    if a.Some? && a.value != "" then a.value else b
  }

  const StockfishName: string := "Computer (Stockfish)"

  /** The colour that delivered mate: the one not to move in the mated position. */
  function WinningColor(checkmatedTurn: Color): (c: string)
    ensures c == (if Opposite(checkmatedTurn) == White then "white" else "black")
  {
    if checkmatedTurn == White then "black" else "white"
  }

  /** The winner reported for a finished local game: on checkmate, the player
      of the winning colour (the computer in a bot game when that colour is not
      the player's); after a resignation, a placeholder; otherwise nobody. */
  function WinnerName(checkmate: bool, turn: Color, status: string, mode: Mode,
                      playerColor: string, g: Players): (w: Option<string>)
    ensures checkmate && mode == Bot && WinningColor(turn) != playerColor ==> w == Some("Computer")
    ensures checkmate && mode == Bot && WinningColor(turn) == playerColor ==>
              w == Some(if g.player1 != StockfishName then g.player1 else g.player2)
    ensures !checkmate && !Contains(ToLower(status), "resign") ==> w.None?
    ensures checkmate || Contains(ToLower(status), "resign") ==> w.Some?
  {
    if checkmate then
      var winning := WinningColor(turn);
      if mode == OfflineFriend then
        var p1 := if g.player1 != StockfishName && g.player1 != TruthyOr(g.opponent, "Friend")
                  then g.player1 else g.player2;
        var p2 := TruthyOr(g.opponent, if g.player2 == p1 then g.player1 else g.player2);
        Some(if winning == playerColor then p1 else p2)
      else if winning == playerColor then
        Some(if g.player1 != StockfishName then g.player1 else g.player2)
      else Some("Computer")
    else if Contains(ToLower(status), "resign") then
      Some(if mode == OfflineFriend then "Room for improvement" else "Computer")
    else None
  }

  /** The status text names as winner the same colour the saved result
      attributes the win to. */
  lemma CheckmateTextNamesWinner(rules: Rules, fen: string, mode: Mode, playerColor: string)
    requires rules.isGameOver(fen) && rules.isCheckmate(fen)
    ensures var s := StatusAfter(rules, fen, mode, playerColor);
            (WinningColor(rules.turn(fen)) == "white" <==> s[11..16] == "White") &&
            (WinningColor(rules.turn(fen)) == "black" <==> s[11..16] == "Black")
  {
  }

  /** The body of the save request sent for a finished local game. */
  datatype ResultData = ResultData(
    status: string, playerColor: string, fen: string, winner: Option<string>,
    opponentName: string, gameType: string)

  /** The request the client sends to save a finished local game. */
  function ResultFor(rules: Rules, fen: string, status: string, mode: Mode,
                     playerColor: string, username: string, g: Players): (r: ResultData)
    ensures r.gameType == (if mode == OfflineFriend then "OFFLINE FRIEND" else "BOT")
    ensures mode != OfflineFriend ==> r.opponentName == "Computer"
    ensures mode == OfflineFriend ==> r.opponentName in {g.player1, g.player2}
    ensures mode == OfflineFriend && g.player1 == username ==> r.opponentName == g.player2
    ensures mode == OfflineFriend && g.player1 != username ==> r.opponentName == g.player1
    ensures r.winner == WinnerName(rules.isCheckmate(fen), rules.turn(fen), status, mode, playerColor, g)
    ensures r.status == status && r.fen == fen && r.playerColor == playerColor
  {
    ResultData(status, playerColor, fen,
      WinnerName(rules.isCheckmate(fen), rules.turn(fen), status, mode, playerColor, g),
      if mode == OfflineFriend then (if g.player1 == username then g.player2 else g.player1) else "Computer",
      if mode == OfflineFriend then "OFFLINE FRIEND" else "BOT")
  }

  // ------------------------------------------------------------ wire moves

  /** The game status the client publishes with its move: FINISHED for
      checkmate, DRAW for any other finished position, else IN_PROGRESS. */
  function WireStatus(rules: Rules, fen: string): (s: string)
    ensures s in {"FINISHED", "DRAW", "IN_PROGRESS"}
    ensures s == "IN_PROGRESS" <==> !rules.isGameOver(fen)
  {
    if rules.isGameOver(fen) then (if rules.isCheckmate(fen) then "FINISHED" else "DRAW")
    else "IN_PROGRESS"
  }

  function RowOf(w: Option<WireSquare>): Option<int> { if w.Some? then Some(w.value.row) else None }
  function ColOf(w: Option<WireSquare>): Option<int> { if w.Some? then Some(w.value.col) else None }

  /** The move message the client publishes after its own accepted move. It
      carries no promotion piece and no captured piece. */
  function OutgoingMove(source: string, target: string, rec: MoveRecord, fenAfter: string,
                        board: Grid, status: string, playerColor: string, matchId: int): (m: MoveRequest)
    ensures IsSquare(source) && IsSquare(target) ==>
              m.fromRow.Some? && m.fromCol.Some? && m.toRow.Some? && m.toCol.Some? &&
              SquareName(m.fromRow.value, m.fromCol.value) == source &&
              SquareName(m.toRow.value, m.toCol.value) == target &&
              OnBoard(m.fromRow.value, m.fromCol.value) && OnBoard(m.toRow.value, m.toCol.value)
    ensures m.promotedTo.None? && m.capturedPiece.None? && m.isPromotion.None?
  {
    DecodesWhenSquare(source);
    DecodesWhenSquare(target);
    var f := EncodeSquare(source);
    var t := EncodeSquare(target);
    MoveRequest(RowOf(f), ColOf(f), RowOf(t), ColOf(t),
      Some(rec.piece), None, None, None, None, None, None, Some(fenAfter), Some(board),
      Some(rec.san), Some(status), Some(playerColor), Some(matchId))
  }

  /** The intended move message: the same fields, plus the promotion flag and
      the piece a promoting move promotes to, so that the opponent replays the
      same move and the stored UCI text names the piece. */
  function OutgoingMoveWithPromotion(source: string, target: string, rec: MoveRecord, fenAfter: string,
                                     board: Grid, status: string, playerColor: string, matchId: int): (m: MoveRequest)
    ensures rec.promotion != "" ==> m.promotedTo == Some(rec.promotion) && m.isPromotion == Some(true)
    ensures rec.promotion == "" ==> m.promotedTo.None? && m.isPromotion.None?
    ensures m.(promotedTo := None, isPromotion := None) ==
            OutgoingMove(source, target, rec, fenAfter, board, status, playerColor, matchId)
  {
    var m := OutgoingMove(source, target, rec, fenAfter, board, status, playerColor, matchId);
    if rec.promotion != "" then m.(promotedTo := Some(rec.promotion), isPromotion := Some(true)) else m
  }

  lemma DecodesWhenSquare(sq: string)
    ensures IsSquare(sq) ==>
              (EncodeSquare(sq).Some? &&
               OnBoard(EncodeSquare(sq).value.row, EncodeSquare(sq).value.col) &&
               SquareName(EncodeSquare(sq).value.row, EncodeSquare(sq).value.col) == sq)
  {
    if IsSquare(sq) {
      SquareNameOfEncoding(sq);
    }
  }

  /** A received coordinate: JavaScript arithmetic reads null as 0. */
  function Coord(c: Option<int>): int { if c.Some? then c.value else 0 }

  /** The move the client tries for a received message: squares decoded from
      row/column, promotion defaulting to 'q'. */
  function IncomingMove(m: MoveDto): (mv: MoveInput)
    ensures m.fromRow.Some? && m.fromCol.Some? ==> mv.from == SquareName(m.fromRow.value, m.fromCol.value)
    ensures m.toRow.Some? && m.toCol.Some? ==> mv.to == SquareName(m.toRow.value, m.toCol.value)
    ensures mv.promotion == TruthyOr(m.promotedTo, "q")
  {
    MoveInput(SquareName(Coord(m.fromRow), Coord(m.fromCol)), SquareName(Coord(m.toRow), Coord(m.toCol)),
              TruthyOr(m.promotedTo, "q"))
  }

  /** What the client publishes, besides moves. */
  datatype Outgoing =
    | PublishMove(request: MoveRequest)
    | PublishResign(resignMatchId: int)
    | PublishDrawOffer(offerMatchId: int)
    | PublishDrawAccept(acceptMatchId: int)
    | PublishDrawDecline(declineMatchId: int)

  datatype Modal = NoModal | ResignModal | DrawModal | DrawIncomingModal

  /** The fields of the loaded game that initialisation reads. */
  datatype InitialGameData = InitialGameData(
    fenCurrent: Option<string>, status: Option<string>, winner: Option<string>,
    moves: seq<MoveRecord>)

  /** The status text shown for a game that was already over when loaded. */
  function LoadedStatus(data: InitialGameData, username: string): (r: (bool, string))
    ensures r.0 <==> data.status.Some? && data.status.value in {"FINISHED", "RESIGNED", "DRAW"}
  {
    if data.status == Some("RESIGNED") then
      (true, if data.winner == Some(username) then "Game Over - Opponent Resigned" else "Game Over - You Resigned")
    else if data.status == Some("DRAW") then (true, "Game Over - Draw")
    else if data.status == Some("FINISHED") then (true, "Game Over")
    else (false, "Game started")
  }

  /** The FEN initialisation starts from: the loaded FEN when there is one that
      the library accepts, otherwise the standard start. */
  function LoadedFen(rules: Rules, data: InitialGameData): (f: string)
    ensures f == StartFen || (data.fenCurrent == Some(f) && rules.loads(f))
  {
    if data.fenCurrent.Some? && data.fenCurrent.value != "" && data.fenCurrent.value != "start"
       && rules.loads(data.fenCurrent.value)
    then data.fenCurrent.value else StartFen
  }

  // ------------------------------------------------------------ the component

  class Client {
    const rules: Rules
    const mode: Mode
    const playerColor: string
    const username: string
    const matchId: int
    const timeControl: TimeControl
    const players: Players

    /** FEN of the master game object. */
    var fen: string
    /** FEN of the `game` state object the page renders, and whether it is
        still the very object of the master game (it is until the first move). */
    var shownFen: string
    var shownIsMaster: bool
    var history: seq<MoveRecord>
    var status: string
    var gameOver: bool
    var myTurn: bool
    var whiteTime: int
    var blackTime: int
    var hasSaved: bool
    var saveRequests: seq<ResultData>
    ghost var saveFailures: nat
    var published: seq<Outgoing>
    var engineRequests: seq<string>
    var activeModal: Modal
    var incomingOffer: Option<GameStateMessage>
    var alerts: seq<string>

    /** Clocks never go negative, and the save latch is set exactly when one
        more save request has been sent than have failed. */
    ghost predicate Valid()
      reads this
    {
      whiteTime >= 0 && blackTime >= 0 &&
      |saveRequests| == saveFailures + (if hasSaved then 1 else 0)
    }

    /** The initialisation effect: load the position (falling back to the
        start), take the loaded history, derive the first turn flag, and mark a
        game that was already over. */
    constructor (rules: Rules, mode: Mode, playerColor: string, username: string, matchId: int,
                 timeControl: TimeControl, players: Players, data: InitialGameData)
      ensures Valid()
      ensures this.rules == rules && this.mode == mode && this.playerColor == playerColor
      ensures this.username == username && this.matchId == matchId
      ensures this.timeControl == timeControl && this.players == players
      ensures fen == LoadedFen(rules, data) && shownFen == fen && shownIsMaster
      ensures history == data.moves
      ensures myTurn == (mode == OfflineFriend || MyColorToMove(playerColor, rules.turn(fen)))
      ensures (gameOver, status) == LoadedStatus(data, username)
      ensures whiteTime == blackTime == (if timeControl.Countdown? then timeControl.seconds else 0)
      ensures !hasSaved && saveRequests == [] && published == [] && engineRequests == []
      ensures activeModal == NoModal && incomingOffer.None? && alerts == []
    {
      this.rules := rules;
      this.mode := mode;
      this.playerColor := playerColor;
      this.username := username;
      this.matchId := matchId;
      this.timeControl := timeControl;
      this.players := players;
      var start := LoadedFen(rules, data);
      fen := start;
      shownFen := start;
      shownIsMaster := true;
      history := data.moves;
      myTurn := mode == OfflineFriend || MyColorToMove(playerColor, rules.turn(start));
      var loaded := LoadedStatus(data, username);
      gameOver := loaded.0;
      status := loaded.1;
      var initial := if timeControl.Countdown? then timeControl.seconds else 0;
      whiteTime := initial;
      blackTime := initial;
      hasSaved := false;
      saveRequests := [];
      saveFailures := 0;
      published := [];
      engineRequests := [];
      activeModal := NoModal;
      incomingOffer := None;
      alerts := [];
    }

    /** safeMakeMove: try the move on a copy built from the FEN; only if the
        library accepts it, commit it to the master game, append exactly one
        record, and recompute status, game-over and turn from the new position.
        A rejected move leaves every field as it was. */
    method SafeMakeMove(mv: MoveInput) returns (r: Option<MoveRecord>)
      modifies this`fen, this`shownFen, this`shownIsMaster, this`history, this`status,
               this`gameOver, this`myTurn
      ensures r == rules.move(old(fen), mv)
      ensures r.None? ==> fen == old(fen) && shownFen == old(shownFen) && shownIsMaster == old(shownIsMaster)
      ensures r.None? ==> history == old(history) && status == old(status)
      ensures r.None? ==> gameOver == old(gameOver) && myTurn == old(myTurn)
      ensures r.Some? ==> fen == r.value.after && shownFen == fen && !shownIsMaster
      ensures r.Some? ==> history == old(history) + [r.value]
      ensures r.Some? ==> status == StatusAfter(rules, fen, mode, playerColor)
      ensures r.Some? ==> gameOver == rules.isGameOver(fen)
      ensures r.Some? ==> myTurn == NextIsMyTurn(rules, fen, mode, playerColor)
    {
      r := rules.move(fen, mv);
      if r.Some? {
        var after := r.value.after;
        fen := after;
        history := history + [r.value];
        status := StatusAfter(rules, after, mode, playerColor);
        gameOver := rules.isGameOver(after);
        myTurn := NextIsMyTurn(rules, after, mode, playerColor);
        shownFen := after;
        shownIsMaster := false;
      }
    }

    /** handleBotMove: ignored once the position is over or when it is not the
        bot's colour to move; otherwise the engine string is read as from, to
        and promotion (default 'q') and tried. */
    method HandleBotMove(moveStr: string)
      modifies this`fen, this`shownFen, this`shownIsMaster, this`history, this`status,
               this`gameOver, this`myTurn
      ensures var live := !rules.isGameOver(old(fen)) && BotToMove(playerColor, rules.turn(old(fen)));
              var res := rules.move(old(fen), BotMoveInput(moveStr));
              if live && res.Some? then
                fen == res.value.after && history == old(history) + [res.value] &&
                status == StatusAfter(rules, fen, mode, playerColor) &&
                gameOver == rules.isGameOver(fen) && myTurn == NextIsMyTurn(rules, fen, mode, playerColor) &&
                shownFen == fen && !shownIsMaster
              else
                fen == old(fen) && history == old(history) && status == old(status) &&
                gameOver == old(gameOver) && myTurn == old(myTurn) &&
                shownFen == old(shownFen) && shownIsMaster == old(shownIsMaster)
    {
      if rules.isGameOver(fen) {
        return;
      }
      if !BotToMove(playerColor, rules.turn(fen)) {
        return;
      }
      var _ := SafeMakeMove(BotMoveInput(moveStr));
    }

    /** The bot trigger effect (after its delay): in a bot game that is not
        over, when it is the bot's colour to move, ask the engine to search the
        current position and show that the computer is thinking. */
    method RequestEngineMove()
      modifies this`engineRequests, this`status
      ensures var asks := mode == Bot && !gameOver && BotToMove(playerColor, rules.turn(fen));
              if asks then engineRequests == old(engineRequests) + [fen] && status == "Computer is thinking..."
              else engineRequests == old(engineRequests) && status == old(status)
    {
      if mode == Bot && !gameOver && BotToMove(playerColor, rules.turn(fen)) {
        status := "Computer is thinking...";
        engineRequests := engineRequests + [fen];
      }
    }

    /** The engine's reply: a `bestmove` line with a move is played as a bot move. */
    method HandleEngineLine(line: string)
      modifies this`fen, this`shownFen, this`shownIsMaster, this`history, this`status,
               this`gameOver, this`myTurn
      ensures BestMove(line).None? ==> fen == old(fen) && history == old(history) && status == old(status)
      ensures BestMove(line).None? ==> gameOver == old(gameOver) && myTurn == old(myTurn)
      ensures |history| <= |old(history)| + 1
    {
      var m := BestMove(line);
      if m.Some? {
        HandleBotMove(m.value);
      }
    }

    /** One timer tick: nothing without a running clock or once the game is
        over; otherwise only the clock of the side to move steps, and a
        countdown already at zero ends the game as a draw by timeout. */
    method Tick()
      requires Valid()
      modifies this`whiteTime, this`blackTime, this`gameOver, this`status
      ensures Valid()
      ensures !ClockRuns(timeControl) || old(gameOver) ==>
                whiteTime == old(whiteTime) && blackTime == old(blackTime) &&
                gameOver == old(gameOver) && status == old(status)
      ensures ClockRuns(timeControl) && !old(gameOver) ==>
                var white := rules.turn(fen) == White;
                var step := ClockStep(timeControl, if white then old(whiteTime) else old(blackTime));
                (white ==> whiteTime == step.0 && blackTime == old(blackTime)) &&
                (!white ==> blackTime == step.0 && whiteTime == old(whiteTime)) &&
                (step.1 ==> gameOver && status == "Draw by Timeout") &&
                (!step.1 ==> gameOver == old(gameOver) && status == old(status))
    {
      if !ClockRuns(timeControl) || gameOver {
        return;
      }
      var timedOut: bool;
      if rules.turn(fen) == White {
        var step := ClockStep(timeControl, whiteTime);
        whiteTime, timedOut := step.0, step.1;
      } else {
        var step := ClockStep(timeControl, blackTime);
        blackTime, timedOut := step.0, step.1;
      }
      if timedOut {
        HandleTimeout();
      }
    }

    /** handleTimeout, as reached from a tick (the game is not over yet). */
    method HandleTimeout()
      modifies this`gameOver, this`status
      ensures gameOver && status == (if old(gameOver) then old(status) else "Draw by Timeout")
    {
      if gameOver {
        return;
      }
      gameOver := true;
      status := "Draw by Timeout";
    }

    /** onMove, the board's move callback: refused once over, or when it is not
        the player's turn outside offline play; otherwise the move is tried with
        the chosen promotion (default 'q') and, in an online game with a live
        connection, an accepted move is published with its row/column squares,
        the resulting FEN, the rendered board and the game status. */
    method OnMove(source: string, target: string, promotionPiece: Option<string>, connected: bool)
      returns (ok: bool)
      modifies this`fen, this`shownFen, this`shownIsMaster, this`history, this`status,
               this`gameOver, this`myTurn, this`published
      ensures old(gameOver) || (mode != OfflineFriend && !old(myTurn)) ==>
                !ok && fen == old(fen) && history == old(history) && published == old(published)
      ensures ok ==> |history| == |old(history)| + 1 && fen == history[|history| - 1].after
      ensures ok && mode != OfflineFriend && Alternates(rules) && MyColorToMove(playerColor, rules.turn(old(fen))) ==>
                !myTurn
      ensures ok <==> !old(gameOver) && (mode == OfflineFriend || old(myTurn)) &&
                      rules.move(old(fen), MoveInput(source, target, TruthyOr(promotionPiece, "q"))).Some?
      ensures ok ==>
                var rec := rules.move(old(fen), MoveInput(source, target, TruthyOr(promotionPiece, "q"))).value;
                fen == rec.after && history == old(history) + [rec] && shownFen == fen && !shownIsMaster &&
                status == StatusAfter(rules, fen, mode, playerColor) && gameOver == rules.isGameOver(fen) &&
                myTurn == NextIsMyTurn(rules, fen, mode, playerColor)
      ensures !ok ==>
                fen == old(fen) && shownFen == old(shownFen) && shownIsMaster == old(shownIsMaster) &&
                history == old(history) && status == old(status) && gameOver == old(gameOver) &&
                myTurn == old(myTurn)
      ensures ok && mode == Online && connected ==>
                published == old(published) + [PublishMove(OutgoingMove(source, target,
                  history[|history| - 1], fen,
                  rules.grid(if old(shownIsMaster) then fen else old(shownFen)),
                  WireStatus(rules, fen), playerColor, matchId))]
      ensures !(ok && mode == Online && connected) ==> published == old(published)
    {
      if gameOver {
        return false;
      }
      if mode != OfflineFriend && !myTurn {
        return false;
      }
      // The board is rendered from the `game` state of this render, which is
      // the master object only before the first move.
      var renderedFen := shownFen;
      var renderedIsMaster := shownIsMaster;
      var m := SafeMakeMove(MoveInput(source, target, TruthyOr(promotionPiece, "q")));
      if m.Some? && mode == Online && connected {
        var board := rules.grid(if renderedIsMaster then fen else renderedFen);
        var request := OutgoingMove(source, target, m.value, fen, board, WireStatus(rules, fen), playerColor, matchId);
        published := published + [PublishMove(request)];
      }
      ok := m.Some?;
      if ok && mode != OfflineFriend && Alternates(rules) && MyColorToMove(playerColor, rules.turn(old(fen))) {
        OwnMoveEndsTurn(rules, old(fen), MoveInput(source, target, TruthyOr(promotionPiece, "q")), mode, playerColor);
      }
    }

    /** The move-topic handler of an online game: a message sent by this user
        is dropped; any other is decoded and tried, and an accepted move is
        appended to the history a second time by the handler itself. */
    method ReceiveMove(m: MoveDto)
      modifies this`fen, this`shownFen, this`shownIsMaster, this`history, this`status,
               this`gameOver, this`myTurn
      ensures mode != Online || m.playerUsername == Some(username) ==>
                fen == old(fen) && history == old(history) && status == old(status) &&
                gameOver == old(gameOver) && myTurn == old(myTurn) &&
                shownFen == old(shownFen) && shownIsMaster == old(shownIsMaster)
      ensures mode == Online && m.playerUsername != Some(username) ==>
                var res := rules.move(old(fen), IncomingMove(m));
                if res.Some? then
                  fen == res.value.after && history == old(history) + [res.value, res.value] &&
                  shownFen == fen && !shownIsMaster &&
                  gameOver == rules.isGameOver(fen) && status == StatusAfter(rules, fen, mode, playerColor) &&
                  myTurn == NextIsMyTurn(rules, fen, mode, playerColor)
                else
                  fen == old(fen) && history == old(history) && status == old(status) &&
                  gameOver == old(gameOver) && myTurn == old(myTurn) &&
                  shownFen == old(shownFen) && shownIsMaster == old(shownIsMaster)
      ensures mode == Online && m.playerUsername != Some(username) && Alternates(rules) &&
              !MyColorToMove(playerColor, rules.turn(old(fen))) &&
              rules.move(old(fen), IncomingMove(m)).Some? && !gameOver ==>
                myTurn
    {
      if mode != Online || m.playerUsername == Some(username) {
        return;
      }
      var r := SafeMakeMove(IncomingMove(m));
      if r.Some? {
        history := history + [r.value];
      }
      if r.Some? && Alternates(rules) && !MyColorToMove(playerColor, rules.turn(old(fen))) &&
         !rules.isGameOver(r.value.after) {
        OpponentMoveGivesTurn(rules, old(fen), IncomingMove(m), mode, playerColor);
      }
    }

    /** The intended move-topic handler: the same guards as the handler as
        written, but an accepted move is recorded once, by the move itself. */
    method ReceiveMoveOnce(m: MoveDto)
      modifies this`fen, this`shownFen, this`shownIsMaster, this`history, this`status,
               this`gameOver, this`myTurn
      ensures |history| <= |old(history)| + 1
      ensures mode != Online || m.playerUsername == Some(username) ==>
                fen == old(fen) && history == old(history) && status == old(status) &&
                gameOver == old(gameOver) && myTurn == old(myTurn) &&
                shownFen == old(shownFen) && shownIsMaster == old(shownIsMaster)
      ensures mode == Online && m.playerUsername != Some(username) ==>
                var res := rules.move(old(fen), IncomingMove(m));
                if res.Some? then
                  fen == res.value.after && history == old(history) + [res.value] &&
                  shownFen == fen && !shownIsMaster &&
                  gameOver == rules.isGameOver(fen) && status == StatusAfter(rules, fen, mode, playerColor) &&
                  myTurn == NextIsMyTurn(rules, fen, mode, playerColor)
                else
                  fen == old(fen) && history == old(history) && status == old(status) &&
                  gameOver == old(gameOver) && myTurn == old(myTurn) &&
                  shownFen == old(shownFen) && shownIsMaster == old(shownIsMaster)
      ensures mode == Online && m.playerUsername != Some(username) && Alternates(rules) &&
              !MyColorToMove(playerColor, rules.turn(old(fen))) &&
              rules.move(old(fen), IncomingMove(m)).Some? && !gameOver ==>
                myTurn
    {
      if mode != Online || m.playerUsername == Some(username) {
        return;
      }
      var r := SafeMakeMove(IncomingMove(m));
          if r.Some? && Alternates(rules) && !MyColorToMove(playerColor, rules.turn(old(fen))) &&
         !rules.isGameOver(r.value.after) {
        OpponentMoveGivesTurn(rules, old(fen), IncomingMove(m), mode, playerColor);
      }
    }

    /** The game-state topic handler of an online game: a resignation or an
        accepted draw ends the game; a declined draw only alerts the player who
        offered it; anything else is ignored. */
    method ReceiveGameState(msg: GameStateMessage)
      modifies this`gameOver, this`status, this`alerts
      ensures mode != Online ==> gameOver == old(gameOver) && status == old(status) && alerts == old(alerts)
      ensures mode == Online && msg.Resignation? ==>
                gameOver && alerts == old(alerts) &&
                status == (if msg.player == username then "Game Over - You Resigned"
                           else "Game Over - " + msg.player + " left the match")
      ensures mode == Online && msg.DrawAccepted? ==>
                gameOver && status == "Game Over - Draw Accepted" && alerts == old(alerts)
      ensures mode == Online && msg.DrawDeclined? ==>
                gameOver == old(gameOver) && status == old(status) &&
                alerts == old(alerts) + (if msg.player != username then [msg.player + " declined the draw offer."] else [])
      ensures mode == Online && (msg.DrawOffer? || msg.OtherMessage?) ==>
                gameOver == old(gameOver) && status == old(status) && alerts == old(alerts)
    {
      if mode != Online {
        return;
      }
      match msg {
        case Resignation(player) =>
          gameOver := true;
          if player == username {
            status := "Game Over - You Resigned";
          } else {
            status := "Game Over - " + player + " left the match";
          }
        case DrawAccepted(_) =>
          gameOver := true;
          status := "Game Over - Draw Accepted";
        case DrawDeclined(player) =>
          if player != username {
            alerts := alerts + [player + " declined the draw offer."];
          }
        case DrawOffer(_, _) =>
        case OtherMessage(_) =>
      }
    }

    /** The private draw-offer queue handler: an offer for this match opens the
        incoming-offer dialog (replacing any earlier offer); others are ignored. */
    method ReceiveDrawOffer(msg: GameStateMessage)
      modifies this`incomingOffer, this`activeModal
      ensures mode == Online && msg.DrawOffer? && msg.offerMatchId == matchId ==>
                incomingOffer == Some(msg) && activeModal == DrawIncomingModal
      ensures !(mode == Online && msg.DrawOffer? && msg.offerMatchId == matchId) ==>
                incomingOffer == old(incomingOffer) && activeModal == old(activeModal)
    {
      if mode == Online && msg.DrawOffer? && msg.offerMatchId == matchId {
        incomingOffer := Some(msg);
        activeModal := DrawIncomingModal;
      }
    }

    /** handleResign: online with a connection the resignation is published and
        the result waits for the server's broadcast; otherwise the game ends at
        once as resigned by this player. */
    method HandleResign(connected: bool)
      modifies this`published, this`gameOver, this`status, this`activeModal
      ensures activeModal == NoModal
      ensures mode == Online && connected ==>
                published == old(published) + [PublishResign(matchId)] &&
                gameOver == old(gameOver) && status == old(status)
      ensures !(mode == Online && connected) ==>
                published == old(published) && gameOver && status == "Game Over - You Resigned"
    {
      if mode == Online && connected {
        published := published + [PublishResign(matchId)];
      } else {
        gameOver := true;
        status := "Game Over - You Resigned";
      }
      activeModal := NoModal;
    }

    /** handleDrawResponse (offering a draw): online it is published; the bot
        always declines; an offline friend's draw is accepted at once. */
    method HandleDrawOffer(connected: bool)
      modifies this`published, this`gameOver, this`status, this`activeModal, this`alerts
      ensures activeModal == NoModal
      ensures mode == Online && connected ==>
                published == old(published) + [PublishDrawOffer(matchId)] &&
                gameOver == old(gameOver) && status == old(status) && alerts == old(alerts)
      ensures mode == Bot ==>
                published == old(published) && gameOver == old(gameOver) && status == old(status) &&
                alerts == old(alerts) + ["Stockfish declined the draw."]
      ensures mode == OfflineFriend ==>
                published == old(published) && gameOver && status == "Game Over - Draw Accepted" &&
                alerts == old(alerts)
      ensures mode == Online && !connected ==>
                published == old(published) && gameOver == old(gameOver) && status == old(status) &&
                alerts == old(alerts)
    {
      if mode == Online && connected {
        published := published + [PublishDrawOffer(matchId)];
      } else if mode == Bot {
        alerts := alerts + ["Stockfish declined the draw."];
      } else if mode == OfflineFriend {
        gameOver := true;
        status := "Game Over - Draw Accepted";
      }
      activeModal := NoModal;
    }

    /** Accepting or declining an incoming offer publishes the answer when
        connected and closes the dialog. */
    method AnswerDrawOffer(accept: bool, connected: bool)
      modifies this`published, this`activeModal, this`incomingOffer
      ensures activeModal == NoModal && incomingOffer.None?
      ensures published == old(published) +
                (if connected then [if accept then PublishDrawAccept(matchId) else PublishDrawDecline(matchId)] else [])
    {
      if connected {
        published := published + [if accept then PublishDrawAccept(matchId) else PublishDrawDecline(matchId)];
      }
      activeModal := NoModal;
      incomingOffer := None;
    }

    /** The persistence effect: in a bot or offline game that is over and not
        yet saved, set the latch and send one save request. */
    method PersistResult()
      requires Valid()
      modifies this`hasSaved, this`saveRequests
      ensures Valid()
      ensures var fires := IsLocal(mode) && gameOver && !old(hasSaved);
              if fires then
                hasSaved && saveRequests == old(saveRequests) +
                  [ResultFor(rules, fen, status, mode, playerColor, username, players)]
              else hasSaved == old(hasSaved) && saveRequests == old(saveRequests)
    {
      if IsLocal(mode) && gameOver && !hasSaved {
        hasSaved := true;
        saveRequests := saveRequests + [ResultFor(rules, fen, status, mode, playerColor, username, players)];
      }
    }

    /** The failure callback of the outstanding save request resets the latch
        so that the save can be tried again. */
    method SaveFailed()
      requires Valid() && hasSaved
      modifies this`hasSaved, this`saveFailures
      ensures Valid() && !hasSaved && saveRequests == old(saveRequests)
    {
      hasSaved := false;
      saveFailures := saveFailures + 1;
    }

    // ---------------------------------------------------------- corrected handlers

    /** The intended bot-move handler: a game that has already ended (by a
        time-out or a resignation, say) stays ended; otherwise it behaves as
        handleBotMove. */
    method HandleBotMoveGuarded(moveStr: string)
      modifies this`fen, this`shownFen, this`shownIsMaster, this`history, this`status,
               this`gameOver, this`myTurn
      ensures old(gameOver) ==>
                gameOver && status == old(status) && fen == old(fen) && history == old(history) &&
                myTurn == old(myTurn) && shownFen == old(shownFen) && shownIsMaster == old(shownIsMaster)
      ensures !old(gameOver) ==>
                var live := !rules.isGameOver(old(fen)) && BotToMove(playerColor, rules.turn(old(fen)));
                var res := rules.move(old(fen), BotMoveInput(moveStr));
                if live && res.Some? then
                  fen == res.value.after && history == old(history) + [res.value] &&
                  status == StatusAfter(rules, fen, mode, playerColor) &&
                  gameOver == rules.isGameOver(fen) && myTurn == NextIsMyTurn(rules, fen, mode, playerColor) &&
                  shownFen == fen && !shownIsMaster
                else
                  fen == old(fen) && history == old(history) && status == old(status) &&
                  gameOver == old(gameOver) && myTurn == old(myTurn) &&
                  shownFen == old(shownFen) && shownIsMaster == old(shownIsMaster)
    {
      if gameOver {
        return;
      }
      HandleBotMove(moveStr);
    }

    /** The intended move-topic handler: a game that has already ended stays
        ended, and otherwise an accepted opponent move is recorded once. */
    method ReceiveMoveGuarded(m: MoveDto)
      modifies this`fen, this`shownFen, this`shownIsMaster, this`history, this`status,
               this`gameOver, this`myTurn
      ensures old(gameOver) || mode != Online || m.playerUsername == Some(username) ==>
                gameOver == old(gameOver) && status == old(status) && fen == old(fen) && history == old(history) &&
                myTurn == old(myTurn) && shownFen == old(shownFen) && shownIsMaster == old(shownIsMaster)
      ensures !old(gameOver) && mode == Online && m.playerUsername != Some(username) ==>
                var res := rules.move(old(fen), IncomingMove(m));
                if res.Some? then
                  fen == res.value.after && history == old(history) + [res.value] &&
                  shownFen == fen && !shownIsMaster &&
                  gameOver == rules.isGameOver(fen) && status == StatusAfter(rules, fen, mode, playerColor) &&
                  myTurn == NextIsMyTurn(rules, fen, mode, playerColor)
                else
                  fen == old(fen) && history == old(history) && status == old(status) &&
                  gameOver == old(gameOver) && myTurn == old(myTurn) &&
                  shownFen == old(shownFen) && shownIsMaster == old(shownIsMaster)
    {
      if gameOver {
        return;
      }
      ReceiveMoveOnce(m);
    }

    /** The intended onMove: the same guards and the same move, but the board
        sent with an online move is the position the move reached. */
    method OnMoveCurrentBoard(source: string, target: string, promotionPiece: Option<string>, connected: bool)
      returns (ok: bool)
      modifies this`fen, this`shownFen, this`shownIsMaster, this`history, this`status,
               this`gameOver, this`myTurn, this`published
      ensures ok <==> !old(gameOver) && (mode == OfflineFriend || old(myTurn)) &&
                      rules.move(old(fen), MoveInput(source, target, TruthyOr(promotionPiece, "q"))).Some?
      ensures ok ==>
                var rec := rules.move(old(fen), MoveInput(source, target, TruthyOr(promotionPiece, "q"))).value;
                fen == rec.after && history == old(history) + [rec] && shownFen == fen && !shownIsMaster &&
                status == StatusAfter(rules, fen, mode, playerColor) && gameOver == rules.isGameOver(fen) &&
                myTurn == NextIsMyTurn(rules, fen, mode, playerColor)
      ensures !ok ==>
                fen == old(fen) && shownFen == old(shownFen) && shownIsMaster == old(shownIsMaster) &&
                history == old(history) && status == old(status) && gameOver == old(gameOver) &&
                myTurn == old(myTurn)
      ensures ok && mode == Online && connected ==>
                published == old(published) + [PublishMove(OutgoingMove(source, target,
                  history[|history| - 1], fen, rules.grid(fen), WireStatus(rules, fen), playerColor, matchId))]
      ensures !(ok && mode == Online && connected) ==> published == old(published)
    {
      if gameOver {
        return false;
      }
      if mode != OfflineFriend && !myTurn {
        return false;
      }
      var m := SafeMakeMove(MoveInput(source, target, TruthyOr(promotionPiece, "q")));
      if m.Some? && mode == Online && connected {
        var request := OutgoingMove(source, target, m.value, fen, rules.grid(fen), WireStatus(rules, fen), playerColor, matchId);
        published := published + [PublishMove(request)];
      }
      ok := m.Some?;
    }
  }

  // ------------------------------------------------------------ as-written runs

  /** As written: a game that times out on a live position while the bot's
      reply is still pending is reopened by that reply; the game-over flag goes
      back to false and the time-out text is replaced. */
  method TimeoutThenBotMoveReopens(c: Client, moveStr: string)
    requires !c.gameOver && !c.rules.isGameOver(c.fen) && BotToMove(c.playerColor, c.rules.turn(c.fen))
    requires c.rules.move(c.fen, BotMoveInput(moveStr)).Some?
    requires !c.rules.isGameOver(c.rules.move(c.fen, BotMoveInput(moveStr)).value.after)
    modifies c
    ensures !c.gameOver && c.status != "Draw by Timeout"
  {
    c.HandleTimeout();
    c.HandleBotMove(moveStr);
    StatusAfterLiveIsNotTimeout(c.rules, c.fen, c.mode, c.playerColor);
  }

  /** With the guard, the same run keeps the time-out result. */
  method TimeoutThenGuardedBotMoveStays(c: Client, moveStr: string)
    requires !c.gameOver
    modifies c
    ensures c.gameOver && c.status == "Draw by Timeout"
  {
    c.HandleTimeout();
    c.HandleBotMoveGuarded(moveStr);
  }

  /** As written: an online game that timed out locally is reopened by an
      opponent move that arrives afterwards. */
  method TimeoutThenReceivedMoveReopens(c: Client, m: MoveDto)
    requires !c.gameOver && c.mode == Online && m.playerUsername != Some(c.username)
    requires c.rules.move(c.fen, IncomingMove(m)).Some?
    requires !c.rules.isGameOver(c.rules.move(c.fen, IncomingMove(m)).value.after)
    modifies c
    ensures !c.gameOver && c.status != "Draw by Timeout"
  {
    c.HandleTimeout();
    c.ReceiveMove(m);
    StatusAfterLiveIsNotTimeout(c.rules, c.fen, c.mode, c.playerColor);
  }

  /** With the guard, the same run keeps the time-out result. */
  method TimeoutThenGuardedReceiveStays(c: Client, m: MoveDto)
    requires !c.gameOver
    modifies c
    ensures c.gameOver && c.status == "Draw by Timeout"
  {
    c.HandleTimeout();
    c.ReceiveMoveGuarded(m);
  }

  /** As written: once a move has been made, the rendered game is a copy of
      that position, so the board sent with the player's next online move is
      the position before that move, while the FEN sent is the one after. */
  method NextMoveSendsPreviousBoard(c: Client, source: string, target: string, promotionPiece: Option<string>)
    requires c.mode == Online && !c.gameOver && c.myTurn
    requires !c.shownIsMaster && c.shownFen == c.fen
    requires c.rules.move(c.fen, MoveInput(source, target, TruthyOr(promotionPiece, "q"))).Some?
    modifies c
    ensures |c.published| > 0 && c.published[|c.published| - 1].PublishMove?
    ensures c.published[|c.published| - 1].request.board == Some(c.rules.grid(old(c.fen)))
    ensures c.published[|c.published| - 1].request.fenAfter == Some(c.fen)
  {
    var ok := c.OnMove(source, target, promotionPiece, true);
  }

  /** With the correction, the board sent is the position the move reached. */
  method NextMoveSendsCurrentBoard(c: Client, source: string, target: string, promotionPiece: Option<string>)
    requires c.mode == Online && !c.gameOver && c.myTurn
    requires c.rules.move(c.fen, MoveInput(source, target, TruthyOr(promotionPiece, "q"))).Some?
    modifies c
    ensures |c.published| > 0 && c.published[|c.published| - 1].PublishMove?
    ensures c.published[|c.published| - 1].request.board == Some(c.rules.grid(c.fen))
    ensures c.published[|c.published| - 1].request.fenAfter == Some(c.fen)
  {
    var ok := c.OnMoveCurrentBoard(source, target, promotionPiece, true);
  }
}
