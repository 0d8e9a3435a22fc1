/** How the pieces fit together across the client and the services: the
    status text a finished local game is saved with, the login token's way
    from the OAuth cookie through the WebSocket handshake to the STOMP frame,
    and what a promoting move looks like after the relay. */
module Integration {
  import opened Common
  import opened ChessOracle
  import opened Squares
  import opened Wire
  import GameContainer
  import GameService
  import MatchService
  import Handshake
  import TokenAuth
  import OAuthLogin

  // ------------------------------------------------- saved local results

  /** A word whose letters all differ from the lower-cased characters of
      `s` at one position does not occur in the lower-cased text. */
  lemma LowerMissingChar(s: string, word: string, k: nat)
    requires k < |word| && forall j :: 0 <= j < |s| ==> LowerChar(s[j]) != word[k]
    ensures !Contains(ToLower(s), word)
  {
    MissingCharNotContained(ToLower(s), word, k);
  }

  /** A word that the lower-cased characters of `s` spell from position `i`
      occurs in the lower-cased text. */
  lemma LowerSpells(s: string, word: string, i: nat)
    requires i + |word| <= |s|
    requires forall j :: 0 <= j < |word| ==> LowerChar(s[i + j]) == word[j]
    ensures Contains(ToLower(s), word)
  {
    var lower := ToLower(s);
    assert lower[i..i + |word|] == word;
    ContainsAt(lower, word, i);
  }

  /** The lower-cased checkmate text names checkmate. */
  lemma CheckmateTextNamesCheckmate(s: string)
    requires StartsWith(s, "Checkmate!")
    ensures Contains(ToLower(s), "checkmate")
  {
    assert s[..10] == "Checkmate!";
    assert forall j :: 0 <= j < 9 ==> s[j] == "Checkmate!"[j];
    LowerSpells(s, "checkmate", 0);
  }

  // Each fact about a status text is a lemma of its own, which keeps every
  // proof about a literal small.

  lemma DrawTextNoCheckmate()
    ensures !Contains(ToLower("Draw!"), "checkmate")
  {
    LowerMissingChar("Draw!", "checkmate", 0);
  }

  lemma DrawTextNoResign()
    ensures !Contains(ToLower("Draw!"), "resign")
  {
    LowerMissingChar("Draw!", "resign", 1);
  }

  lemma DrawTextDraw()
    ensures Contains(ToLower("Draw!"), "draw")
  {
    LowerSpells("Draw!", "draw", 0);
  }

  lemma StalemateTextNoCheckmate()
    ensures !Contains(ToLower("Stalemate!"), "checkmate")
  {
    LowerMissingChar("Stalemate!", "checkmate", 1);
  }

  lemma StalemateTextNoResign()
    ensures !Contains(ToLower("Stalemate!"), "resign")
  {
    LowerMissingChar("Stalemate!", "resign", 0);
  }

  lemma StalemateTextStalemate()
    ensures Contains(ToLower("Stalemate!"), "stalemate")
  {
    LowerSpells("Stalemate!", "stalemate", 0);
  }

  lemma GameOverTextNoCheckmate()
    ensures !Contains(ToLower("Game Over"), "checkmate")
  {
    LowerMissingChar("Game Over", "checkmate", 0);
  }

  lemma GameOverTextNoResign()
    ensures !Contains(ToLower("Game Over"), "resign")
  {
    LowerMissingChar("Game Over", "resign", 2);
  }

  lemma GameOverTextNoDraw()
    ensures !Contains(ToLower("Game Over"), "draw")
  {
    LowerMissingChar("Game Over", "draw", 0);
  }

  lemma GameOverTextNoStalemate()
    ensures !Contains(ToLower("Game Over"), "stalemate")
  {
    LowerMissingChar("Game Over", "stalemate", 0);
  }

  lemma ResignedTextNoCheckmate()
    ensures !Contains(ToLower("Game Over - You Resigned"), "checkmate")
  {
    LowerMissingChar("Game Over - You Resigned", "checkmate", 0);
  }

  lemma ResignedTextResign()
    ensures Contains(ToLower("Game Over - You Resigned"), "resign")
  {
    LowerSpells("Game Over - You Resigned", "resign", 16);
  }

  lemma TimeoutTextNoCheckmate()
    ensures !Contains(ToLower("Draw by Timeout"), "checkmate")
  {
    LowerMissingChar("Draw by Timeout", "checkmate", 0);
  }

  lemma TimeoutTextNoResign()
    ensures !Contains(ToLower("Draw by Timeout"), "resign")
  {
    LowerMissingChar("Draw by Timeout", "resign", 2);
  }

  lemma TimeoutTextDraw()
    ensures Contains(ToLower("Draw by Timeout"), "draw")
  {
    LowerSpells("Draw by Timeout", "draw", 0);
  }

  lemma AgreedTextNoCheckmate()
    ensures !Contains(ToLower("Game Over - Draw Accepted"), "checkmate")
  {
    LowerMissingChar("Game Over - Draw Accepted", "checkmate", 1);
  }

  lemma AgreedTextNoResign()
    ensures !Contains(ToLower("Game Over - Draw Accepted"), "resign")
  {
    LowerMissingChar("Game Over - Draw Accepted", "resign", 2);
  }

  lemma AgreedTextDraw()
    ensures Contains(ToLower("Game Over - Draw Accepted"), "draw")
  {
    LowerSpells("Game Over - Draw Accepted", "draw", 12);
  }

  lemma DrawTextIsDraw()
    ensures MatchService.BotStatus("Draw!") == "DRAW"
  {
    DrawTextNoCheckmate();
    DrawTextNoResign();
    DrawTextDraw();
  }

  lemma StalemateTextIsDraw()
    ensures MatchService.BotStatus("Stalemate!") == "DRAW"
  {
    StalemateTextNoCheckmate();
    StalemateTextNoResign();
    StalemateTextStalemate();
  }

  lemma GameOverTextIsFinished()
    ensures MatchService.BotStatus("Game Over") == "FINISHED"
  {
    GameOverTextNoCheckmate();
    GameOverTextNoResign();
    GameOverTextNoDraw();
    GameOverTextNoStalemate();
  }

  /** The server files each terminal status text of the client under the
      status the text names: checkmate and a bare "Game Over" as FINISHED,
      "Draw!" and "Stalemate!" as DRAW. */
  lemma TerminalTextSavedStatus(s: string)
    requires GameContainer.IsTerminalText(s)
    ensures MatchService.BotStatus(s) == (if s == "Draw!" || s == "Stalemate!" then "DRAW" else "FINISHED")
  {
    if StartsWith(s, "Checkmate!") {
      CheckmateTextNamesCheckmate(s);
      assert s[0] == 'C';
    } else if s == "Draw!" {
      DrawTextIsDraw();
    } else if s == "Stalemate!" {
      StalemateTextIsDraw();
    } else {
      GameOverTextIsFinished();
    }
  }

  lemma ResignTextIsResigned()
    ensures MatchService.BotStatus("Game Over - You Resigned") == "RESIGNED"
  {
    ResignedTextNoCheckmate();
    ResignedTextResign();
  }

  lemma TimeoutTextIsDraw()
    ensures MatchService.BotStatus("Draw by Timeout") == "DRAW"
  {
    TimeoutTextNoCheckmate();
    TimeoutTextNoResign();
    TimeoutTextDraw();
  }

  lemma AgreedDrawTextIsDraw()
    ensures MatchService.BotStatus("Game Over - Draw Accepted") == "DRAW"
  {
    AgreedTextNoCheckmate();
    AgreedTextNoResign();
    AgreedTextDraw();
  }

  /** The texts that end a game by resignation, timeout or agreement are
      filed as RESIGNED, DRAW and DRAW. */
  lemma SessionEndTextsSavedStatus()
    ensures MatchService.BotStatus("Game Over - You Resigned") == "RESIGNED"
    ensures MatchService.BotStatus("Draw by Timeout") == "DRAW"
    ensures MatchService.BotStatus("Game Over - Draw Accepted") == "DRAW"
  {
    ResignTextIsResigned();
    TimeoutTextIsDraw();
    AgreedDrawTextIsDraw();
  }

  /** A local game that ends in checkmate, a draw or stalemate is saved with
      the status the client would publish for that position, under the
      player's name, with the client's game type, and with no winner for a
      draw. */
  lemma SavedLocalResultAgreesWithPosition(rules: Rules, fen: string, mode: GameContainer.Mode,
                                           playerColor: string, username: string, g: GameContainer.Players)
    requires rules.isGameOver(fen)
    requires rules.isCheckmate(fen) || rules.isDraw(fen) || rules.isStalemate(fen)
    ensures var text := GameContainer.StatusAfter(rules, fen, mode, playerColor);
            var r := GameContainer.ResultFor(rules, fen, text, mode, playerColor, username, g);
            var saved := MatchService.SavedResult(username,
                           MatchService.BotResult(r.status, r.winner, Some(r.gameType), Some(r.opponentName)));
            saved.status == GameContainer.WireStatus(rules, fen) &&
            saved.player1Name == username && saved.gameType == r.gameType &&
            saved.player2Name == r.opponentName &&
            (saved.status == "DRAW" ==> saved.winnerName.None?)
  {
    var text := GameContainer.StatusAfter(rules, fen, mode, playerColor);
    TerminalTextSavedStatus(text);
  }

  // ------------------------------------------------- the login token

  /** The handshake files the token under the key the STOMP interceptor
      reads last, and looks for the cookie the OAuth login sets. */
  lemma TokenKeysAgree()
    ensures Handshake.TokenAttribute == TokenAuth.SessionTokenKey
    ensures OAuthLogin.JwtCookieName == "JWT"
  {
  }

  /** The token cookie the OAuth login sets is the first token cookie of a
      request whose earlier cookies carry other names, and a frame without an
      Authorization header or query then carries exactly that token through
      the session attributes the handshake filled. */
  lemma {:induction false} LoginCookieReachesFrame(jwt: string, before: seq<Handshake.RequestCookie>,
                                                   after: seq<Handshake.RequestCookie>, attrs: map<string, string>)
    requires forall j :: 0 <= j < |before| ==> before[j].name != OAuthLogin.JwtCookieName
    ensures var c := OAuthLogin.TokenCookie(jwt);
            var cookies := before + [Handshake.RequestCookie(c.name, c.value)] + after;
            Handshake.FirstJwtCookie(cookies) == Some(|before|) &&
            TokenAuth.ExtractToken(TokenAuth.StompHeaders(None, None,
              Some(attrs[Handshake.TokenAttribute := cookies[|before|].value]))) == Some(jwt)
  {
    var c := OAuthLogin.TokenCookie(jwt);
    var cookies := before + [Handshake.RequestCookie(c.name, c.value)] + after;
    assert cookies[|before|].name == "JWT";
    var r := Handshake.FirstJwtCookie(cookies);
    assert r.Some?;
    var h := TokenAuth.StompHeaders(None, None, Some(attrs[Handshake.TokenAttribute := cookies[|before|].value]));
    assert !TokenAuth.HasBearer(h);
  }

  /** A connection made with the login cookie: the handshake stores the
      token, and the first frame of the session is then authenticated as the
      user the token names. */
  method ConnectWithLoginCookie<M>(handshake: Handshake.HandshakeSession, stomp: TokenAuth.StompSession,
                                   jwt: string, before: seq<Handshake.RequestCookie>,
                                   after: seq<Handshake.RequestCookie>, frame: M,
                                   extractUsername: string -> Option<string>)
    returns (out: M)
    requires forall j :: 0 <= j < |before| ==> before[j].name != OAuthLogin.JwtCookieName
    requires stomp.user.None?
    modifies handshake, stomp
    ensures out == frame
    ensures handshake.attributes == old(handshake.attributes)[Handshake.TokenAttribute := jwt]
    ensures extractUsername(jwt).Some? ==> stomp.user == extractUsername(jwt) && stomp.securityContext == stomp.user
    ensures extractUsername(jwt).None? ==> stomp.user.None?
  {
    var c := OAuthLogin.TokenCookie(jwt);
    var cookies := before + [Handshake.RequestCookie(c.name, c.value)] + after;
    LoginCookieReachesFrame(jwt, before, after, handshake.attributes);
    var _ := handshake.BeforeHandshake(true, Some(cookies));
    out := stomp.PreSend(frame, Some(TokenAuth.StompHeaders(None, None, Some(handshake.attributes))), extractUsername);
  }

  // ------------------------------------------------- promotions on the wire

  /** As written: whatever piece the mover promoted to, the opponent's client
      replays the relayed move as a promotion to a queen, and the stored UCI
      text names no promotion at all. */
  lemma PromotionLostOnRelay(source: string, target: string, rec: MoveRecord, fenAfter: string,
                             board: Grid, status: string, playerColor: string, matchId: int,
                             newBoard: Grid, whiteTurnAfter: bool, sender: string)
    requires IsSquare(source) && IsSquare(target)
    ensures var req := GameContainer.OutgoingMove(source, target, rec, fenAfter, board, status, playerColor, matchId);
            var dto := GameService.RelayedMove(matchId, req, newBoard, whiteTurnAfter, sender);
            GameContainer.IncomingMove(dto) == MoveInput(source, target, "q") &&
            GameService.CreateUci(req) == source + target
    ensures rec.promotion != "" && rec.promotion != "q" ==>
              var req := GameContainer.OutgoingMove(source, target, rec, fenAfter, board, status, playerColor, matchId);
              GameContainer.IncomingMove(GameService.RelayedMove(matchId, req, newBoard, whiteTurnAfter, sender)).promotion
                != rec.promotion
  {
  }

  /** Corrected: with the promotion piece on the message, the opponent
      replays the very move that was made, and the stored UCI text ends with
      the piece letter. */
  lemma PromotionSurvivesRelay(source: string, target: string, rec: MoveRecord, fenAfter: string,
                               board: Grid, status: string, playerColor: string, matchId: int,
                               newBoard: Grid, whiteTurnAfter: bool, sender: string)
    requires IsSquare(source) && IsSquare(target)
    requires rec.promotion in {"q", "r", "b", "n"}
    ensures var req := GameContainer.OutgoingMoveWithPromotion(source, target, rec, fenAfter, board, status, playerColor, matchId);
            var dto := GameService.RelayedMove(matchId, req, newBoard, whiteTurnAfter, sender);
            GameContainer.IncomingMove(dto) == MoveInput(source, target, rec.promotion) &&
            GameService.CreateUci(req) == source + target + rec.promotion
  {
    var req := GameContainer.OutgoingMoveWithPromotion(source, target, rec, fenAfter, board, status, playerColor, matchId);
    var plain := GameContainer.OutgoingMove(source, target, rec, fenAfter, board, status, playerColor, matchId);
    assert req.fromRow == plain.fromRow && req.fromCol == plain.fromCol;
    assert req.toRow == plain.toRow && req.toCol == plain.toCol;
    assert ToLower(rec.promotion) == rec.promotion;
  }
}
