# IndiChess: a verified model of the game, matchmaking and login core

IndiChess is a chess web application with two halves:

- **The React client.** `GameContainer.js` holds one game in the browser: a game against the Stockfish engine, an offline game between two friends on one screen, or an online game relayed over STOMP. `Board.js` turns clicks into moves.
- **The Spring back end.** The match service relays online moves and keeps the authoritative board and turn (`GameService`). It also pairs players through a waiting queue (`MatchService`) and runs private rooms with six-character codes (`OnlineMatchService`). It authenticates STOMP frames from a JWT (`WebSocketAuthInterceptor`), which the WebSocket handshake copies from the `JWT` cookie (`CustomHandshakeInterceptor`). The user service registers accounts and counts daily login streaks (`AuthService`), and provisions accounts on Google sign-in (`OAuth2SuccessHandler`).

This project models that core in Dafny and proves what each operation promises. It follows the form of the source:

- Pure helpers become functions with contracts.
- Stateful parts become classes whose methods update fields under `modifies` clauses:
  - the client component and its board;
  - the relay's in-memory games;
  - the matchmaking queue;
  - the user table and the match-service tables;
  - the STOMP session;
  - the handshake attributes.

Modules:

| module | models |
|---|---|
| `Common` | Option/Result, ASCII case mapping, `indexOf`, integer printing |
| `ChessOracle` | the chess.js library as an oracle: a `Rules` record of total functions over FEN positions (`move`, `turn`, `isGameOver`, `isCheckmate`, `isDraw`, `isStalemate`, `inCheck`, `moves`, `board`) |
| `Squares` | square names against wire rows and columns, shared by both client files |
| `Wire` | the move request, move DTO and game-state messages on the wire |
| `MatchStore` | the match-service tables: matches, moves (unique per match and ply), rooms, saved results, users |
| `GameContainer` | `GameContainer.js` as the class `Client` |
| `Board` | `Board.js` as the class `BoardClicks` |
| `GameService` | `GameService.java`: FEN, SAN and UCI encoders and the class `Relay` |
| `MatchService` | `MatchService.java` as the class `Matchmaker` |
| `OnlineMatchService` | `OnlineMatchService.java` as the class `OnlineMatches` |
| `AuthService` | `AuthService.java` as the class `UserStore` |
| `OAuthLogin` | `OAuth2SuccessHandler.java` |
| `TokenAuth` | `WebSocketAuthInterceptor.java` as the class `StompSession` |
| `Handshake` | `CustomHandshakeInterceptor.java` as the class `HandshakeSession` |
| `Integration` | properties that span the client and the back end: saved results, the login cookie reaching a STOMP frame, promotion on the wire |

## Model

| member | source | states |
|---|---|---|
| Squares.FileChar | frontend-chess/src/components/game-page-components/Board.js:34-38 | the file letter of a column is 'a' plus the column, for every column on the board |
| Squares.SquareName | frontend-chess/src/components/game-page-components/Board.js:34-38 | every on-board row/column gets a well-formed square name (file a-h, rank 1-8) |
| Squares.EncodeSquare | frontend-chess/src/components/game-page-components/GameContainer.js:400-403 | the sender's encoding gives coordinates exactly when the second character is a digit |
| Squares.EncodeSquareName | frontend-chess/src/components/game-page-components/GameContainer.js:265-266 | encoding the name of an on-board square gives back its row and column (round trip, receiver then sender) |
| Squares.SquareNameOfEncoding | frontend-chess/src/components/game-page-components/GameContainer.js:400-403 | a well-formed square encodes to an on-board row/column whose name is that square (round trip, sender then receiver) |
| Squares.SquareNameInjective | frontend-chess/src/components/game-page-components/Board.js:34-38 | two on-board squares with the same name are the same square |
| GameContainer.BotTurnIsNotMine | frontend-chess/src/components/game-page-components/GameContainer.js:104-105 | for a white or black player, the bot is to move exactly when the player is not |
| GameContainer.StatusAfter | frontend-chess/src/components/game-page-components/GameContainer.js:59-76 | the status is terminal exactly when the position is over; checkmate names the side that did not move; then draw, stalemate, "Game Over"; a live position in check reads "Check!" |
| GameContainer.OwnMoveEndsTurn | frontend-chess/src/components/game-page-components/GameContainer.js:79-80 | outside offline-friend mode, after the player's own legal move it is no longer their turn |
| GameContainer.OpponentMoveGivesTurn | frontend-chess/src/components/game-page-components/GameContainer.js:79-80 | after the opponent's legal move, if the game goes on, it is the player's turn |
| GameContainer.SecondField | frontend-chess/src/components/game-page-components/GameContainer.js:175 | the second space-separated field of an engine line contains no space |
| GameContainer.BestMoveReadsMove | frontend-chess/src/components/game-page-components/GameContainer.js:174-179 | a `bestmove m ...` line yields exactly `m` |
| GameContainer.BotMoveOfLongAlgebraic | frontend-chess/src/components/game-page-components/GameContainer.js:111-116 | an engine move `from to [p]` is read as from-square, to-square and promotion, with 'q' when none is given |
| GameContainer.ClockStep | frontend-chess/src/components/game-page-components/GameContainer.js:191-214 | a stopwatch counts up and never times out; a countdown counts down while positive and signals time-out at zero |
| GameContainer.CountdownRunsOut | frontend-chess/src/components/game-page-components/GameContainer.js:191-218 | a countdown from n is at n - k after k ticks, does not time out in the first n ticks, and does time out by tick n + 1 |
| GameContainer.StopwatchNeverTimesOut | frontend-chess/src/components/game-page-components/GameContainer.js:191-214 | a stopwatch shows v + k after k ticks and never times out |
| GameContainer.WinningColor | frontend-chess/src/components/game-page-components/GameContainer.js:490-491 | the winner is the colour opposite to the side to move in the mated position |
| GameContainer.WinnerName | frontend-chess/src/components/game-page-components/GameContainer.js:488-522 | in bot games checkmate names the player or "Computer" by colour; a winner is named exactly on checkmate or a resignation status |
| GameContainer.CheckmateTextNamesWinner | frontend-chess/src/components/game-page-components/GameContainer.js:61 | the colour in the checkmate text is the winning colour |
| GameContainer.ResultFor | frontend-chess/src/components/game-page-components/GameContainer.js:486-531 | the saved result carries the status, FEN and colour and the winner computed from the position; against a friend the opponent is the seat the user is not in, against the bot "Computer"; the game type follows the mode |
| GameContainer.WireStatus | frontend-chess/src/components/game-page-components/GameContainer.js:395-397 | the status sent with a move is IN_PROGRESS exactly when the game is not over, otherwise FINISHED or DRAW |
| GameContainer.OutgoingMove | frontend-chess/src/components/game-page-components/GameContainer.js:399-415 | a sent move carries coordinates that name its own squares, and no promotion or captured piece |
| GameContainer.OutgoingMoveWithPromotion | frontend-chess/src/components/game-page-components/GameContainer.js:399-415 | corrected payload: carries the promotion piece exactly when the move promoted, otherwise equal to the sent move |
| GameContainer.IncomingMove | frontend-chess/src/components/game-page-components/GameContainer.js:265-271 | a received move is read from the named squares, promotion defaulting to 'q' |
| GameContainer.LoadedStatus | frontend-chess/src/components/game-page-components/GameContainer.js:146-157 | a loaded game is over exactly when its stored status is FINISHED, RESIGNED or DRAW |
| GameContainer.LoadedFen | frontend-chess/src/components/game-page-components/GameContainer.js:123-131 | the loaded position is the stored FEN when chess.js accepts it, otherwise the start position |
| GameContainer.Client.constructor | frontend-chess/src/components/game-page-components/GameContainer.js:118-160 | the initial state: loaded position and history, turn from the position, clocks from the time control, nothing saved or sent |
| GameContainer.Client.SafeMakeMove | frontend-chess/src/components/game-page-components/GameContainer.js:39-97 | a rejected move changes nothing; an accepted move commits the new position, appends exactly one record and sets status, game over and turn |
| GameContainer.Client.HandleBotMove | frontend-chess/src/components/game-page-components/GameContainer.js:99-117 | when the game is live and it is the bot's turn, the engine move is played as by SafeMakeMove (new position, history, status, flags and the board shown from the new position); otherwise nothing changes |
| GameContainer.Client.RequestEngineMove | frontend-chess/src/components/game-page-components/GameContainer.js:228-249 | the engine is asked for the current position exactly in a live bot game on the bot's turn |
| GameContainer.Client.HandleEngineLine | frontend-chess/src/components/game-page-components/GameContainer.js:168-181 | a line without a best move changes nothing; at most one move is added |
| GameContainer.Client.Tick | frontend-chess/src/components/game-page-components/GameContainer.js:191-218 | when the clock runs and the game is live, only the side to move's clock steps, and a time-out ends the game as a draw |
| GameContainer.Client.HandleTimeout | frontend-chess/src/components/game-page-components/GameContainer.js:220-225 | the game is over afterwards, with "Draw by Timeout" unless it was already over |
| GameContainer.Client.OnMove | frontend-chess/src/components/game-page-components/GameContainer.js:379-423 | a drop succeeds exactly when the game is live, it is the player's turn (or offline friend mode) and the move is legal. Success commits that one record and sets the FEN, status, game-over flag and turn from the new position; under alternating turns the player's own move ends their turn. A refusal changes none of these. An online success publishes one move message |
| GameContainer.Client.ReceiveMove | frontend-chess/src/components/game-page-components/GameContainer.js:252-283 | as written: own echoes are ignored; an accepted opponent move is appended to the history twice, and sets the FEN, status, game-over flag and turn from the new position; under alternating turns a move that does not end the game gives the turn to the player; a rejected move changes nothing |
| GameContainer.Client.ReceiveMoveOnce | frontend-chess/src/components/game-page-components/GameContainer.js:252-283 | corrected: the same guards and the same new state as the handler as written, with exactly one record appended per accepted opponent move |
| GameContainer.Client.HandleBotMoveGuarded | frontend-chess/src/components/game-page-components/GameContainer.js:99-117 | corrected: a game whose game-over flag is set stays as it is; otherwise exactly HandleBotMove |
| GameContainer.Client.ReceiveMoveGuarded | frontend-chess/src/components/game-page-components/GameContainer.js:252-283 | corrected: a game whose game-over flag is set stays as it is; otherwise exactly ReceiveMoveOnce |
| GameContainer.Client.OnMoveCurrentBoard | frontend-chess/src/components/game-page-components/GameContainer.js:379-423 | corrected: OnMove with the board of the position reached in the move message |
| GameContainer.TimeoutThenBotMoveReopens | frontend-chess/src/components/game-page-components/GameContainer.js:99-117 | as written: after a time-out on a live position, a pending bot reply clears the game-over flag and replaces "Draw by Timeout" |
| GameContainer.TimeoutThenGuardedBotMoveStays | frontend-chess/src/components/game-page-components/GameContainer.js:220-225 | corrected: after a time-out, the guarded bot reply keeps the game over with "Draw by Timeout" |
| GameContainer.TimeoutThenReceivedMoveReopens | frontend-chess/src/components/game-page-components/GameContainer.js:252-283 | as written: after a local time-out, an opponent move clears the game-over flag and replaces "Draw by Timeout" |
| GameContainer.TimeoutThenGuardedReceiveStays | frontend-chess/src/components/game-page-components/GameContainer.js:220-225 | corrected: after a time-out, the guarded move handler keeps the game over with "Draw by Timeout" |
| GameContainer.NextMoveSendsPreviousBoard | frontend-chess/src/components/game-page-components/GameContainer.js:404-407 | as written: once a move has been made, the next online move message carries the board before that move and the FEN after it |
| GameContainer.NextMoveSendsCurrentBoard | frontend-chess/src/components/game-page-components/GameContainer.js:404-407 | corrected: the move message carries the board of the position whose FEN it carries |
| GameContainer.Client.ReceiveGameState | frontend-chess/src/components/game-page-components/GameContainer.js:286-316 | a resignation or accepted draw ends the game with its text; a decline by the other player raises an alert |
| GameContainer.Client.ReceiveDrawOffer | frontend-chess/src/components/game-page-components/GameContainer.js:319-350 | an offer for this match is stored and opens the incoming-offer dialog; anything else changes nothing |
| GameContainer.Client.HandleResign | frontend-chess/src/components/game-page-components/GameContainer.js:426-439 | online and connected it publishes a resignation; otherwise it ends the game locally as resigned |
| GameContainer.Client.HandleDrawOffer | frontend-chess/src/components/game-page-components/GameContainer.js:441-457 | online it publishes an offer; the bot declines; an offline friend draw ends the game |
| GameContainer.Client.AnswerDrawOffer | frontend-chess/src/components/game-page-components/GameContainer.js:459-479 | the answer is published when connected, and the dialog and offer are cleared |
| GameContainer.Client.PersistResult | frontend-chess/src/components/game-page-components/GameContainer.js:482-534 | a local finished game is saved exactly once, with the result computed by ResultFor |
| GameContainer.Client.SaveFailed | frontend-chess/src/components/game-page-components/GameContainer.js:543-546 | a failed save re-arms the latch without losing earlier requests |
| Board.FindTo | frontend-chess/src/components/game-page-components/Board.js:48 | finds the first listed move to the square, and none exactly when no move goes there |
| Board.PromotionLetter | frontend-chess/src/components/game-page-components/Board.js:110-114 | the chosen piece always maps to one of q, r, b, n |
| Board.PromotionLetterOfChoice | frontend-chess/src/components/game-page-components/Board.js:110-114 | a choice that names q, r, b or n maps to that letter |
| Board.BoardClicks.constructor | frontend-chess/src/components/game-page-components/Board.js:17-22 | the board starts with no selection, no moves and no promotion pending |
| Board.BoardClicks.ClearSelection | frontend-chess/src/components/game-page-components/Board.js:105-108 | the selection and the move list are cleared |
| Board.BoardClicks.HandleSquareClick | frontend-chess/src/components/game-page-components/Board.js:40-103 | off turn nothing changes. Otherwise, exactly: a listed non-promotion target of the selection is dropped and the selection cleared; a listed promotion target opens the chooser with that move pending and drops nothing; the player's own unselected piece becomes the selection with its legal moves; a re-click on the selection and every other click clear it |
| Board.BoardClicks.ClosePromotion | frontend-chess/src/components/game-page-components/Board.js:270 | closing the dialog hides it and keeps the waiting move |
| Board.BoardClicks.HandlePromotionSelect | frontend-chess/src/components/game-page-components/Board.js:110-119 | the pending move is dropped with the chosen letter, and the chooser, pending move and selection are cleared |
| GameService.RunText | backend/match-service/src/main/java/com/example/matchservice/service/GameService.java:410-419 | a run of empty squares is written as its count, nothing for zero |
| GameService.RowFenRoundTrip | backend/match-service/src/main/java/com/example/matchservice/service/GameService.java:404-419 | expanding the FEN of a rank gives back its eight cells, and it contains no space or slash |
| GameService.FenPlacementRoundTrip | backend/match-service/src/main/java/com/example/matchservice/service/GameService.java:403-423 | splitting the placement at slashes gives eight ranks, each expanding to its board row |
| GameService.BoardFenFields | backend/match-service/src/main/java/com/example/matchservice/service/GameService.java:425-428 | the FEN is the placement, the side to move ('w' or 'b') and " KQkq - 0 1" |
| GameService.Placement | backend/match-service/src/main/java/com/example/matchservice/service/GameService.java:403-423 | the loop builds the placement field of the board |
| GameService.AppendRank | backend/match-service/src/main/java/com/example/matchservice/service/GameService.java:404-419 | the inner loop appends the FEN of one rank |
| GameService.ConvertBoardToFen | backend/match-service/src/main/java/com/example/matchservice/service/GameService.java:400-431 | a board of at least 8 by 8 gives its FEN; a smaller one is an error |
| GameService.InitialRanks | backend/match-service/src/main/java/com/example/matchservice/service/GameService.java:150-160 | the ranks of the initial board have the standard FEN texts |
| GameService.InitialBoardIsStart | backend/match-service/src/main/java/com/example/matchservice/service/GameService.java:150-167 | the initial board with white to move is the standard starting FEN |
| GameService.ColToFile | backend/match-service/src/main/java/com/example/matchservice/service/GameService.java:283-285 | the file of a column is a single letter, 'a' plus the column |
| GameService.CreateMoveNotation | backend/match-service/src/main/java/com/example/matchservice/service/GameService.java:263-281 | castling gives O-O or O-O-O by target file; other moves end in the target square |
| GameService.MoveNotationReadsBack | backend/match-service/src/main/java/com/example/matchservice/service/GameService.java:263-281 | the notation reads back as piece letter (none for pawns), capture flag and target square |
| GameService.UciPromotion | backend/match-service/src/main/java/com/example/matchservice/service/GameService.java:343-354 | a promotion suffix is added only for a promotion to q, r, b or n in either case |
| GameService.CreateUci | backend/match-service/src/main/java/com/example/matchservice/service/GameService.java:329-360 | empty exactly when a coordinate is missing; otherwise from-square, to-square and promotion suffix |
| GameService.UciDecodes | backend/match-service/src/main/java/com/example/matchservice/service/GameService.java:329-360 | the two squares of a UCI string decode back to the request's coordinates |
| GameService.NextPly | backend/match-service/src/main/java/com/example/matchservice/service/GameService.java:302-306 | the next ply treats a missing ply as 0 and is at least 1 |
| GameService.PlyBookkeeping | backend/match-service/src/main/java/com/example/matchservice/service/GameService.java:312-314 | ply 1 is white's move 1; colours alternate; the move number goes up after black's ply |
| GameService.RelayedMove | backend/match-service/src/main/java/com/example/matchservice/service/GameService.java:240-260 | the relayed move copies the coordinates and pieces, carries the flipped turn, the mover and the new board |
| GameService.MoveRejection | backend/match-service/src/main/java/com/example/matchservice/service/GameService.java:175-206 | an accepted request has every coordinate, a piece, a colour and a board, names a live game, and comes from the player whose turn it is, in that colour |
| GameService.OnlyTheMoverIsAccepted | backend/match-service/src/main/java/com/example/matchservice/service/GameService.java:193-206 | once one player's move is acceptable, the other player's is refused with "Not your turn" |
| GameService.DetermineMyTurnForMatch | backend/match-service/src/main/java/com/example/matchservice/service/GameService.java:136-148 | without a live game exactly player1 is to move; with one, exactly player1 on white's turn and player2 on black's |
| GameService.Relay.constructor | backend/match-service/src/main/java/com/example/matchservice/service/GameService.java:25-35 | the relay starts with no live games |
| GameService.Relay.DetermineMyTurn | backend/match-service/src/main/java/com/example/matchservice/service/GameService.java:387-398 | true only for a live game and the player of the colour to move |
| GameService.Relay.ExactlyOneToMove | backend/match-service/src/main/java/com/example/matchservice/service/GameService.java:387-398 | of two different players exactly one is to move |
| GameService.Relay.GetOpponentUsername | backend/match-service/src/main/java/com/example/matchservice/service/GameService.java:500-510 | player1's opponent is player2 and vice versa; an outsider or unknown game has none |
| GameService.Relay.OpponentIsSymmetric | backend/match-service/src/main/java/com/example/matchservice/service/GameService.java:500-510 | the opponent's opponent is the player |
| GameService.Relay.UpdateMatchInDatabase | backend/match-service/src/main/java/com/example/matchservice/service/GameService.java:287-327 | an unknown match changes nothing; a known one gets the next ply, one new move row under a fresh (match, ply) key, its new FEN and last UCI move, and nothing else changes |
| GameService.Relay.ProcessMove | backend/match-service/src/main/java/com/example/matchservice/service/GameService.java:172-261 | a rejected move changes nothing; an accepted one replaces the board, flips the turn once, stores the move row and the match's new FEN, last move and ply (nothing for an unknown match), sets the result on the room linked to the match for a final status (no room changes when the match is unknown or unlinked) and returns the relayed move |
| GameService.Relay.HandleResignation | backend/match-service/src/main/java/com/example/matchservice/service/GameService.java:433-444 | without a live game nothing changes; otherwise the live game becomes RESIGNED and the room linked to the match records RESIGNED with the opponent as winner; no room changes when the match is unknown or unlinked |
| GameService.Relay.HandleDrawAccept | backend/match-service/src/main/java/com/example/matchservice/service/GameService.java:446-454 | without a live game nothing changes; otherwise the live game becomes DRAW and the room linked to the match records a draw without a winner; no room changes when the match is unknown or unlinked |
| GameService.Relay.HandlePlayerJoin | backend/match-service/src/main/java/com/example/matchservice/service/GameService.java:362-385 | an unknown match is "Game not found"; a known one is loaded into the live games once, and the reply carries the turn and FEN |
| GameService.Relay.GetGameDetails | backend/match-service/src/main/java/com/example/matchservice/service/GameService.java:88-148 | refuses without a principal, for an unknown match and for a non-participant, in that order; otherwise loads a missing live game, and answers with white exactly for player1, the turn read before loading, the live status, board and the board's FEN |
| MatchStore.ParseStatus | backend/match-service/src/main/java/com/example/matchservice/service/OnlineMatchService.java:118 | a name parses to the status with that name, and fails exactly when no status has it |
| MatchStore.MatchDb.constructor | backend/match-service/src/main/java/com/example/matchservice/service/GameService.java:19-23 | the tables start empty |
| MatchStore.MatchDb.InsertMatch | backend/match-service/src/main/java/com/example/matchservice/service/MatchService.java:51 | a new match is stored under a fresh id |
| MatchStore.MatchDb.RecordMove | backend/match-service/src/main/java/com/example/matchservice/service/GameService.java:301-320 | a move row is stored under a (match, ply) key not used before, and the match gets its new ply |
| MatchService.MyTurnIsNextPlyColour | backend/match-service/src/main/java/com/example/matchservice/service/MatchService.java:121-129 | it is a player's turn exactly when player1 matches the colour of the next ply; exactly one player is to move |
| MatchService.GameDetailsFor | backend/match-service/src/main/java/com/example/matchservice/service/MatchService.java:131-177 | unauthenticated, unknown and non-participant requests are refused; a participant, and only a participant, gets the details: white exactly when player1, the turn from the ply, and the match's players, ply, FEN and time limit copied |
| MatchService.MatchmakingStartPlyMisleads | backend/match-service/src/main/java/com/example/matchservice/service/MatchService.java:51 | as written: a matchmade game starts at ply 1, so the stored turn names black first while the relay starts with white |
| MatchService.StartAtPlyZeroAgrees | backend/match-service/src/main/java/com/example/matchservice/service/OnlineMatchService.java:92 | corrected: starting at ply 0 makes player1 (white) first, in agreement with the relay |
| MatchService.BotStatus | backend/match-service/src/main/java/com/example/matchservice/service/MatchService.java:204-213 | checkmate gives FINISHED, then resign gives RESIGNED, then draw or stalemate gives DRAW, otherwise FINISHED |
| MatchService.BotWinner | backend/match-service/src/main/java/com/example/matchservice/service/MatchService.java:216-219 | a draw has no winner; otherwise the reported winner is kept |
| MatchService.SavedResult | backend/match-service/src/main/java/com/example/matchservice/service/MatchService.java:215-228 | the saved row names the caller, maps the status, drops the winner on a draw and keeps the requested winner otherwise, and defaults to "Computer" and "BOT" |
| MatchService.Matchmaker.constructor | backend/match-service/src/main/java/com/example/matchservice/service/MatchService.java:20-21 | nobody waits and no match is pending |
| MatchService.Matchmaker.CreateMatch | backend/match-service/src/main/java/com/example/matchservice/service/MatchService.java:37-70 | no principal gives nothing; otherwise the caller is paired with another waiting player in a new match, or waits (-1) when nobody can be paired |
| MatchService.Matchmaker.CheckMatch | backend/match-service/src/main/java/com/example/matchservice/service/MatchService.java:72-97 | a waiting caller gets -1; a pending match of the caller is handed out once and both players leave the queue |
| MatchService.Matchmaker.CancelWaiting | backend/match-service/src/main/java/com/example/matchservice/service/MatchService.java:99-112 | true exactly when the caller was waiting, and afterwards the caller is not waiting |
| MatchService.Matchmaker.SaveBotMatch | backend/match-service/src/main/java/com/example/matchservice/service/MatchService.java:179-233 | an unknown caller saves nothing; otherwise the Computer user exists and exactly one result is appended |
| OnlineMatchService.AlphabetHasNoLookalikes | backend/match-service/src/main/java/com/example/matchservice/service/OnlineMatchService.java:127 | the room alphabet has 32 characters, none of I, O, 0 or 1 |
| OnlineMatchService.CodeAt | backend/match-service/src/main/java/com/example/matchservice/service/OnlineMatchService.java:130-133 | six draws give a well-formed room code |
| OnlineMatchService.HostIsWhiteCases | backend/match-service/src/main/java/com/example/matchservice/service/OnlineMatchService.java:84 | the host is white exactly when the colour is "white" ignoring case |
| OnlineMatchService.StatusFromName | backend/match-service/src/main/java/com/example/matchservice/service/OnlineMatchService.java:117-121 | an unknown status name falls back to FINISHED |
| OnlineMatchService.StatusFromNameRoundTrip | backend/match-service/src/main/java/com/example/matchservice/service/OnlineMatchService.java:117-121 | every status is read back from its name, in upper or lower case |
| OnlineMatchService.OnlineMatches.constructor | backend/match-service/src/main/java/com/example/matchservice/service/OnlineMatchService.java:25-29 | the service works on the given tables |
| OnlineMatchService.OnlineMatches.GenerateUniqueRoomCode | backend/match-service/src/main/java/com/example/matchservice/service/OnlineMatchService.java:126-136 | the code is the first unused six-draw code; every earlier candidate was taken, or the draws ran out |
| OnlineMatchService.OnlineMatches.CreateRoom | backend/match-service/src/main/java/com/example/matchservice/service/OnlineMatchService.java:32-42 | an unknown host is refused; otherwise exactly one new room under an unused code, with no guest and the time limit |
| OnlineMatchService.OnlineMatches.JoinRoom | backend/match-service/src/main/java/com/example/matchservice/service/OnlineMatchService.java:45-67 | the four refusals in order; a success sets exactly the guest, never the host |
| OnlineMatchService.OnlineMatches.SetupMatch | backend/match-service/src/main/java/com/example/matchservice/service/OnlineMatchService.java:70-102 | a room with a guest gets a new match at ply 0 from the start FEN, with players by host colour, and is linked to it |
| OnlineMatchService.OnlineMatches.UpdateMatchResult | backend/match-service/src/main/java/com/example/matchservice/service/OnlineMatchService.java:109-124 | an unknown match or room changes nothing; otherwise the one room linked to the match gets the parsed status and the winner, and no other room changes |
| OnlineMatchService.RoomsWithResultCases | backend/match-service/src/main/java/com/example/matchservice/service/OnlineMatchService.java:109-124 | reporting a result leaves the rooms as they are for an unknown or unlinked match, and rewrites only the linked room when exactly one is linked |
| AuthService.NextStreak | backend/user-service/src/main/java/com/example/userservice/service/AuthService.java:75-88 | first login starts at 1, the next day adds 1, a longer gap restarts at 1, the same day keeps the streak |
| AuthService.LoginKeepsStreakConsistent | backend/user-service/src/main/java/com/example/userservice/service/AuthService.java:73-90 | after any login the streak is at least 1 |
| AuthService.ConsecutiveLogins | backend/user-service/src/main/java/com/example/userservice/service/AuthService.java:79-83 | n daily logins after the first give a streak of n + 1 |
| AuthService.UserStore.constructor | backend/user-service/src/main/java/com/example/userservice/service/AuthService.java:13-19 | the table starts empty |
| AuthService.UserStore.Insert | backend/user-service/src/main/java/com/example/userservice/model/User.java:16-19 | a new row is refused exactly when the username or email is taken |
| AuthService.UserStore.Save | backend/user-service/src/main/java/com/example/userservice/service/AuthService.java:21-42 | a taken username, then a taken email, is refused with nothing stored; a free username and email are always saved, as one new row with the encoded password and rating 250 |
| AuthService.UserStore.UpdateUser | backend/user-service/src/main/java/com/example/userservice/service/AuthService.java:48-71 | an unknown user is refused; a changed username or email is checked against others; a success changes exactly those two fields |
| AuthService.UserStore.UpdateStreak | backend/user-service/src/main/java/com/example/userservice/service/AuthService.java:73-92 | only the streak and last-login day of that user change, and streak consistency is kept |
| OAuthLogin.EmailLocalPart | backend/user-service/src/main/java/com/example/userservice/oauth/OAuth2SuccessHandler.java:50 | the part before the first '@' (the whole address without one); none for an address of only '@' |
| OAuthLogin.DerivedUsername | backend/user-service/src/main/java/com/example/userservice/oauth/OAuth2SuccessHandler.java:50 | a name keeps its length and each character becomes its lower-case form, with '_' for a space; without a name, the local part of the email |
| OAuthLogin.TokenCookie | backend/user-service/src/main/java/com/example/userservice/oauth/OAuth2SuccessHandler.java:56-61 | the cookie is named JWT, HttpOnly, path "/", max age 3600, not secure |
| OAuthLogin.NewAccount | backend/user-service/src/main/java/com/example/userservice/oauth/OAuth2SuccessHandler.java:47-52 | the new account has the derived username, the email and rating 250 |
| OAuthLogin.OnAuthenticationSuccess | backend/user-service/src/main/java/com/example/userservice/oauth/OAuth2SuccessHandler.java:28-63 | no email redirects to the login error page; a known email changes nothing; a new email adds one account; both set the token cookie |
| OAuthLogin.NameSubjectIsNotUsername | backend/user-service/src/main/java/com/example/userservice/oauth/OAuth2SuccessHandler.java:43-52 | as written: for the name "John Doe" the token subject differs from the stored username |
| OAuthLogin.FindOrCreateAccount | backend/user-service/src/main/java/com/example/userservice/oauth/OAuth2SuccessHandler.java:45-54 | a known email keeps its account; a new one gets an account under the derived username, or fails with nothing stored; the result holds the email |
| OAuthLogin.OnAuthenticationSuccessFixed | backend/user-service/src/main/java/com/example/userservice/oauth/OAuth2SuccessHandler.java:43-62 | corrected: the same account effects, and the cookie's token is signed for the username of the account holding the email, which no other account has |
| TokenAuth.ExtractToken | backend/match-service/src/main/java/com/example/matchservice/config/WebSocketAuthInterceptor.java:63-83 | a Bearer header wins; then the text after the first "token=" in the query; then the session attribute |
| TokenAuth.BearerRoundTrip | backend/match-service/src/main/java/com/example/matchservice/config/WebSocketAuthInterceptor.java:64-69 | a Bearer header yields its token |
| TokenAuth.QueryRoundTrip | backend/match-service/src/main/java/com/example/matchservice/config/WebSocketAuthInterceptor.java:72-75 | a query "token=t" yields t when no Bearer header is present |
| TokenAuth.StompSession.constructor | backend/match-service/src/main/java/com/example/matchservice/config/WebSocketAuthInterceptor.java:31-34 | no user is authenticated at first |
| TokenAuth.StompSession.PreSend | backend/match-service/src/main/java/com/example/matchservice/config/WebSocketAuthInterceptor.java:31-61 | the message is returned unchanged; a user is set only when none was set and the token names one |
| Handshake.FirstJwtCookie | backend/match-service/src/main/java/com/example/matchservice/config/CustomHandshakeInterceptor.java:26-31 | the index of the first cookie named exactly JWT, and none exactly when there is no such cookie |
| Handshake.HandshakeSession.constructor | backend/match-service/src/main/java/com/example/matchservice/config/CustomHandshakeInterceptor.java:18-19 | the session starts with the given attributes |
| Handshake.HandshakeSession.BeforeHandshake | backend/match-service/src/main/java/com/example/matchservice/config/CustomHandshakeInterceptor.java:18-38 | always proceeds; stores the first JWT cookie's value under jwtToken, otherwise leaves the attributes alone |
| Integration.TerminalTextSavedStatus | backend/match-service/src/main/java/com/example/matchservice/service/MatchService.java:204-213 | every terminal status text of the client is saved as DRAW (draw, stalemate) or FINISHED |
| Integration.SessionEndTextsSavedStatus | backend/match-service/src/main/java/com/example/matchservice/service/MatchService.java:204-213 | the resignation, time-out and accepted-draw texts are saved as RESIGNED, DRAW and DRAW |
| Integration.SavedLocalResultAgreesWithPosition | frontend-chess/src/components/game-page-components/GameContainer.js:524-531 | a local game saved after a finished position gets the same status as its position and no winner on a draw |
| Integration.LoginCookieReachesFrame | backend/match-service/src/main/java/com/example/matchservice/config/CustomHandshakeInterceptor.java:26-31 | the JWT cookie set at login is found at the handshake and extracted from a STOMP frame |
| Integration.ConnectWithLoginCookie | backend/match-service/src/main/java/com/example/matchservice/config/WebSocketAuthInterceptor.java:38-53 | a handshake with the login cookie followed by a frame authenticates the token's user |
| Integration.PromotionLostOnRelay | frontend-chess/src/components/game-page-components/GameContainer.js:399-415 | as written: an under-promotion arrives as a queen and is missing from the stored UCI move |
| Integration.PromotionSurvivesRelay | frontend-chess/src/components/game-page-components/GameContainer.js:265-271 | corrected: with the promotion on the wire, the receiver plays the same piece and the UCI move records it |

## Left out

- Chess rules (legality, check, mate, draw, FEN parsing) are the chess.js library. They are the oracle `ChessOracle.Rules`, and only the few facts the proofs need (turns alternate after a legal move) are stated as assumptions of lemmas.
- The Stockfish worker and its UCI handshake are input/output. Engine lines are an input to `HandleEngineLine`.
- STOMP/SockJS connection and subscription, `fetch`, and redirects are transport. Handlers run on delivered messages, and sent messages are appended to a `published` list.
- `setInterval`/`setTimeout` are modelled as explicit `Tick` and `RequestEngineMove` steps. The delays themselves are not modelled.
- `ConcurrentHashMap` and `synchronized` blocks concern threads only. The model runs one call at a time.
- JWT signing and parsing are function parameters (`sign`, `extractUsername`). A parse that throws is a `None` result.
- BCrypt is the `encode` parameter of `UserStore.Save`.
- `java.util.Random` in room codes is a finite sequence of draws. GenerateUniqueRoomCode returns none when the draws run out, where the source would keep drawing.
- Dates are day numbers. The time of day and time zones are not modelled.
- Iteration order of Java hash maps is not known. Searches over the waiting queue and the user table choose any matching entry.
- Bean validation annotations on entities are not modelled.
- A null OAuth password is modelled as the empty string. The Computer user's other fields are not modelled.
- Java `toLowerCase`/`toUpperCase` and JavaScript `toLowerCase` are modelled on ASCII letters only.
- `StringUtils.hasText` on the Bearer header is implied by the "Bearer " prefix. A null first Authorization header is not modelled.
- MatchService.SavedResult: a null status in `saveBotMatch` (a NullPointerException in the source) is not modelled; the status is a string.
- The "Database error" wrapping in `save` is not modelled: the repository call cannot fail here.
- GameService.Relay.HandlePlayerJoin: a match whose player2 is null is not modelled. The same holds in `getGameDetailsForFrontend`.
- Player ids from `createPlayerInfo`, `createdAt`/`startedAt` timestamps and the move list in game details are not modelled.
- The id returned by `saveBotMatch` is the row's position in the results table.
- `handleDrawOffer`, `handleDrawDecline`, `getPlayerColor` and `getRoomStatus` only forward messages or read rows, and are not modelled.
- The `beforeunload` guard, `getBoard` rendering and the other presentation components are not modelled.
- The MatchStatus enum file is not part of this model. Its constants are taken to be IN_PROGRESS, FINISHED, RESIGNED and DRAW.
- GameContainer.WireStatus: the client keeps a master game with its full move history (GameContainer.js:41-49). The status sent with an online move (lines 395-397), the bot-move guard (line 101) and the saved result (lines 486-490) read that master game. The status text and the game-over flag come from a copy rebuilt from the FEN alone (lines 44, 59-63). Draws that depend on the history, such as threefold repetition, are therefore not modelled: WireStatus, StatusAfter, HandleBotMove, PersistResult and SavedLocalResultAgreesWithPosition all read the game end from the FEN through `rules.isGameOver`.
- GameContainer.Client.HandleEngineLine: its contract states only that a line without a best move changes nothing and that at most one move is added. The move it plays is HandleBotMove's, whose contract is exact.

## Findings

| source | as written | input that shows it | evidently intended | confidence | as-written member | corrected member |
|---|---|---|---|---|---|---|
| frontend-chess/src/components/game-page-components/GameContainer.js:274-276 | the move handler appends the result of `safeMakeMove` to the history, which `safeMakeMove` has already done (line 85) | any accepted opponent move in an online game | one history record per move | high, not executed | GameContainer.Client.ReceiveMove | GameContainer.Client.ReceiveMoveOnce |
| frontend-chess/src/components/game-page-components/GameContainer.js:399-415 | the move message sent after the player's own move has no promotion piece, and the receiver defaults a missing piece to 'q' (line 271) | a pawn promoting to a knight ("n") | the opponent replays the same promotion, and the stored UCI move ends in the piece | high, not executed | Integration.PromotionLostOnRelay | GameContainer.OutgoingMoveWithPromotion (proved in Integration.PromotionSurvivesRelay) |
| backend/user-service/src/main/java/com/example/userservice/oauth/OAuth2SuccessHandler.java:43-52 | the JWT subject is the raw Google name, while the stored username is that name lower-cased with '_' for spaces | the name "John Doe": subject "John Doe", username "john_doe" | the token names the stored account | medium, not executed | OAuthLogin.NameSubjectIsNotUsername | OAuthLogin.OnAuthenticationSuccessFixed |
| backend/match-service/src/main/java/com/example/matchservice/service/MatchService.java:51 | a matchmade game starts at ply 1, while `determineIfMyTurn` (lines 121-129) treats even plies as white's turn | any new matchmade game: details report black (player2) to move while the relay starts with white | start at ply 0, as `setupMatch` does | medium, not executed | MatchService.MatchmakingStartPlyMisleads | MatchService.StartAtPlyZeroAgrees |
| frontend-chess/src/components/game-page-components/GameContainer.js:99-101 | neither `handleBotMove` nor the move handler (lines 252-283) checks the game-over flag; the bot reply comes after a 1500 ms delay (line 178), the guards check only the position, and `safeMakeMove` then sets the flag from the new position (line 87) | a bot game whose clock runs out on a live position while the bot's reply waits out its 1500 ms delay | a game that has ended stays ended | high, not executed | GameContainer.TimeoutThenBotMoveReopens | GameContainer.Client.HandleBotMoveGuarded (proved in GameContainer.TimeoutThenGuardedBotMoveStays) |
| frontend-chess/src/components/game-page-components/GameContainer.js:252-283 | the move handler applies an opponent move after the local clock has ended the game | an online game that times out locally before the opponent's next move arrives | a game that has ended stays ended | medium, not executed | GameContainer.TimeoutThenReceivedMoveReopens | GameContainer.Client.ReceiveMoveGuarded (proved in GameContainer.TimeoutThenGuardedReceiveStays) |
| frontend-chess/src/components/game-page-components/GameContainer.js:404-407 | the move message's board is read from the rendered `game` state, which after the first move is a copy of the previous position (line 89), while its FEN is the new one; the server stores that board and derives the game-details FEN from it (GameService.java:118-119) | the player's second online move | the board and the FEN describe the same position | high, not executed | GameContainer.NextMoveSendsPreviousBoard | GameContainer.Client.OnMoveCurrentBoard (proved in GameContainer.NextMoveSendsCurrentBoard) |
