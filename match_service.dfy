/** Matchmaking and saved local results (MatchService.java): a player asking
    for a match is paired with some other waiting player, or waits; the
    waiting player learns the pairing by polling once; a participant may
    read a match's details; and a finished bot or offline game is saved
    with a normalised status and winner. */
module MatchService {
  import opened Common
  import opened MatchStore
  import opened GameService

  /** `determineIfMyTurn`: a null ply counts as zero, white (player1) moves
      on even plies. */
  predicate DetermineIfMyTurn(currentPly: Option<nat>, isPlayer1: bool)
  {
    var whiteTurn := PlyOf(currentPly) % 2 == 0;
    (isPlayer1 && whiteTurn) || (!isPlayer1 && !whiteTurn)
  }

  /** It is a player's turn exactly when the next stored ply has their
      colour: player1 owns the white plies and player2 the black ones. */
  lemma MyTurnIsNextPlyColour(currentPly: Option<nat>, isPlayer1: bool)
    ensures DetermineIfMyTurn(currentPly, isPlayer1) <==>
              (isPlayer1 <==> ColorOfPly(NextPly(currentPly)) == WhiteColor)
    ensures DetermineIfMyTurn(currentPly, true) != DetermineIfMyTurn(currentPly, false)
  {
  }

  /** A match as the details endpoint reports it to one of its players. */
  datatype GameDetails = GameDetails(
    matchId: int, player1: string, player2: string, status: string, playerColor: string,
    isMyTurn: bool, currentPly: Option<nat>, fenCurrent: Option<string>, timeLimit: Option<int>)

  /** getGameDetailsForFrontend: it needs a principal, an existing match and
      a caller who plays in it; player1 is told white, player2 black. */
  function GameDetailsFor(matches: map<int, Match>, matchId: int, principal: Option<string>): (r: Result<GameDetails>)
    ensures principal.None? <==> r == Err("Not authenticated")
    ensures principal.Some? && matchId !in matches <==> r == Err("Game not found")
    ensures r == Err("Not authorized to view this game") <==>
              principal.Some? && matchId in matches &&
              principal.value != matches[matchId].player1 && principal.value != matches[matchId].player2
    ensures r.Ok? <==>
              principal.Some? && matchId in matches &&
              (principal.value == matches[matchId].player1 || principal.value == matches[matchId].player2)
    ensures r.Ok? ==>
              var m := matches[matchId];
              principal.Some? && matchId in matches &&
              (principal.value == m.player1 || principal.value == m.player2) &&
              r.value.player1 == m.player1 && r.value.player2 == m.player2 &&
              r.value.currentPly == m.currentPly && r.value.fenCurrent == m.fenCurrent &&
              r.value.timeLimit == m.timeLimit &&
              (r.value.playerColor == "white" <==> principal.value == m.player1) &&
              (r.value.playerColor == "black" <==> principal.value != m.player1) &&
              r.value.isMyTurn == DetermineIfMyTurn(m.currentPly, principal.value == m.player1) &&
              r.value.matchId == matchId && r.value.status == StatusName(m.status)
  {
    if principal.None? then Err("Not authenticated")
    else if matchId !in matches then Err("Game not found")
    else
      var m := matches[matchId];
      var username := principal.value;
      var isPlayer1 := m.player1 == username;
      var isPlayer2 := m.player2 == username;
      if !isPlayer1 && !isPlayer2 then Err("Not authorized to view this game")
      else
        Ok(GameDetails(matchId, m.player1, m.player2, StatusName(m.status),
                       if isPlayer1 then "white" else "black",
                       DetermineIfMyTurn(m.currentPly, isPlayer1), m.currentPly, m.fenCurrent, m.timeLimit))
  }

  /** The ply a matchmaking match is created at (`new Match(.., IN_PROGRESS, 1)`). */
  const MatchmakingStartPly: nat := 1

  /** As written: a matchmaking match starts at ply 1, so the details
      endpoint tells player2 (black) that it is their turn while the relay
      waits for player1 (white), and the first move, white's, is stored as
      ply 2 with colour BLACK. */
  lemma MatchmakingStartPlyMisleads(m: Match)
    requires m.currentPly == Some(MatchmakingStartPly)
    ensures !DetermineIfMyTurn(m.currentPly, true) && DetermineIfMyTurn(m.currentPly, false)
    ensures DetermineMyTurnForMatch(None, m, m.player1)
    ensures NextPly(m.currentPly) == 2 && ColorOfPly(NextPly(m.currentPly)) == BlackColor
  {
  }

  /** Corrected: from ply 0, as a private-room match starts, the details
      endpoint, the relay and the stored plies all agree that player1 moves
      first, as white, in ply 1 of move 1. */
  lemma StartAtPlyZeroAgrees(m: Match)
    requires m.currentPly == Some(0)
    ensures DetermineIfMyTurn(m.currentPly, true) && !DetermineIfMyTurn(m.currentPly, false)
    ensures DetermineIfMyTurn(m.currentPly, true) == DetermineMyTurnForMatch(None, m, m.player1)
    ensures NextPly(m.currentPly) == 1 && ColorOfPly(NextPly(m.currentPly)) == WhiteColor &&
            MoveNumber(NextPly(m.currentPly)) == 1
  {
  }

  /** The status a saved local game gets, from the client's status text read
      without case: checkmate, then resignation, then draw or stalemate; any
      other text counts as an ordinary finish. */
  function BotStatus(resultStatus: string): (s: string)
    ensures s in {"FINISHED", "RESIGNED", "DRAW"}
    ensures Contains(ToLower(resultStatus), "checkmate") ==> s == "FINISHED"
    ensures s == "RESIGNED" <==>
              !Contains(ToLower(resultStatus), "checkmate") && Contains(ToLower(resultStatus), "resign")
    ensures s == "DRAW" <==>
              !Contains(ToLower(resultStatus), "checkmate") && !Contains(ToLower(resultStatus), "resign") &&
              (Contains(ToLower(resultStatus), "draw") || Contains(ToLower(resultStatus), "stalemate"))
  {
    var lower := ToLower(resultStatus);
    if Contains(lower, "checkmate") then "FINISHED"
    else if Contains(lower, "resign") then "RESIGNED"
    else if Contains(lower, "draw") || Contains(lower, "stalemate") then "DRAW"
    else "FINISHED"
  }

  /** The winner stored: none for a draw, otherwise the reported one. */
  function BotWinner(finalStatus: string, winner: Option<string>): (w: Option<string>)
    ensures finalStatus == "DRAW" ==> w.None?
    ensures finalStatus != "DRAW" ==> w == winner
  {
    if finalStatus != "DRAW" && winner.Some? then winner else None
  }

  /** The body of a save request; every field may be missing except the status. */
  datatype BotResult = BotResult(
    status: string, winner: Option<string>, gameType: Option<string>, opponentName: Option<string>)

  /** The result row saved for a player's finished local game. */
  function SavedResult(username: string, req: BotResult): (g: GameResult)
    ensures g.player1Name == username
    ensures g.status in {"FINISHED", "RESIGNED", "DRAW"} && g.status == BotStatus(req.status)
    ensures g.status == "DRAW" ==> g.winnerName.None?
    ensures g.status != "DRAW" ==> g.winnerName == req.winner
    ensures req.opponentName.None? ==> g.player2Name == "Computer"
    ensures req.gameType.None? ==> g.gameType == "BOT"
    ensures req.opponentName.Some? ==> g.player2Name == req.opponentName.value
    ensures req.gameType.Some? ==> g.gameType == req.gameType.value
  {
    var finalStatus := BotStatus(req.status);
    GameResult(username, OrElse(req.opponentName, "Computer"), OrElse(req.gameType, "BOT"),
               finalStatus, BotWinner(finalStatus, req.winner))
  }

  /** The matchmaking queue: players waiting for an opponent (always with
      the placeholder -1), and pairs created but not yet picked up by the
      waiting side, by match id. */
  class Matchmaker {
    const db: MatchDb
    var waiting: map<string, int>
    var pending: map<int, (string, string)>

    /** The store is consistent, every waiting entry holds -1, and no pair
        matches a player with themselves. */
    ghost predicate Valid()
      reads this, db
    {
      db.Valid() &&
      (forall u :: u in waiting ==> waiting[u] == -1) &&
      (forall id :: id in pending ==> id >= 1 && pending[id].0 != pending[id].1)
    }

    constructor (db: MatchDb)
      requires db.Valid()
      ensures Valid()
      ensures this.db == db && waiting == map[] && pending == map[]
    {
      this.db := db;
      waiting := map[];
      pending := map[];
    }

    /** createMatch: without a principal nothing happens. Otherwise the
        waiting players are scanned in some order; the first one who is not
        the caller, with both users on file, is paired with the caller in a
        new match (the waiting player as player1), taken off the queue, and
        the pair is kept for them to pick up. If there is none, the caller
        waits and gets -1. */
    method CreateMatch(principal: Option<string>) returns (r: Option<int>)
      requires Valid()
      modifies this`waiting, this`pending, db`matches, db`nextMatchId
      ensures Valid()
      ensures principal.None? ==>
                r.None? && waiting == old(waiting) && pending == old(pending) && db.matches == old(db.matches)
      ensures principal.Some? ==> r.Some?
      ensures principal.Some? && r == Some(-1) ==>
                (forall w :: w in old(waiting) && w != principal.value ==>
                   !(w in db.users && principal.value in db.users)) &&
                waiting == old(waiting)[principal.value := -1] && pending == old(pending) &&
                db.matches == old(db.matches)
      ensures principal.Some? && r.Some? && r.value != -1 ==>
                var id := r.value;
                id == old(db.nextMatchId) && id >= 1 && id !in old(db.matches) &&
                exists w :: w in old(waiting) && w != principal.value &&
                  w in db.users && principal.value in db.users &&
                  db.matches == old(db.matches)[id := Match(w, principal.value, InProgress,
                                                            Some(MatchmakingStartPly), None, None, None)] &&
                  pending == old(pending)[id := (w, principal.value)] &&
                  waiting == old(waiting) - {w}
    {
      if principal.None? {
        return None;
      }
      var userName := principal.value;
      var remaining := waiting.Keys;
      while remaining != {}
        invariant remaining <= waiting.Keys
        invariant waiting == old(waiting) && pending == old(pending) && db.matches == old(db.matches)
        invariant db.nextMatchId == old(db.nextMatchId)
        invariant forall w :: w in waiting && w !in remaining && w != userName ==>
                    !(w in db.users && userName in db.users)
        decreases remaining
      {
        var waitingPlayer :| waitingPlayer in remaining;
        if waitingPlayer != userName && waitingPlayer in db.users && userName in db.users {
          var matchId := db.InsertMatch(Match(waitingPlayer, userName, InProgress,
                                              Some(MatchmakingStartPly), None, None, None));
          pending := pending[matchId := (waitingPlayer, userName)];
          waiting := waiting - {waitingPlayer};
          return Some(matchId);
        }
        remaining := remaining - {waitingPlayer};
      }
      waiting := waiting[userName := -1];
      return Some(-1);
    }

    /** checkMatch: a waiting caller gets -1. Otherwise the first pending
        pair (in some order) that names the caller is handed out once: its
        id is returned, the pair is dropped and both players leave the
        queue. Anyone else gets nothing. */
    method CheckMatch(principal: Option<string>) returns (r: Option<int>)
      requires Valid()
      modifies this`waiting, this`pending
      ensures Valid()
      ensures principal.None? ==> r.None? && waiting == old(waiting) && pending == old(pending)
      ensures principal.Some? && principal.value in old(waiting) ==>
                r == Some(-1) && waiting == old(waiting) && pending == old(pending)
      ensures principal.Some? && principal.value !in old(waiting) && r.None? ==>
                (forall id :: id in old(pending) ==>
                   old(pending)[id].0 != principal.value && old(pending)[id].1 != principal.value) &&
                waiting == old(waiting) && pending == old(pending)
      ensures principal.Some? && principal.value !in old(waiting) && r.Some? ==>
                var id := r.value;
                id in old(pending) && id >= 1 &&
                (old(pending)[id].0 == principal.value || old(pending)[id].1 == principal.value) &&
                pending == old(pending) - {id} &&
                waiting == old(waiting) - {old(pending)[id].0, old(pending)[id].1}
    {
      if principal.None? {
        return None;
      }
      var userName := principal.value;
      if userName in waiting {
        return Some(-1);
      }
      var remaining := pending.Keys;
      while remaining != {}
        invariant remaining <= pending.Keys
        invariant waiting == old(waiting) && pending == old(pending)
        invariant forall id :: id in pending && id !in remaining ==>
                    pending[id].0 != userName && pending[id].1 != userName
        decreases remaining
      {
        ghost var someId := MemberOf(remaining);
        var matchId :| matchId in remaining;
        var players := pending[matchId];
        if players.0 == userName || players.1 == userName {
          pending := pending - {matchId};
          waiting := waiting - {players.0, players.1};
          return Some(matchId);
        }
        remaining := remaining - {matchId};
      }
      return None;
    }

    /** cancelWaiting: true exactly when the caller was waiting; afterwards
        they are not. */
    method CancelWaiting(principal: Option<string>) returns (removed: bool)
      requires Valid()
      modifies this`waiting
      ensures Valid()
      ensures removed <==> principal.Some? && principal.value in old(waiting)
      ensures principal.None? ==> waiting == old(waiting)
      ensures principal.Some? ==> waiting == old(waiting) - {principal.value}
    {
      if principal.None? {
        return false;
      }
      removed := principal.value in waiting;
      waiting := waiting - {principal.value};
    }

    /** saveBotMatch: it needs a principal on file. The "Computer" user is
        created when missing, and the normalised result is appended; its id
        is its position in the results table, counted from 1. */
    method SaveBotMatch(req: BotResult, principal: Option<string>) returns (r: Option<int>)
      requires Valid()
      modifies db`users, db`results
      ensures Valid()
      ensures principal.None? || principal.value !in old(db.users) ==>
                r.None? && db.users == old(db.users) && db.results == old(db.results)
      ensures principal.Some? && principal.value in old(db.users) ==>
                r == Some(|old(db.results)| + 1) &&
                db.users == old(db.users) + {"Computer"} &&
                db.results == old(db.results) + [SavedResult(principal.value, req)]
    {
      if principal.None? || principal.value !in db.users {
        return None;
      }
      if "Computer" !in db.users {
        db.users := db.users + {"Computer"};
      }
      db.results := db.results + [SavedResult(principal.value, req)];
      r := Some(|db.results|);
    }
  }
}
