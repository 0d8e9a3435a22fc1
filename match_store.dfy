/** The match service's persistent records (Match, Move, OnlineMatch,
    GameResult and the user table it reads) and the repositories that hold
    them, as one object of maps. Identifiers come from a counter, as the
    database's identity columns do. */
module MatchStore {
  import opened Common

  /** The match statuses. The enum itself is not part of this model; these
      four are the constants the services name. */
  datatype MatchStatus = InProgress | Finished | Resigned | Draw

  function StatusName(s: MatchStatus): string
  {
    match s
    case InProgress => "IN_PROGRESS"
    case Finished => "FINISHED"
    case Resigned => "RESIGNED"
    case Draw => "DRAW"
  }

  /** `MatchStatus.valueOf`: the constant with exactly this name, if any. */
  function ParseStatus(name: string): (r: Option<MatchStatus>)
    ensures r.Some? ==> StatusName(r.value) == name
    ensures r.None? ==> forall s :: StatusName(s) != name
  {
    if name == "IN_PROGRESS" then Some(InProgress)
    else if name == "FINISHED" then Some(Finished)
    else if name == "RESIGNED" then Some(Resigned)
    else if name == "DRAW" then Some(Draw)
    else None
  }

  /** A match row. Player columns are non-null; `currentPly` is nullable and
      only ever holds non-negative counts. */
  datatype Match = Match(
    player1: string, player2: string, status: MatchStatus, currentPly: Option<nat>,
    fenCurrent: Option<string>, lastMoveUci: Option<string>, timeLimit: Option<int>)

  /** A null ply counts as zero. */
  function PlyOf(p: Option<nat>): nat
  {
    if p.Some? then p.value else 0
  }

  datatype PieceColor = WhiteColor | BlackColor

  /** A row of the moves table; (match id, ply) is unique. */
  datatype MoveRow = MoveRow(
    ply: nat, moveNumber: nat, color: PieceColor, uci: string, san: string,
    fenBefore: Option<string>, fenAfter: Option<string>)

  /** A private room: its host, the guest once one has joined, the match once
      it is set up, and the result once reported. A new room is in progress. */
  datatype Room = Room(
    host: string, guest: Option<string>, matchId: Option<int>, status: MatchStatus,
    winnerName: Option<string>, timeLimit: Option<int>)

  /** A saved bot or offline result. */
  datatype GameResult = GameResult(
    player1Name: string, player2Name: string, gameType: string, status: string,
    winnerName: Option<string>)

  class MatchDb {
    /** Usernames known to the match service's user table. */
    var users: set<string>
    var matches: map<int, Match>
    var nextMatchId: int
    /** Rooms by room code (the code column is unique). */
    var rooms: map<string, Room>
    /** Move rows by (match id, ply). */
    var moves: map<(int, int), MoveRow>
    var results: seq<GameResult>

    /** Identifiers are positive and below the counter; a room is linked to an
        existing match and no two rooms to the same one; no host is the guest
        of their own room; every stored move belongs to a match and its ply is
        within that match's ply counter. */
    ghost predicate Valid()
      reads this
    {
      nextMatchId >= 1 &&
      (forall id :: id in matches ==> 1 <= id < nextMatchId) &&
      (forall c :: c in rooms && rooms[c].matchId.Some? ==> rooms[c].matchId.value in matches) &&
      (forall c, d :: c in rooms && d in rooms && c != d && rooms[c].matchId.Some? ==>
                        rooms[c].matchId != rooms[d].matchId) &&
      (forall c :: c in rooms ==> rooms[c].guest != Some(rooms[c].host)) &&
      (forall k :: k in moves ==> k.0 in matches && 1 <= k.1 <= PlyOf(matches[k.0].currentPly))
    }

    constructor (users: set<string>)
      ensures Valid()
      ensures this.users == users && matches == map[] && rooms == map[] && moves == map[] && results == []
    {
      this.users := users;
      matches := map[];
      nextMatchId := 1;
      rooms := map[];
      moves := map[];
      results := [];
    }

    /** `matchRepo.save` of a new match: it gets the next identifier. */
    method InsertMatch(m: Match) returns (id: int)
      requires Valid()
      modifies this`matches, this`nextMatchId
      ensures Valid()
      ensures id == old(nextMatchId) && id >= 1 && id !in old(matches)
      ensures matches == old(matches)[id := m] && nextMatchId == id + 1
    {
      id := nextMatchId;
      matches := matches[id := m];
      nextMatchId := nextMatchId + 1;
    }

    /** Store a move row under the ply after the match's current one, together
        with the match advanced to that ply; that (match, ply) key is free. */
    method RecordMove(matchId: int, updated: Match, row: MoveRow)
      requires Valid() && matchId in matches
      requires row.ply == PlyOf(matches[matchId].currentPly) + 1 && updated.currentPly == Some(row.ply)
      modifies this`matches, this`moves
      ensures Valid()
      ensures (matchId, row.ply as int) !in old(moves)
      ensures moves == old(moves)[(matchId, row.ply as int) := row] && matches == old(matches)[matchId := updated]
    {
      moves := moves[(matchId, row.ply as int) := row];
      matches := matches[matchId := updated];
    }
  }
}
