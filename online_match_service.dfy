/** Private rooms (OnlineMatchService.java): a host creates a room under a
    fresh six-character code, one guest joins it, the host sets up the match
    choosing a colour, and the relay reports the result back onto the room. */
module OnlineMatchService {
  import opened Common
  import opened ChessOracle
  import opened MatchStore

  /** The room-code alphabet: capital letters and digits without I, O, 0 and 1. */
  const RoomAlphabet: string := "ABCDEFGHJKLMNPQRSTUVWXYZ23456789"

  predicate IsRoomCode(code: string)
  {
    |code| == 6 && forall i :: 0 <= i < 6 ==> code[i] in RoomAlphabet
  }

  /** The characters a room code may use. */
  predicate IsRoomChar(c: char)
  {
    ('A' <= c <= 'Z' && c != 'I' && c != 'O') || ('2' <= c <= '9')
  }

  /** The alphabet has 32 letters, none of them one of the four easily
      confused ones. */
  lemma AlphabetHasNoLookalikes()
    ensures |RoomAlphabet| == 32
    ensures forall i :: 0 <= i < |RoomAlphabet| ==> IsRoomChar(RoomAlphabet[i])
  {
  }

  /** The random stream as `nextInt(32)` produces it. */
  predicate IsDrawStream(draws: seq<nat>)
  {
    forall i :: 0 <= i < |draws| ==> draws[i] < 32
  }

  /** The code built from the `k`-th block of six draws. */
  function CodeAt(draws: seq<nat>, k: nat): (code: string)
    requires IsDrawStream(draws) && 6 * (k + 1) <= |draws|
    ensures IsRoomCode(code)
  {
    seq(6, i requires 0 <= i < 6 => RoomAlphabet[draws[6 * k + i]])
  }

  /** `"white".equalsIgnoreCase(hostColor)`: the host plays white, and is
      therefore player1, only for "white" in any letter case. */
  predicate HostIsWhite(hostColor: string)
  {
    EqualsIgnoreCase("white", hostColor)
  }

  /** The host takes white exactly when the colour names white in some casing. */
  lemma HostIsWhiteCases(hostColor: string)
    ensures HostIsWhite(hostColor) <==> ToLower(hostColor) == "white"
    ensures HostIsWhite("white") && HostIsWhite("WHITE") && HostIsWhite("White")
    ensures !HostIsWhite("black") && !HostIsWhite("")
  {
    assert ToLower("white") == "white";
    assert ToLower("WHITE") == "white";
    assert ToLower("White") == "white";
    assert ToLower("black")[0] == 'b';
  }

  /** Lower-casing and then upper-casing a text without lower-case letters
      gives the text back. */
  lemma UpperOfLower(s: string)
    requires forall i :: 0 <= i < |s| ==> !IsLowerAscii(s[i])
    ensures ToUpper(s) == s
    ensures ToUpper(ToLower(s)) == s
  {
    assert forall i :: 0 <= i < |s| ==> UpperChar(LowerChar(s[i])) == s[i];
  }

  /** The status stored for a reported result: the constant named by the
      upper-cased text, and FINISHED for any text that names none. */
  function StatusFromName(status: string): (s: MatchStatus)
    ensures ParseStatus(ToUpper(status)).None? ==> s == Finished
  {
    match ParseStatus(ToUpper(status))
    case Some(parsed) => parsed
    case None => Finished
  }

  /** Every status name, and its lower-case spelling, reads back as that status. */
  lemma StatusFromNameRoundTrip(s: MatchStatus)
    ensures StatusFromName(StatusName(s)) == s
    ensures StatusFromName(ToLower(StatusName(s))) == s
  {
    var name := StatusName(s);
    assert forall i :: 0 <= i < |name| ==> 'A' <= name[i] <= 'Z' || name[i] == '_';
    UpperOfLower(name);
  }

  /** The room table after a result is reported for a match: every room
      linked to the match takes the status and the winner; the other rooms,
      and all of them when the match is unknown, stay as they were. */
  function RoomsWithResult(rooms: map<string, Room>, known: bool, matchId: int,
                           status: MatchStatus, winner: Option<string>): map<string, Room>
  {
    map c | c in rooms :: if known && rooms[c].matchId == Some(matchId)
                           then rooms[c].(status := status, winnerName := winner) else rooms[c]
  }

  /** A result for an unknown match, or for one no room is linked to, leaves
      the room table as it is; a result for a match that exactly one room is
      linked to rewrites that room only. */
  lemma RoomsWithResultCases(rooms: map<string, Room>, known: bool, matchId: int,
                             status: MatchStatus, winner: Option<string>)
    ensures (!known || forall c :: c in rooms ==> rooms[c].matchId != Some(matchId)) ==>
              RoomsWithResult(rooms, known, matchId, status, winner) == rooms
    ensures forall c :: c in rooms && known && rooms[c].matchId == Some(matchId) &&
                        (forall d :: d in rooms && d != c ==> rooms[d].matchId != Some(matchId)) ==>
              RoomsWithResult(rooms, known, matchId, status, winner) ==
                rooms[c := rooms[c].(status := status, winnerName := winner)]
  {
    var r := RoomsWithResult(rooms, known, matchId, status, winner);
    if !known || forall c :: c in rooms ==> rooms[c].matchId != Some(matchId) {
      assert forall c :: c in rooms ==> r[c] == rooms[c];
    }
    forall c | c in rooms && known && rooms[c].matchId == Some(matchId) &&
               (forall d :: d in rooms && d != c ==> rooms[d].matchId != Some(matchId))
      ensures r == rooms[c := rooms[c].(status := status, winnerName := winner)]
    {
      var u := rooms[c := rooms[c].(status := status, winnerName := winner)];
      assert forall d :: d in rooms ==> r[d] == u[d];
    }
  }

  class OnlineMatches {
    const db: MatchDb

    /** The store is consistent and every room is filed under a well-formed code. */
    ghost predicate Valid()
      reads db
    {
      db.Valid() && forall c :: c in db.rooms ==> IsRoomCode(c)
    }

    constructor (db: MatchDb)
      requires db.Valid() && forall c :: c in db.rooms ==> IsRoomCode(c)
      ensures Valid()
      ensures this.db == db
    {
      this.db := db;
    }

    /** Draw blocks of six characters until one forms a code no room uses.
        The random stream is finite here; if it runs out first, no code. */
    method GenerateUniqueRoomCode(draws: seq<nat>) returns (code: Option<string>, attempts: nat)
      requires IsDrawStream(draws)
      ensures code.Some? ==> 6 * (attempts + 1) <= |draws| && code.value == CodeAt(draws, attempts)
      ensures code.Some? ==> IsRoomCode(code.value) && code.value !in db.rooms
      ensures code.Some? ==> forall j :: 0 <= j < attempts ==> CodeAt(draws, j) in db.rooms
      ensures code.None? ==> forall j: nat :: 6 * (j + 1) <= |draws| ==> CodeAt(draws, j) in db.rooms
    {
      attempts := 0;
      while true
        invariant forall j :: 0 <= j < attempts ==> 6 * (j + 1) <= |draws| && CodeAt(draws, j) in db.rooms
        decreases |draws| - 6 * attempts
      {
        if 6 * (attempts + 1) > |draws| {
          return None, attempts;
        }
        var built: string := [];
        for i := 0 to 6
          invariant |built| == i
          invariant forall t :: 0 <= t < i ==> built[t] == RoomAlphabet[draws[6 * attempts + t]]
        {
          built := built + [RoomAlphabet[draws[6 * attempts + i]]];
        }
        assert built == CodeAt(draws, attempts);
        if built !in db.rooms {
          return Some(built), attempts;
        }
        attempts := attempts + 1;
      }
    }

    /** createRoom: an unknown host is refused; otherwise a new room is stored
        under a fresh code, with no guest, no match, status IN_PROGRESS and the
        given time limit. */
    method CreateRoom(hostUsername: string, timeLimit: Option<int>, draws: seq<nat>) returns (r: Result<string>)
      requires Valid() && IsDrawStream(draws)
      modifies db`rooms
      ensures Valid()
      ensures hostUsername !in db.users ==> r == Err("Host user not found") && db.rooms == old(db.rooms)
      ensures r.Ok? ==>
                hostUsername in db.users && IsRoomCode(r.value) && r.value !in old(db.rooms) &&
                db.rooms == old(db.rooms)[r.value := Room(hostUsername, None, None, InProgress, None, timeLimit)]
      ensures r.Err? ==> db.rooms == old(db.rooms)
    {
      if hostUsername !in db.users {
        return Err("Host user not found");
      }
      var code, _ := GenerateUniqueRoomCode(draws);
      if code.None? {
        return Err("No free room code");
      }
      db.rooms := db.rooms[code.value := Room(hostUsername, None, None, InProgress, None, timeLimit)];
      r := Ok(code.value);
    }

    /** joinRoom: an unknown code, a room held by a different guest, an
        unknown guest and the host themselves are refused in that order;
        otherwise exactly the guest field is set. The same guest may rejoin. */
    method JoinRoom(roomCode: string, guestUsername: string) returns (r: Result<Room>)
      requires Valid()
      modifies db`rooms
      ensures Valid()
      ensures roomCode !in old(db.rooms) ==> r == Err("code is wrong unable to join room")
      ensures roomCode in old(db.rooms) ==>
                var room := old(db.rooms)[roomCode];
                if room.guest.Some? && room.guest.value != guestUsername then r == Err("Room is already full")
                else if guestUsername !in db.users then r == Err("Guest user not found")
                else if room.host == guestUsername then r == Err("You cannot join your own room")
                else r == Ok(room.(guest := Some(guestUsername)))
      ensures r.Ok? ==> db.rooms == old(db.rooms)[roomCode := r.value]
      ensures r.Err? ==> db.rooms == old(db.rooms)
      ensures r.Ok? ==> r.value.host != guestUsername
    {
      if roomCode !in db.rooms {
        return Err("code is wrong unable to join room");
      }
      var room := db.rooms[roomCode];
      if room.guest.Some? && room.guest.value != guestUsername {
        return Err("Room is already full");
      }
      if guestUsername !in db.users {
        return Err("Guest user not found");
      }
      if room.host == guestUsername {
        return Err("You cannot join your own room");
      }
      var joined := room.(guest := Some(guestUsername));
      db.rooms := db.rooms[roomCode := joined];
      r := Ok(joined);
    }

    /** setupMatch: the room must exist and have a guest. The host is player1
        (white) exactly for a white colour choice; the match starts at ply 0
        from the standard position with the room's time limit, and the room is
        linked to it. */
    method SetupMatch(roomCode: string, hostColor: string) returns (r: Result<int>)
      requires Valid()
      modifies db`rooms, db`matches, db`nextMatchId
      ensures Valid()
      ensures roomCode !in old(db.rooms) ==> r == Err("Room not found")
      ensures roomCode in old(db.rooms) && old(db.rooms)[roomCode].guest.None? ==>
                r == Err("No guest has joined yet")
      ensures r.Err? ==> db.rooms == old(db.rooms) && db.matches == old(db.matches)
      ensures r.Ok? ==>
                var room := old(db.rooms)[roomCode];
                roomCode in old(db.rooms) && room.guest.Some? &&
                r.value !in old(db.matches) &&
                db.matches == old(db.matches)[r.value := Match(
                  if HostIsWhite(hostColor) then room.host else room.guest.value,
                  if HostIsWhite(hostColor) then room.guest.value else room.host,
                  InProgress, Some(0), Some(StartFen), None, room.timeLimit)] &&
                db.rooms == old(db.rooms)[roomCode := room.(matchId := Some(r.value))]
      ensures roomCode in old(db.rooms) && old(db.rooms)[roomCode].guest.Some? ==> r.Ok?
    {
      if roomCode !in db.rooms {
        return Err("Room not found");
      }
      var room := db.rooms[roomCode];
      if room.guest.None? {
        return Err("No guest has joined yet");
      }
      var p1, p2;
      if HostIsWhite(hostColor) {
        p1, p2 := room.host, room.guest.value;
      } else {
        p1, p2 := room.guest.value, room.host;
      }
      var id := db.InsertMatch(Match(p1, p2, InProgress, Some(0), Some(StartFen), None, room.timeLimit));
      db.rooms := db.rooms[roomCode := room.(matchId := Some(id))];
      r := Ok(id);
    }

    /** updateMatchResult: nothing happens without the match or without a room
        linked to it; otherwise that room gets the parsed status (FINISHED
        when the text names no status) and the given winner. */
    method UpdateMatchResult(matchId: int, status: string, winnerName: Option<string>)
      requires Valid()
      modifies db`rooms
      ensures Valid()
      ensures matchId !in db.matches || (forall c :: c in old(db.rooms) ==> old(db.rooms)[c].matchId != Some(matchId)) ==>
                db.rooms == old(db.rooms)
      ensures matchId in db.matches ==>
                forall c :: c in old(db.rooms) && old(db.rooms)[c].matchId == Some(matchId) ==>
                  db.rooms == old(db.rooms)[c := old(db.rooms)[c].(status := StatusFromName(status), winnerName := winnerName)]
      ensures db.rooms == RoomsWithResult(old(db.rooms), matchId in db.matches, matchId, StatusFromName(status), winnerName)
    {
      RoomsWithResultCases(db.rooms, matchId in db.matches, matchId, StatusFromName(status), winnerName);
      if matchId !in db.matches {
        return;
      }
      if c :| c in db.rooms && db.rooms[c].matchId == Some(matchId) {
        var room := db.rooms[c];
        db.rooms := db.rooms[c := room.(status := StatusFromName(status), winnerName := winnerName)];
      }
    }
  }
}
