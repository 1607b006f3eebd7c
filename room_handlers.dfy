/**
  The `room:create` and `room:join` handlers (tictactoe/socket/handlers/room.js).
*/
module RoomHandlers {
  import opened Wrappers
  import opened JsStrings
  import opened GameLogic
  import opened Entities
  import opened State
  import opened Utils
  import opened SocketUtils

  const NotAuthenticated := "Not authenticated"
  const InvalidRoomCode := "Invalid room code"

  /** The room `room:create` stores: its creator as X, nine null cells, X to move, waiting, no score. */
  function NewRoom(code: Code, sid: SocketId, key: Key, name: string): (r: Room)
    ensures |r.players| == 1 && r.players[0] == Player(sid, key, name, X)
    ensures r.board == EmptyBoard && r.currentTurn == X && r.status == Waiting && r.scores == ZeroScores
    ensures r.code == code && r.tournamentId.None? && r.matchId.None? && r.rematchVotes == {}
  {
    Room(code, [Player(sid, key, name, X)], EmptyBoard, X, Waiting, ZeroScores, {}, None, None)
  }

  /** Leaving only deletes rooms, so codes free before the leave are still free after it. */
  lemma FreeAfterLeave(w: World, sid: SocketId, draws: nat -> nat)
    requires EventuallyFree(w.rooms.Keys, draws)
    ensures EventuallyFree(LeaveCurrentRoom(w, sid).rooms.Keys, draws)
  {
    var n := SomeFree(w.rooms.Keys, draws);
    assert Candidate(draws, n) !in LeaveCurrentRoom(w, sid).rooms.Keys;
  }

  /** The code `generateRoomCode(rooms)` returns once the creator has left its old room. */
  function CreatedCode(w: World, sid: SocketId, draws: nat -> nat): (code: Code)
    requires EventuallyFree(w.rooms.Keys, draws)
    ensures code !in LeaveCurrentRoom(w, sid).rooms
    ensures |code| == 4 && forall k :: 0 <= k < 4 ==> code[k] in Alphabet
  {
    FreeAfterLeave(w, sid, draws);
    CandidateInAlphabet(draws, FirstFree(LeaveCurrentRoom(w, sid).rooms.Keys, draws));
    Candidate(draws, FirstFree(LeaveCurrentRoom(w, sid).rooms.Keys, draws))
  }

  /**
    `room:create`. An unauthenticated socket is only told so. Otherwise the
    socket leaves its current room, a code free in `rooms` is drawn, and the
    new room is stored and routed to from both `socketRoom` and `userRoom`.
  */
  function CreateRoom(w: World, sid: SocketId, draws: nat -> nat): World
    requires EventuallyFree(w.rooms.Keys, draws)
  {
    match Authed(w, sid)
    case None => ToSocket(w, sid, Error(NotAuthenticated))
    case Some(key) =>
      var w1 := LeaveCurrentRoom(w, sid);
      var code := CreatedCode(w, sid, draws);
      if key !in w1.users then Crash(w1)
      else
        var room := NewRoom(code, sid, key, w1.users[key].displayName);
        var w2 := w1.(rooms := w1.rooms[code := room], socketRoom := w1.socketRoom[sid := code],
                      userRoom := w1.userRoom[key := code], joined := w1.joined + {(sid, code)});
        ToSocket(w2, sid, RoomCreated(code, X))
  }

  /** An unauthenticated socket is only told so. */
  lemma CreateRoomRefuses(w: World, sid: SocketId, draws: nat -> nat)
    requires EventuallyFree(w.rooms.Keys, draws) && Authed(w, sid).None?
    ensures CreateRoom(w, sid, draws) == ToSocket(w, sid, Error(NotAuthenticated))
  {
  }

  /**
    An authenticated creator leaves its room; the new room, under a code no
    room has, is stored, routed to from the socket and the key, joined, and
    announced to the creator alone. Nothing else changes.
  */
  lemma CreateRoomOpens(w: World, sid: SocketId, draws: nat -> nat)
    requires EventuallyFree(w.rooms.Keys, draws) && Authed(w, sid).Some? && Authed(w, sid).value in w.users
    ensures var w' := CreateRoom(w, sid, draws);
            var key := Authed(w, sid).value; var w1 := LeaveCurrentRoom(w, sid);
            var code := CreatedCode(w, sid, draws);
            code !in w1.rooms
            && w'.rooms == w1.rooms[code := NewRoom(code, sid, key, w.users[key].displayName)]
            && w'.socketRoom == w1.socketRoom[sid := code] && w'.userRoom == w1.userRoom[key := code]
            && w'.joined == w1.joined + {(sid, code)}
            && w'.outbox == w1.outbox + [Sent({sid}, RoomCreated(code, X))]
            && w' == w1.(rooms := w'.rooms, socketRoom := w'.socketRoom, userRoom := w'.userRoom,
                         joined := w'.joined, outbox := w'.outbox)
  {
  }

  /** A creator whose key has no user record makes `users[key].displayName` throw, after the leave. */
  lemma CreateRoomCrashes(w: World, sid: SocketId, draws: nat -> nat)
    requires EventuallyFree(w.rooms.Keys, draws) && Authed(w, sid).Some? && Authed(w, sid).value !in w.users
    ensures CreateRoom(w, sid, draws) == Crash(LeaveCurrentRoom(w, sid))
  {
  }

  lemma CreatePreservesValid(w: World, sid: SocketId, draws: nat -> nat)
    requires Valid(w) && EventuallyFree(w.rooms.Keys, draws)
    ensures Valid(CreateRoom(w, sid, draws))
    ensures CreateRoom(w, sid, draws).tournaments == w.tournaments
    ensures !w.crashed ==> !CreateRoom(w, sid, draws).crashed
  {
    if Authed(w, sid).None? {
      CreateRoomRefuses(w, sid, draws);
      EmitValid(w, {sid}, Error(NotAuthenticated));
    } else {
      CreateOpensValid(w, sid, draws);
    }
  }

  lemma CreateOpensValid(w: World, sid: SocketId, draws: nat -> nat)
    requires Valid(w) && EventuallyFree(w.rooms.Keys, draws) && Authed(w, sid).Some?
    ensures var w' := CreateRoom(w, sid, draws);
            Valid(w') && w'.tournaments == w.tournaments && w'.crashed == w.crashed
  {
    var key := Authed(w, sid).value;
    var w1 := LeaveCurrentRoom(w, sid);
    LeavePreservesValid(w, sid);
    var code := CreatedCode(w, sid, draws);
    var room := NewRoom(code, sid, key, w1.users[key].displayName);
    assert RoomOk(code, room);
    RouteToRoomValid(w1, code, room, sid, key);
    var w2 := w1.(rooms := w1.rooms[code := room], socketRoom := w1.socketRoom[sid := code],
                  userRoom := w1.userRoom[key := code], joined := w1.joined + {(sid, code)});
    EmitValid(w2, {sid}, RoomCreated(code, X));
  }

  /** `code.toUpperCase().trim()`. */
  function JoinCode(code: string): string
  {
    Trim(ToUpperAscii(code))
  }

  /**
    The room `validateRoomJoin` accepted, captured before the joiner leaves
    its old room, is untouched by that leave: the joiner does not sit in it.
  */
  lemma LeaveKeepsTarget(w: World, sid: SocketId, code: Code)
    requires RoutesOk(w.socketRoom, w.userRoom)
    requires ValidateRoomJoin(Get(w.rooms, code), sid) == JoinOk
    ensures code in LeaveCurrentRoom(w, sid).rooms && LeaveCurrentRoom(w, sid).rooms[code] == w.rooms[code]
  {
    LeaveKeepsOtherRoom(w, sid, code);
  }

  /** The room after a successful join: the joiner takes O and the game starts. */
  function Joined(r: Room, sid: SocketId, key: Key, name: string): (r': Room)
    ensures r'.players == r.players + [Player(sid, key, name, O)] && r'.status == Playing
    ensures r'.board == r.board && r'.currentTurn == r.currentTurn && r'.scores == r.scores
    ensures r'.code == r.code && r'.tournamentId == r.tournamentId && r'.matchId == r.matchId
  {
    r.(players := r.players + [Player(sid, key, name, O)], status := Playing)
  }

  /**
    `room:join`: not authenticated, then a non-string code, then the checks
    of `validateRoomJoin` on the upper-cased, trimmed code; each rejection
    only answers the socket. A join leaves the old room, seats the joiner as
    O, starts the game and sends `game:start` to the room.
  */
  function JoinRoom(w: World, sid: SocketId, codeArg: Option<string>): World
    requires RoutesOk(w.socketRoom, w.userRoom)
  {
    match Authed(w, sid)
    case None => ToSocket(w, sid, Error(NotAuthenticated))
    case Some(key) =>
      if codeArg.None? then ToSocket(w, sid, RoomError(InvalidRoomCode))
      else
        var code := JoinCode(codeArg.value);
        var room := Get(w.rooms, code);
        match ValidateRoomJoin(room, sid)
        case JoinError(e) => ToSocket(w, sid, RoomError(e))
        case JoinOk =>
          var w1 := LeaveCurrentRoom(w, sid);
          if key !in w1.users then Crash(w1)
          else
            var r := Joined(room.value, sid, key, w1.users[key].displayName);
            var w2 := w1.(rooms := w1.rooms[code := r], socketRoom := w1.socketRoom[sid := code],
                          userRoom := w1.userRoom[key := code], joined := w1.joined + {(sid, code)});
            var w3 := ToSocket(w2, sid, RoomJoined(code, O));
            ToRoom(w3, code, GameStart(r.board, r.currentTurn, Views(r.players), r.scores, false))
  }

  /**
    What `room:join` does: each rejection only answers the socket; a join
    leaves the old room, seats the joiner, and announces the start. Nothing
    but the rooms, the routes, the channels and the log changes.
  */
  lemma JoinRoomRejects(w: World, sid: SocketId, codeArg: Option<string>)
    requires RoutesOk(w.socketRoom, w.userRoom)
    ensures var w' := JoinRoom(w, sid, codeArg);
            && (Authed(w, sid).None? ==> w' == ToSocket(w, sid, Error(NotAuthenticated)))
            && (Authed(w, sid).Some? && codeArg.None? ==> w' == ToSocket(w, sid, RoomError(InvalidRoomCode)))
            && (Authed(w, sid).Some? && codeArg.Some? ==>
                 var code := JoinCode(codeArg.value);
                 ValidateRoomJoin(Get(w.rooms, code), sid).JoinError? ==>
                   w' == ToSocket(w, sid, RoomError(ValidateRoomJoin(Get(w.rooms, code), sid).error)))
  {
  }

  lemma JoinRoomSpec(w: World, sid: SocketId, codeArg: Option<string>)
    requires RoutesOk(w.socketRoom, w.userRoom)
    ensures var w' := JoinRoom(w, sid, codeArg);
            Authed(w, sid).Some? && codeArg.Some? ==>
              var code := JoinCode(codeArg.value);
              ValidateRoomJoin(Get(w.rooms, code), sid) == JoinOk ==>
                var key := Authed(w, sid).value; var w1 := LeaveCurrentRoom(w, sid);
                key in w.users ==>
                  var r := Joined(w.rooms[code], sid, key, w.users[key].displayName);
                  w'.rooms == w1.rooms[code := r]
                  && w'.socketRoom == w1.socketRoom[sid := code] && w'.userRoom == w1.userRoom[key := code]
                  && w'.joined == w1.joined + {(sid, code)}
                  && w'.outbox == w1.outbox + [Sent({sid}, RoomJoined(code, O)),
                                             Sent(Members(w'.joined, code), GameStart(r.board, r.currentTurn, Views(r.players), r.scores, false))]
  {
  }

  /** A joined room has two players, X first and the joiner O, and is playing. */
  lemma JoinSeatsTwo(w: World, sid: SocketId, codeArg: Option<string>)
    requires Valid(w) && Authed(w, sid).Some? && codeArg.Some?
    requires ValidateRoomJoin(Get(w.rooms, JoinCode(codeArg.value)), sid) == JoinOk
    ensures var code := JoinCode(codeArg.value); var w' := JoinRoom(w, sid, codeArg);
            code in w'.rooms && |w'.rooms[code].players| == 2 && w'.rooms[code].status == Playing
            && w'.rooms[code].players[1].socketId == sid && w'.rooms[code].players[1].symbol == O
            && w'.rooms[code].players[0] == w.rooms[code].players[0]
  {
  }

  lemma JoinPreservesValid(w: World, sid: SocketId, codeArg: Option<string>)
    requires Valid(w)
    ensures Valid(JoinRoom(w, sid, codeArg))
    ensures JoinRoom(w, sid, codeArg).tournaments == w.tournaments
    ensures !w.crashed ==> !JoinRoom(w, sid, codeArg).crashed
  {
    if Authed(w, sid).None? || codeArg.None? || ValidateRoomJoin(Get(w.rooms, JoinCode(codeArg.value)), sid).JoinError? {
      JoinRefusedValid(w, sid, codeArg);
    } else {
      JoinSeatValid(w, sid, codeArg);
    }
  }

  lemma JoinRefusedValid(w: World, sid: SocketId, codeArg: Option<string>)
    requires Valid(w)
    requires Authed(w, sid).None? || codeArg.None? || ValidateRoomJoin(Get(w.rooms, JoinCode(codeArg.value)), sid).JoinError?
    ensures var w' := JoinRoom(w, sid, codeArg);
            Valid(w') && w'.tournaments == w.tournaments && w'.crashed == w.crashed
  {
    if Authed(w, sid).None? {
      assert JoinRoom(w, sid, codeArg) == ToSocket(w, sid, Error(NotAuthenticated));
      EmitValid(w, {sid}, Error(NotAuthenticated));
    } else if codeArg.None? {
      assert JoinRoom(w, sid, codeArg) == ToSocket(w, sid, RoomError(InvalidRoomCode));
      EmitValid(w, {sid}, RoomError(InvalidRoomCode));
    } else {
      var e := ValidateRoomJoin(Get(w.rooms, JoinCode(codeArg.value)), sid).error;
      assert JoinRoom(w, sid, codeArg) == ToSocket(w, sid, RoomError(e));
      EmitValid(w, {sid}, RoomError(e));
    }
  }

  lemma JoinSeatValid(w: World, sid: SocketId, codeArg: Option<string>)
    requires Valid(w) && Authed(w, sid).Some? && codeArg.Some?
    requires ValidateRoomJoin(Get(w.rooms, JoinCode(codeArg.value)), sid) == JoinOk
    ensures var w' := JoinRoom(w, sid, codeArg);
            Valid(w') && w'.tournaments == w.tournaments && w'.crashed == w.crashed
  {
    var key := Authed(w, sid).value;
    var code := JoinCode(codeArg.value);
    var room := Get(w.rooms, code);
    var w1 := LeaveCurrentRoom(w, sid);
    LeavePreservesValid(w, sid);
    LeaveKeepsTarget(w, sid, code);
    assert w1.users == w.users && w1.socketUser == w.socketUser;
    var r := Joined(room.value, sid, key, w1.users[key].displayName);
    assert RoomOk(code, w1.rooms[code]) && LinkOk(w1.tournaments, w1.rooms[code]);
    RouteToRoomValid(w1, code, r, sid, key);
    var w2 := w1.(rooms := w1.rooms[code := r], socketRoom := w1.socketRoom[sid := code],
                  userRoom := w1.userRoom[key := code], joined := w1.joined + {(sid, code)});
    EmitValid(w2, {sid}, RoomJoined(code, O));
    var w3 := ToSocket(w2, sid, RoomJoined(code, O));
    EmitValid(w3, Members(w3.joined, code), GameStart(r.board, r.currentTurn, Views(r.players), r.scores, false));
  }
}
