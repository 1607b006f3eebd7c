/**
  The `auth` event of tictactoe/socket/handlers/auth.js: a session token
  binds the socket to its user key, and a user that still has a room is put
  back into its seat, cancelling the grace timer its disconnect armed.
*/
module AuthHandler {
  import opened GameLogic
  import opened Entities
  import opened State

  const SessionExpired := "Session expired, please log in again"

  /** `sessions.get(token)` when it names a user: a truthy key with a record in `users`. */
  predicate SessionOk(w: World, token: Token)
  {
    token in w.sessions && w.sessions[token] != "" && w.sessions[token] in w.users
  }

  /** Lines 31-34: a pending handle for `key` is cleared and forgotten. */
  function CancelGrace(w: World, key: Key): (w': World)
    ensures key !in w'.disconnectTimeouts
    ensures w'.disconnectTimeouts == w.disconnectTimeouts - {key}
    ensures key in w.disconnectTimeouts ==> w'.timers == w.timers - {w.disconnectTimeouts[key]}
    ensures key !in w.disconnectTimeouts ==> w'.timers == w.timers
    ensures w' == w.(timers := w'.timers, disconnectTimeouts := w'.disconnectTimeouts)
  {
    if key in w.disconnectTimeouts then
      w.(timers := w.timers - {w.disconnectTimeouts[key]}, disconnectTimeouts := w.disconnectTimeouts - {key})
    else w
  }

  /** The seat of `key` in room `r` taken over by socket `sid`. */
  function Reseat(r: Room, i: nat, sid: SocketId): (r': Room)
    requires i < |r.players|
    ensures |r'.players| == |r.players| && r'.players[i] == r.players[i].(socketId := sid)
    ensures forall j :: 0 <= j < |r.players| && j != i ==> r'.players[j] == r.players[j]
    ensures r' == r.(players := r'.players)
  {
    r.(players := r.players[i := r.players[i].(socketId := sid)])
  }

  /**
    Lines 36-57, for the room `userRoom[key]` names: when the room exists and
    seats `key`, that seat moves to the new socket, which joins the channel
    and gets the whole game back, and the rest of the room hears that `name`
    reconnected.
  */
  function Rejoin(w: World, sid: SocketId, key: Key, code: Code, name: string): World
  {
    if code !in w.rooms then w
    else
      var r := w.rooms[code];
      var i := FindByKey(r.players, key);
      if i == -1 then w
      else
        var r' := Reseat(r, i, sid);
        var w1 := w.(rooms := w.rooms[code := r'], socketRoom := w.socketRoom[sid := code], joined := w.joined + {(sid, code)});
        var w2 := ToSocket(w1, sid, GameRejoin(code, r'.board, r'.currentTurn, r'.scores, Views(r'.players), r'.players[i].symbol, r'));
        ToOthers(w2, sid, code, OpponentReconnected(name))
  }

  /** A room that is gone, or no longer seats the key, is left alone. */
  lemma RejoinMissing(w: World, sid: SocketId, key: Key, code: Code, name: string)
    requires code !in w.rooms || FindByKey(w.rooms[code].players, key) == -1
    ensures Rejoin(w, sid, key, code, name) == w
  {
  }

  /** The seat moves to the socket, which is routed to the room and joins its channel, and both sides are told. */
  lemma RejoinSeat(w: World, sid: SocketId, key: Key, code: Code, name: string)
    requires code in w.rooms && FindByKey(w.rooms[code].players, key) >= 0
    ensures var w' := Rejoin(w, sid, key, code, name);
            var i := FindByKey(w.rooms[code].players, key); var r' := Reseat(w.rooms[code], i, sid);
            w'.rooms == w.rooms[code := r'] && w'.socketRoom == w.socketRoom[sid := code]
            && w'.joined == w.joined + {(sid, code)}
            && w'.outbox == w.outbox + [Sent({sid}, GameRejoin(code, r'.board, r'.currentTurn, r'.scores, Views(r'.players),
                                                             r'.players[i].symbol, r')),
                                        Sent(Members(w'.joined, code) - {sid}, OpponentReconnected(name))]
            && w' == w.(rooms := w'.rooms, socketRoom := w'.socketRoom, joined := w'.joined, outbox := w'.outbox)
  {
  }

  /**
    `auth`: a token that names no session, or a session whose key is empty
    or has no user record, is answered with `auth:error` alone. Otherwise the
    socket and the key are bound both ways (replacing any earlier socket of
    that key), the user's name and record go back in `auth:ok`, and when
    `userRoom` still records a room for the key the grace timer is cancelled
    and the seat is rejoined.
  */
  function Auth(w: World, sid: SocketId, token: Token): World
  {
    if !SessionOk(w, token) then ToSocket(w, sid, AuthError(SessionExpired))
    else
      var key := w.sessions[token];
      var u := w.users[key];
      var w1 := Bound(w, sid, key);
      var existing := if key in w1.userRoom then w1.userRoom[key] else "";
      if existing == "" then w1
      else Rejoin(CancelGrace(w1, key), sid, key, existing, u.displayName)
  }

  /** Lines 24-29: the socket and the key bound both ways, and `auth:ok` with the user's record. */
  function Bound(w: World, sid: SocketId, key: Key): World
    requires key in w.users
  {
    var u := w.users[key];
    ToSocket(w.(socketUser := w.socketUser[sid := key], userSocket := w.userSocket[key := sid]),
             sid, AuthOk(u.displayName, u.wins, u.losses, u.draws))
  }

  /** A key with no room recorded is only bound. */
  lemma AuthFresh(w: World, sid: SocketId, token: Token)
    requires SessionOk(w, token)
    requires var key := w.sessions[token]; key !in w.userRoom || w.userRoom[key] == ""
    ensures Auth(w, sid, token) == Bound(w, sid, w.sessions[token])
  {
  }

  /** A key with a room recorded is bound, its grace timer cancelled, and its seat rejoined. */
  lemma AuthReturns(w: World, sid: SocketId, token: Token)
    requires SessionOk(w, token)
    requires var key := w.sessions[token]; key in w.userRoom && w.userRoom[key] != ""
    ensures var key := w.sessions[token];
            Auth(w, sid, token)
              == Rejoin(CancelGrace(Bound(w, sid, key), key), sid, key, w.userRoom[key], w.users[key].displayName)
  {
  }

  /** A rejected token changes no map: only the error reaches the socket. */
  lemma AuthRejectChangesNothing(w: World, sid: SocketId, token: Token)
    requires !SessionOk(w, token)
    ensures var w' := Auth(w, sid, token);
            w' == w.(outbox := w'.outbox) && w'.outbox == w.outbox + [Sent({sid}, AuthError(SessionExpired))]
  {
  }

  /**
    An accepted token binds the socket to the session's key and the key to
    this socket, and the first reply is `auth:ok` with the user's own record.
  */
  lemma AuthBinds(w: World, sid: SocketId, token: Token)
    requires SessionOk(w, token)
    ensures var w' := Auth(w, sid, token); var key := w.sessions[token]; var u := w.users[key];
            w'.socketUser == w.socketUser[sid := key] && w'.userSocket == w.userSocket[key := sid]
            && |w'.outbox| > |w.outbox| && w'.outbox[|w.outbox|] == Sent({sid}, AuthOk(u.displayName, u.wins, u.losses, u.draws))
            && w'.users == w.users && w'.sessions == w.sessions && w'.userRoom == w.userRoom
  {
    var key := w.sessions[token];
    var w1 := Bound(w, sid, key);
    if key !in w.userRoom || w.userRoom[key] == "" {
      AuthFresh(w, sid, token);
    } else {
      AuthReturns(w, sid, token);
      var w2 := CancelGrace(w1, key);
      var code := w.userRoom[key];
      if code !in w2.rooms || FindByKey(w2.rooms[code].players, key) == -1 {
        RejoinMissing(w2, sid, key, code, w.users[key].displayName);
      } else {
        RejoinSeat(w2, sid, key, code, w.users[key].displayName);
        var o := Rejoin(w2, sid, key, code, w.users[key].displayName).outbox;
        assert o[..|w2.outbox|] == w2.outbox;
      }
    }
  }

  /**
    With a room recorded for the key, the pending grace handle is gone
    afterwards, whether or not the room still exists.
  */
  lemma AuthCancelsGrace(w: World, sid: SocketId, token: Token)
    requires SessionOk(w, token)
    requires var key := w.sessions[token]; key in w.userRoom && w.userRoom[key] != ""
    ensures var key := w.sessions[token]; var w' := Auth(w, sid, token);
            key !in w'.disconnectTimeouts
            && (key in w.disconnectTimeouts ==> w.disconnectTimeouts[key] !in w'.timers)
  {
    var key := w.sessions[token];
    AuthReturns(w, sid, token);
    var w2 := CancelGrace(Bound(w, sid, key), key);
    var code := w.userRoom[key];
    if code !in w2.rooms || FindByKey(w2.rooms[code].players, key) == -1 {
      RejoinMissing(w2, sid, key, code, w.users[key].displayName);
    } else {
      RejoinSeat(w2, sid, key, code, w.users[key].displayName);
    }
  }

  /**
    A rejoin changes only the key's seat, and in it only the socket id: the
    board, the turn, the scores, the status and the other seat are as they
    were. The `game:rejoin` reply names `userRoom[key]` and the seat's symbol.
  */
  lemma RejoinKeepsGame(w: World, sid: SocketId, token: Token)
    requires SessionOk(w, token)
    requires var key := w.sessions[token];
             key in w.userRoom && w.userRoom[key] != "" && w.userRoom[key] in w.rooms
             && FindByKey(w.rooms[w.userRoom[key]].players, key) >= 0
    ensures var key := w.sessions[token]; var code := w.userRoom[key]; var r := w.rooms[code];
            var i := FindByKey(r.players, key); var w' := Auth(w, sid, token);
            code in w'.rooms
            && w'.rooms[code].board == r.board && w'.rooms[code].currentTurn == r.currentTurn
            && w'.rooms[code].scores == r.scores && w'.rooms[code].status == r.status
            && |w'.rooms[code].players| == |r.players|
            && w'.rooms[code].players[i] == r.players[i].(socketId := sid)
            && (forall j :: 0 <= j < |r.players| && j != i ==> w'.rooms[code].players[j] == r.players[j])
            && sid in w'.socketRoom && w'.socketRoom[sid] == code
            && (forall c :: c in w.rooms && c != code ==> c in w'.rooms && w'.rooms[c] == w.rooms[c])
            && |w'.outbox| == |w.outbox| + 3
            && w'.outbox[|w.outbox| + 1].msg.GameRejoin? && w'.outbox[|w.outbox| + 1].msg.code == code
            && w'.outbox[|w.outbox| + 1].msg.mySymbol == r.players[i].symbol
            && w'.outbox[|w.outbox| + 2].msg == OpponentReconnected(w.users[key].displayName)
  {
    var key := w.sessions[token];
    AuthReturns(w, sid, token);
    var w2 := CancelGrace(Bound(w, sid, key), key);
    RejoinSeat(w2, sid, key, w.userRoom[key], w.users[key].displayName);
  }

  /** No `game:rejoin` is sent when the recorded room is gone or no longer seats the key. */
  lemma NoRejoinWithoutSeat(w: World, sid: SocketId, token: Token)
    requires SessionOk(w, token)
    requires var key := w.sessions[token];
             key !in w.userRoom || w.userRoom[key] !in w.rooms || FindByKey(w.rooms[w.userRoom[key]].players, key) == -1
    ensures var w' := Auth(w, sid, token);
            w'.rooms == w.rooms && w'.socketRoom == w.socketRoom && w'.joined == w.joined
            && |w'.outbox| == |w.outbox| + 1
  {
    var key := w.sessions[token];
    if key !in w.userRoom || w.userRoom[key] == "" {
      AuthFresh(w, sid, token);
    } else {
      AuthReturns(w, sid, token);
      RejoinMissing(CancelGrace(Bound(w, sid, key), key), sid, key, w.userRoom[key], w.users[key].displayName);
    }
  }

  lemma AuthPreservesValid(w: World, sid: SocketId, token: Token)
    requires Valid(w)
    ensures Valid(Auth(w, sid, token)) && StatusesAdvance(w, Auth(w, sid, token))
  {
    if !SessionOk(w, token) {
      AuthRejectChangesNothing(w, sid, token);
    } else {
      var key := w.sessions[token];
      BoundValid(w, sid, key);
      if key !in w.userRoom || w.userRoom[key] == "" {
        AuthFresh(w, sid, token);
      } else {
        AuthReturns(w, sid, token);
        var w2 := CancelGrace(Bound(w, sid, key), key);
        assert Valid(w2);
        RejoinValid(w2, sid, key, w.userRoom[key], w.users[key].displayName);
      }
    }
  }

  lemma BoundValid(w: World, sid: SocketId, key: Key)
    requires Valid(w) && key in w.users
    ensures Valid(Bound(w, sid, key)) && Bound(w, sid, key).tournaments == w.tournaments
  {
    var w1 := w.(socketUser := w.socketUser[sid := key], userSocket := w.userSocket[key := sid]);
    assert Valid(w1);
    var u := w.users[key];
    EmitValid(w1, {sid}, AuthOk(u.displayName, u.wins, u.losses, u.draws));
  }

  lemma RejoinValid(w: World, sid: SocketId, key: Key, code: Code, name: string)
    requires Valid(w)
    ensures Valid(Rejoin(w, sid, key, code, name)) && Rejoin(w, sid, key, code, name).tournaments == w.tournaments
  {
    if code !in w.rooms || FindByKey(w.rooms[code].players, key) == -1 {
      RejoinMissing(w, sid, key, code, name);
    } else {
      RejoinSeat(w, sid, key, code, name);
      var r' := Reseat(w.rooms[code], FindByKey(w.rooms[code].players, key), sid);
      assert RoomOk(code, w.rooms[code]) && LinkOk(w.tournaments, w.rooms[code]);
      RoomsPut(w.rooms, code, r');
      LinksPut(w.rooms, w.tournaments, code, r');
    }
  }
}
