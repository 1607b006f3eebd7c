/**
  The `disconnect` event of tictactoe/socket/handlers/disconnect.js and the
  30-second grace timer it arms: the socket's bindings go at once, its seat
  stays, and only the timer firing gives the seat up. Also the reconnection
  protocol as a whole: a re-`auth` before the timer fires keeps the seat.
*/
module DisconnectHandler {
  import opened Entities
  import opened State
  import opened SocketUtils
  import opened AuthHandler

  /** socket.io's part of a disconnect: the socket is no longer live and belongs to no channel. */
  function Drop(w: World, sid: SocketId): (w': World)
    ensures w'.live == w.live - {sid}
    ensures forall p :: p in w'.joined <==> p in w.joined && p.0 != sid
    ensures w' == w.(live := w'.live, joined := w'.joined)
  {
    w.(live := w.live - {sid}, joined := set p | p in w.joined && p.0 != sid)
  }

  /** Lines 35-39: a fresh timer for `handlePlayerLeave(code, key)`, recorded as the key's handle. */
  function Arm(w: World, code: Code, key: Key): (w': World)
    ensures w'.timers == w.timers[w.nextTimer := GraceTimer(code, key)]
    ensures w'.disconnectTimeouts == w.disconnectTimeouts[key := w.nextTimer]
    ensures w'.nextTimer == w.nextTimer + 1
    ensures w' == w.(timers := w'.timers, disconnectTimeouts := w'.disconnectTimeouts, nextTimer := w'.nextTimer)
  {
    w.(timers := w.timers[w.nextTimer := GraceTimer(code, key)],
       disconnectTimeouts := w.disconnectTimeouts[key := w.nextTimer],
       nextTimer := w.nextTimer + 1)
  }

  /**
    `disconnect`: for an authenticated socket, `userSocket[key]` and
    `socketUser[socket]` are deleted (the former even when it already names a
    newer socket of the same key); if the socket had a room code the entry is
    deleted, and if that room exists the rest of it hears who dropped and a
    grace timer is armed, its handle replacing any earlier one for the key
    without clearing it. The seat itself stays. The rate-limiter entry is
    removed by the server (`Server.Disconnect`).
  */
  function Disconnect(w: World, sid: SocketId): World
  {
    match Authed(w, sid)
    case None => Drop(w, sid)
    case Some(key) =>
      var w1 := Unbound(w, sid, key);
      var code := if sid in w1.socketRoom then w1.socketRoom[sid] else "";
      if code == "" then w1
      else
        var w2 := w1.(socketRoom := w1.socketRoom - {sid});
        if code !in w2.rooms then w2
        else Arm(ToOthers(w2, sid, code, OpponentDisconnected(key)), code, key)
  }

  /** Lines 20-23: the socket dropped, and its key and socket unbound both ways. */
  function Unbound(w: World, sid: SocketId, key: Key): (w': World)
    ensures w' == w.(live := w.live - {sid}, joined := Drop(w, sid).joined,
                     userSocket := w.userSocket - {key}, socketUser := w.socketUser - {sid})
  {
    var w0 := Drop(w, sid);
    w0.(userSocket := w0.userSocket - {key}, socketUser := w0.socketUser - {sid})
  }

  /** The socket has a (truthy) room code recorded. */
  predicate Routed(w: World, sid: SocketId)
  {
    sid in w.socketRoom && w.socketRoom[sid] != ""
  }

  /** What every disconnect does: the socket is dropped, and the rooms, records and routes of keys stay. */
  predicate DropFrame(w: World, sid: SocketId, w': World)
  {
    w'.live == w.live - {sid} && w'.joined == Drop(w, sid).joined
    && w'.rooms == w.rooms && w'.users == w.users && w'.userRoom == w.userRoom
    && w'.sessions == w.sessions && w'.tournaments == w.tournaments
  }

  /** No grace timer is armed. */
  predicate TimersKept(w: World, w': World)
  {
    w'.timers == w.timers && w'.disconnectTimeouts == w.disconnectTimeouts && w'.nextTimer == w.nextTimer
  }

  lemma DisconnectUnauthed(w: World, sid: SocketId)
    requires Authed(w, sid).None?
    ensures Disconnect(w, sid) == Drop(w, sid)
    ensures DropFrame(w, sid, Disconnect(w, sid)) && TimersKept(w, Disconnect(w, sid))
  {
  }

  lemma DisconnectUnrouted(w: World, sid: SocketId)
    requires Authed(w, sid).Some? && !Routed(w, sid)
    ensures Disconnect(w, sid) == Unbound(w, sid, Authed(w, sid).value)
    ensures var w' := Disconnect(w, sid);
            DropFrame(w, sid, w') && TimersKept(w, w')
            && w'.socketUser == w.socketUser - {sid} && w'.userSocket == w.userSocket - {Authed(w, sid).value}
            && w'.socketRoom == w.socketRoom
  {
  }

  lemma DisconnectRoomGone(w: World, sid: SocketId)
    requires Authed(w, sid).Some? && Routed(w, sid) && w.socketRoom[sid] !in w.rooms
    ensures var w1 := Unbound(w, sid, Authed(w, sid).value);
            Disconnect(w, sid) == w1.(socketRoom := w1.socketRoom - {sid})
    ensures var w' := Disconnect(w, sid);
            DropFrame(w, sid, w') && TimersKept(w, w')
            && w'.socketUser == w.socketUser - {sid} && w'.userSocket == w.userSocket - {Authed(w, sid).value}
            && w'.socketRoom == w.socketRoom - {sid}
  {
  }

  lemma DisconnectArms(w: World, sid: SocketId)
    requires Authed(w, sid).Some? && Routed(w, sid) && w.socketRoom[sid] in w.rooms
    ensures var key := Authed(w, sid).value; var code := w.socketRoom[sid];
            var w1 := Unbound(w, sid, key); var w2 := w1.(socketRoom := w1.socketRoom - {sid});
            Disconnect(w, sid) == Arm(ToOthers(w2, sid, code, OpponentDisconnected(key)), code, key)
    ensures var w' := Disconnect(w, sid); var key := Authed(w, sid).value;
            DropFrame(w, sid, w')
            && w'.socketUser == w.socketUser - {sid} && w'.userSocket == w.userSocket - {key}
            && w'.socketRoom == w.socketRoom - {sid}
            && w'.timers == w.timers[w.nextTimer := GraceTimer(w.socketRoom[sid], key)]
            && w'.disconnectTimeouts == w.disconnectTimeouts[key := w.nextTimer]
            && w'.nextTimer == w.nextTimer + 1
  {
  }

  /** The timer `id` expires: it is no longer pending, and `handlePlayerLeave` runs with its room and key. */
  function FireGraceTimer(w: World, id: TimerId): (w': World)
    ensures id !in w.timers ==> w' == w
    ensures id in w.timers ==>
              w' == HandlePlayerLeave(w.(timers := w.timers - {id}), w.timers[id].code, w.timers[id].key)
  {
    if id !in w.timers then w
    else HandlePlayerLeave(w.(timers := w.timers - {id}), w.timers[id].code, w.timers[id].key)
  }

  /**
    A disconnect cuts the socket off but keeps the seat: the socket's
    session binding and route are gone and it is in no channel, while every
    room keeps all its seats.
  */
  lemma DisconnectKeepsSeat(w: World, sid: SocketId)
    ensures var w' := Disconnect(w, sid);
            sid !in w'.live && (forall c :: (sid, c) !in w'.joined)
            && w'.rooms == w.rooms && w'.users == w.users && w'.userRoom == w.userRoom
            && (Authed(w, sid).Some? ==>
                  sid !in w'.socketUser && Authed(w, sid).value !in w'.userSocket
                  && (sid in w'.socketRoom ==> w'.socketRoom[sid] == ""))
  {
    var w0 := Drop(w, sid);
    assert forall c :: (sid, c) !in w0.joined;
    if Authed(w, sid).None? {
      DisconnectUnauthed(w, sid);
    } else if !Routed(w, sid) {
      DisconnectUnrouted(w, sid);
    } else if w.socketRoom[sid] !in w.rooms {
      DisconnectRoomGone(w, sid);
    } else {
      DisconnectArms(w, sid);
    }
  }

  /** A socket that never authenticated leaves every map as it was. */
  lemma UnauthedDisconnect(w: World, sid: SocketId)
    requires Authed(w, sid).None?
    ensures var w' := Disconnect(w, sid);
            w' == w.(live := w'.live, joined := w'.joined)
  {
    DisconnectUnauthed(w, sid);
  }

  /**
    A grace timer is armed exactly when the authenticated socket's route
    names an existing room; the new handle is recorded for the key and runs
    `handlePlayerLeave` on that room and key.
  */
  lemma TimerArmedIffRoom(w: World, sid: SocketId)
    ensures var w' := Disconnect(w, sid);
            (w'.nextTimer == w.nextTimer + 1
             <==> Authed(w, sid).Some? && sid in w.socketRoom && w.socketRoom[sid] != "" && w.socketRoom[sid] in w.rooms)
            && (w'.nextTimer == w.nextTimer + 1 ==>
                  var key := Authed(w, sid).value;
                  w'.timers == w.timers[w.nextTimer := GraceTimer(w.socketRoom[sid], key)]
                  && w'.disconnectTimeouts == w.disconnectTimeouts[key := w.nextTimer])
            && (w'.nextTimer != w.nextTimer + 1 ==>
                  w'.nextTimer == w.nextTimer && w'.timers == w.timers && w'.disconnectTimeouts == w.disconnectTimeouts)
  {
    if Authed(w, sid).None? {
      DisconnectUnauthed(w, sid);
    } else if !Routed(w, sid) {
      DisconnectUnrouted(w, sid);
    } else if w.socketRoom[sid] !in w.rooms {
      DisconnectRoomGone(w, sid);
    } else {
      DisconnectArms(w, sid);
    }
  }

  /**
    A second disconnect of the same key replaces the recorded handle but
    leaves the first timer pending: both will fire.
  */
  lemma ReplacedHandleStaysArmed(w: World, sid: SocketId)
    requires TimersOk(w.timers, w.disconnectTimeouts, w.nextTimer)
    requires Authed(w, sid).Some? && sid in w.socketRoom && w.socketRoom[sid] != "" && w.socketRoom[sid] in w.rooms
    requires Authed(w, sid).value in w.disconnectTimeouts && w.disconnectTimeouts[Authed(w, sid).value] in w.timers
    ensures var key := Authed(w, sid).value; var old_id := w.disconnectTimeouts[key]; var w' := Disconnect(w, sid);
            old_id in w'.timers && w'.timers[old_id] == w.timers[old_id]
            && w'.disconnectTimeouts[key] != old_id
  {
    DisconnectArms(w, sid);
  }

  /** A fired timer is never pending again, so each grace timer runs at most once. */
  lemma FireOnce(w: World, id: TimerId)
    ensures id !in FireGraceTimer(w, id).timers
    ensures FireGraceTimer(FireGraceTimer(w, id), id) == FireGraceTimer(w, id)
  {
  }

  /**
    When the grace timer fires and the key is still seated, one seat of the
    key is given up (the room goes with its last seat), and the key's
    `userRoom` and `disconnectTimeouts` entries are gone.
  */
  lemma GraceExpiryFreesSeat(w: World, id: TimerId)
    requires id in w.timers && w.timers[id].code in w.rooms
    requires FindByKey(w.rooms[w.timers[id].code].players, w.timers[id].key) >= 0
    ensures var g := w.timers[id]; var ps := w.rooms[g.code].players; var w' := FireGraceTimer(w, id);
            g.key !in w'.userRoom && g.key !in w'.disconnectTimeouts && id !in w'.timers
            && (g.code in w'.rooms ==> SeatsOf(w'.rooms[g.code].players, g.key) + 1 == SeatsOf(ps, g.key))
            && (g.code !in w'.rooms ==> |ps| == 1)
  {
    var g := w.timers[id];
    var ps := w.rooms[g.code].players;
    var i := FindByKey(ps, g.key);
    var w0 := w.(timers := w.timers - {id});
    var w' := HandlePlayerLeave(w0, g.code, g.key);
    assert FireGraceTimer(w, id) == w';
    assert w0.rooms == w.rooms;
    var rest := RemoveAt(ps, i);
    if rest == [] {
      assert w'.rooms == w.rooms - {g.code};
    } else {
      assert w'.rooms[g.code].players == rest;
      SeatsOfRemove(ps, i, g.key);
    }
  }

  /**
    The reconnection protocol: a seated, authenticated socket drops, and a new
    socket authenticates with the user's session before the grace timer
    fires. The seat is kept, now on the new socket, with the same symbol and
    the same game, and the timer the disconnect armed is no longer pending,
    so it can never give the seat up.
  */
  lemma ReconnectKeepsSeat(w: World, sid: SocketId, sid2: SocketId, token: Token)
    requires Valid(w)
    requires Authed(w, sid).Some? && sid in w.socketRoom && w.socketRoom[sid] in w.rooms
    requires var key := Authed(w, sid).value; key in w.userRoom && w.userRoom[key] == w.socketRoom[sid]
    requires var key := Authed(w, sid).value; FindByKey(w.rooms[w.socketRoom[sid]].players, key) >= 0
    requires token in w.sessions && w.sessions[token] == Authed(w, sid).value
    ensures var key := Authed(w, sid).value; var code := w.socketRoom[sid]; var r := w.rooms[code];
            var i := FindByKey(r.players, key);
            var w1 := Disconnect(w, sid); var w2 := Auth(w1, sid2, token);
            w.nextTimer in w1.timers && w1.timers[w.nextTimer] == GraceTimer(code, key)
            && w.nextTimer !in w2.timers
            && code in w2.rooms && |w2.rooms[code].players| == |r.players|
            && w2.rooms[code].players[i] == r.players[i].(socketId := sid2)
            && w2.rooms[code].board == r.board && w2.rooms[code].currentTurn == r.currentTurn
            && w2.rooms[code].scores == r.scores
  {
    var key := Authed(w, sid).value;
    var code := w.socketRoom[sid];
    assert code != "";
    assert key in w.users;
    var w1 := Disconnect(w, sid);
    DisconnectArms(w, sid);
    assert w1.rooms == w.rooms && w1.userRoom == w.userRoom && w1.sessions == w.sessions && w1.users == w.users;
    assert w1.disconnectTimeouts[key] == w.nextTimer;
    assert SessionOk(w1, token);
    RejoinKeepsGame(w1, sid2, token);
    AuthCancelsGrace(w1, sid2, token);
  }

  lemma DisconnectPreservesValid(w: World, sid: SocketId)
    requires Valid(w)
    ensures Valid(Disconnect(w, sid)) && StatusesAdvance(w, Disconnect(w, sid))
  {
    if Authed(w, sid).None? {
      DisconnectUnauthed(w, sid);
      ChannelsValid(w, w.live - {sid}, Drop(w, sid).joined);
    } else {
      var key := Authed(w, sid).value;
      UnboundValid(w, sid, key);
      var w1 := Unbound(w, sid, key);
      if !Routed(w, sid) {
        DisconnectUnrouted(w, sid);
      } else {
        ForgetSocketValid(w1, sid, "");
        var w2 := w1.(socketRoom := w1.socketRoom - {sid});
        if w.socketRoom[sid] !in w.rooms {
          DisconnectRoomGone(w, sid);
        } else {
          DisconnectArms(w, sid);
          var code := w.socketRoom[sid];
          EmitValid(w2, Members(w2.joined, code) - {sid}, OpponentDisconnected(key));
          ArmValid(ToOthers(w2, sid, code, OpponentDisconnected(key)), code, key);
        }
      }
    }
  }

  lemma UnboundValid(w: World, sid: SocketId, key: Key)
    requires Valid(w)
    ensures Valid(Unbound(w, sid, key))
  {
    var w1 := w.(live := w.live - {sid}, joined := Drop(w, sid).joined);
    ChannelsValid(w, w.live - {sid}, Drop(w, sid).joined);
    assert UsersOk(w.socketUser - {sid}, w.users);
  }

  lemma ArmValid(w: World, code: Code, key: Key)
    requires Valid(w)
    ensures Valid(Arm(w, code, key)) && Arm(w, code, key).tournaments == w.tournaments
  {
  }

  lemma FirePreservesValid(w: World, id: TimerId)
    requires Valid(w)
    ensures Valid(FireGraceTimer(w, id)) && StatusesAdvance(w, FireGraceTimer(w, id))
  {
    if id in w.timers {
      PlayerLeavePreservesValid(w.(timers := w.timers - {id}), w.timers[id].code, w.timers[id].key);
    }
  }
}
