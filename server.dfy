/**
  The running server: the shared maps of tictactoe/server.js:112-119 and the
  rest of the world as fields of one object that the socket handlers update
  in place, the rate limiter that guards every inbound packet
  (tictactoe/socket/index.js:25-33), and the timers that fire later. Each
  method is one inbound event; its new state is the matching transition of
  the value model, and every event keeps the invariant `State.Valid`.
*/
module Server {
  import opened Wrappers
  import opened GameLogic
  import opened Entities
  import opened State
  import opened Utils
  import RL = RateLimit
  import opened SocketUtils
  import opened RoomHandlers
  import opened GameHandlers
  import opened Bracket
  import opened AuthHandler
  import opened DisconnectHandler
  import opened ChatHandler

  const RateLimited := "Rate limit exceeded. Please slow down."

  /** An inbound socket.io packet: the event and its payload as the client sent it. */
  datatype Packet =
    | AuthPacket(token: Token)
    | CreateRoomPacket(draws: nat -> nat)
    | JoinRoomPacket(roomCode: Option<string>)
    | MovePacket(code: Code, index: int, coinX: bool)
    | RematchPacket(code: Code)
    | ChatPacket(code: Code, text: Option<string>)
    | CreateTournamentPacket(draws: nat -> nat)
    | JoinTournamentPacket(tournamentCode: Option<string>, swaps: seq<(nat, nat)>)
    | UnhandledPacket(name: string)

  /** The events some handler listens for, and `disconnect`, which socket.io raises itself. */
  predicate Handled(name: string)
  {
    name in {"auth", "room:create", "room:join", "game:move", "game:rematch", "chat:msg",
             "tournament:create", "tournament:join", "disconnect"}
  }

  /** `packet[0]`, the name the rate limiter counts. */
  function EventName(p: Packet): string
  {
    match p
    case AuthPacket(_) => "auth"
    case CreateRoomPacket(_) => "room:create"
    case JoinRoomPacket(_) => "room:join"
    case MovePacket(_, _, _) => "game:move"
    case RematchPacket(_) => "game:rematch"
    case ChatPacket(_, _) => "chat:msg"
    case CreateTournamentPacket(_) => "tournament:create"
    case JoinTournamentPacket(_, _) => "tournament:join"
    case UnhandledPacket(name) => name
  }

  /**
    What the handler of `p` needs of the world: random draws that eventually
    give a free code; and an unhandled packet names an event no handler
    listens for, such as `room:leave`.
  */
  ghost predicate Ready(w: World, p: Packet)
  {
    && (p.UnhandledPacket? ==> !Handled(p.name))
    && (p.CreateRoomPacket? ==> EventuallyFree(w.rooms.Keys, p.draws))
    && (p.CreateTournamentPacket? ==> EventuallyFree(w.tournaments.Keys, p.draws))
  }

  /** The handler the packet reaches once admitted; a crashed process handles nothing. */
  function Handle(w: World, sid: SocketId, p: Packet, now: int): (w': World)
    requires RoutesOk(w.socketRoom, w.userRoom) && Ready(w, p)
    ensures w.crashed ==> w' == w
  {
    if w.crashed then w
    else
      match p
      case AuthPacket(token) => Auth(w, sid, token)
      case CreateRoomPacket(draws) => CreateRoom(w, sid, draws)
      case JoinRoomPacket(code) => JoinRoom(w, sid, code)
      case MovePacket(code, index, coinX) => Move(w, sid, code, index, coinX, now)
      case RematchPacket(code) => Rematch(w, sid, code)
      case ChatPacket(code, text) => Chat(w, sid, code, text, now)
      case CreateTournamentPacket(draws) => CreateTournament(w, sid, draws)
      case JoinTournamentPacket(code, swaps) => JoinTournament(w, sid, code, swaps)
      case UnhandledPacket(_) => w
  }

  /**
    A packet of socket `sid` at time `now`: the rate limiter decides first;
    a refused packet is dropped with an `error` to the socket, an admitted
    one goes to its handler.
  */
  function Deliver(w: World, limits: map<SocketId, RL.Client>, sid: SocketId, p: Packet, now: int): (r: (World, map<SocketId, RL.Client>))
    requires RoutesOk(w.socketRoom, w.userRoom) && Ready(w, p)
    ensures w.crashed ==> r == (w, limits)
    ensures !w.crashed ==> r.1 == RL.CheckAll(limits, sid, EventName(p), now).1
    ensures !w.crashed && !RL.CheckAll(limits, sid, EventName(p), now).0 ==> r.0 == ToSocket(w, sid, Error(RateLimited))
    ensures !w.crashed && RL.CheckAll(limits, sid, EventName(p), now).0 ==> r.0 == Handle(w, sid, p, now)
  {
    if w.crashed then (w, limits)
    else
      var (ok, limits') := RL.CheckAll(limits, sid, EventName(p), now);
      if ok then (Handle(w, sid, p, now), limits') else (ToSocket(w, sid, Error(RateLimited)), limits')
  }

  /** Every handler keeps the invariant and moves no tournament backwards. */
  lemma HandleValid(w: World, sid: SocketId, p: Packet, now: int)
    requires Valid(w) && Ready(w, p)
    ensures Valid(Handle(w, sid, p, now)) && StatusesAdvance(w, Handle(w, sid, p, now))
  {
    if !w.crashed {
      match p
      case AuthPacket(token) =>
        assert Handle(w, sid, p, now) == Auth(w, sid, token);
        AuthPreservesValid(w, sid, token);
      case CreateRoomPacket(draws) =>
        assert Handle(w, sid, p, now) == CreateRoom(w, sid, draws);
        CreatePreservesValid(w, sid, draws);
      case JoinRoomPacket(code) =>
        assert Handle(w, sid, p, now) == JoinRoom(w, sid, code);
        JoinPreservesValid(w, sid, code);
      case MovePacket(code, index, coinX) =>
        assert Handle(w, sid, p, now) == Move(w, sid, code, index, coinX, now);
        MovePreservesValid(w, sid, code, index, coinX, now);
      case RematchPacket(code) =>
        assert Handle(w, sid, p, now) == Rematch(w, sid, code);
        RematchPreservesValid(w, sid, code);
      case ChatPacket(code, text) =>
        assert Handle(w, sid, p, now) == Chat(w, sid, code, text, now);
        ChatPreservesValid(w, sid, code, text, now);
      case CreateTournamentPacket(draws) =>
        assert Handle(w, sid, p, now) == CreateTournament(w, sid, draws);
        CreateTournamentValid(w, sid, draws);
      case JoinTournamentPacket(code, swaps) =>
        assert Handle(w, sid, p, now) == JoinTournament(w, sid, code, swaps);
        JoinTournamentValid(w, sid, code, swaps);
      case UnhandledPacket(_) =>
    }
  }

  /**
    An event no handler listens for, such as `room:leave`, still passes the
    limiter: once admitted it is counted against the socket's global budget
    and changes nothing else.
  */
  lemma UnhandledSpendsBudget(w: World, limits: map<SocketId, RL.Client>, sid: SocketId, name: string, now: int)
    requires RoutesOk(w.socketRoom, w.userRoom) && !Handled(name) && !w.crashed
    ensures var r := Deliver(w, limits, sid, UnhandledPacket(name), now);
            var o := RL.Opened(Get(limits, sid), now);
            RL.CheckAll(limits, sid, name, now).0 ==> r.0 == w && r.1[sid].count == o.count + 1
  {
  }

  /** A refused packet reaches no handler: only the `error` reply is added. */
  lemma RefusedPacketChangesNothing(w: World, limits: map<SocketId, RL.Client>, sid: SocketId, p: Packet, now: int)
    requires RoutesOk(w.socketRoom, w.userRoom) && Ready(w, p)
    requires !w.crashed && !RL.CheckAll(limits, sid, EventName(p), now).0
    ensures var w' := Deliver(w, limits, sid, p, now).0;
            w' == w.(outbox := w'.outbox) && w'.outbox == w.outbox + [Sent({sid}, Error(RateLimited))]
  {
  }

  /** The server process. */
  class Server {
    var sessions: map<Token, Key>
    var users: map<Key, User>
    var socketUser: map<SocketId, Key>
    var userSocket: map<Key, SocketId>
    var rooms: map<Code, Room>
    var socketRoom: map<SocketId, Code>
    var userRoom: map<Key, Code>
    var disconnectTimeouts: map<Key, TimerId>
    var tournaments: map<Code, Tournament>
    var live: set<SocketId>
    var joined: set<(SocketId, Code)>
    var timers: map<TimerId, GraceTimer>
    var nextTimer: TimerId
    var finalSpawns: seq<Code>
    var outbox: seq<Sent>
    var crashed: bool
    const limiter: RL.RateLimiter

    /** The fields as one world value. */
    function St(): World
      reads this
    {
      World(sessions, users, socketUser, userSocket, rooms, socketRoom, userRoom, disconnectTimeouts,
            tournaments, live, joined, timers, nextTimer, finalSpawns, outbox, crashed)
    }

    ghost predicate Inv()
      reads this, limiter
    {
      Valid(St()) && RL.LimitsOk(limiter.clientLimits)
    }

    constructor()
      ensures St() == Initial && limiter.clientLimits == map[] && Inv()
    {
      sessions, users, socketUser, userSocket := map[], map[], map[], map[];
      rooms, socketRoom, userRoom, disconnectTimeouts := map[], map[], map[], map[];
      tournaments, live, joined, timers := map[], {}, {}, map[];
      nextTimer, finalSpawns, outbox, crashed := 0, [], [], false;
      limiter := new RL.RateLimiter();
      InitialValid();
    }

    /** Writes a whole world back into the fields, for the handlers modelled on values. */
    method Store(w: World)
      modifies this
      ensures St() == w
    {
      StoreAccounts(w);
      StoreRoutes(w);
      StoreChannels(w);
      StoreLog(w);
    }

    /** The sessions, the users and the socket-key bindings. */
    method StoreAccounts(w: World)
      modifies this
      ensures St() == old(St()).(sessions := w.sessions, users := w.users, socketUser := w.socketUser,
                                 userSocket := w.userSocket)
    {
      sessions, users, socketUser, userSocket := w.sessions, w.users, w.socketUser, w.userSocket;
    }

    /** The rooms, the routes to them and the grace-timer handles. */
    method StoreRoutes(w: World)
      modifies this
      ensures St() == old(St()).(rooms := w.rooms, socketRoom := w.socketRoom, userRoom := w.userRoom,
                                 disconnectTimeouts := w.disconnectTimeouts)
    {
      rooms, socketRoom, userRoom, disconnectTimeouts := w.rooms, w.socketRoom, w.userRoom, w.disconnectTimeouts;
    }

    /** The tournaments, socket.io's sockets and channels, and the pending timers. */
    method StoreChannels(w: World)
      modifies this
      ensures St() == old(St()).(tournaments := w.tournaments, live := w.live, joined := w.joined, timers := w.timers)
    {
      tournaments, live, joined, timers := w.tournaments, w.live, w.joined, w.timers;
    }

    /** The timer counter, the pending final spawns, the log and the crash flag. */
    method StoreLog(w: World)
      modifies this
      ensures St() == old(St()).(nextTimer := w.nextTimer, finalSpawns := w.finalSpawns, outbox := w.outbox,
                                 crashed := w.crashed)
    {
      nextTimer, finalSpawns, outbox, crashed := w.nextTimer, w.finalSpawns, w.outbox, w.crashed;
    }

    // ------------------------------------------------------------ single updates

    /** `socket.emit`, `io.to(...).emit` or `socket.to(...).emit`: one entry appended to the log. */
    method Send(to: set<SocketId>, m: Msg)
      modifies this
      ensures St() == Emit(old(St()), to, m)
    {
      outbox := outbox + [Sent(to, m)];
    }

    /** An uncaught `TypeError` ends the process. */
    method Halt()
      modifies this
      ensures St() == Crash(old(St()))
    {
      crashed := true;
    }

    /** `rooms.set(code, r)`, or an update of the stored room object. */
    method PutRoom(code: Code, r: Room)
      modifies this
      ensures St() == old(St()).(rooms := old(rooms)[code := r])
    {
      rooms := rooms[code := r];
    }

    /** `tournaments.set(tc, t)`, or an update of the stored tournament object. */
    method PutTournament(tc: Code, t: Tournament)
      modifies this
      ensures St() == old(St()).(tournaments := old(tournaments)[tc := t])
    {
      tournaments := tournaments[tc := t];
    }

    /** `socketRoom.set(socket.id, code)` and `socket.join(code)`. */
    method Route(sid: SocketId, code: Code)
      modifies this
      ensures St() == old(St()).(socketRoom := old(socketRoom)[sid := code], joined := old(joined) + {(sid, code)})
    {
      socketRoom := socketRoom[sid := code];
      joined := joined + {(sid, code)};
    }

    /** A room stored, and routed to from the socket and the key, with the socket in its channel. */
    method Seat(sid: SocketId, key: Key, code: Code, r: Room)
      modifies this
      ensures St() == old(St()).(rooms := old(rooms)[code := r], socketRoom := old(socketRoom)[sid := code],
                                 userRoom := old(userRoom)[key := code], joined := old(joined) + {(sid, code)})
    {
      PutRoom(code, r);
      Route(sid, code);
      userRoom := userRoom[key := code];
    }

    /** `io.on('connection')`: the socket becomes live and joins the channel named by its own id. */
    method Connect(sid: SocketId)
      requires Inv()
      modifies this
      ensures Inv() && St() == if old(crashed) then old(St()) else Connected(old(St()), sid)
    {
      if crashed {
        return;
      }
      live := live + {sid};
      joined := joined + {(sid, sid)};
    }

    // ------------------------------------------------------------ leaving a room

    /** `leaveCurrentRoom(socket)` (tictactoe/socket/utils.js:5-29). */
    method Leave(sid: SocketId)
      modifies this
      ensures St() == LeaveCurrentRoom(old(St()), sid)
    {
      if sid !in socketRoom || socketRoom[sid] == "" {
        return;
      }
      var code := socketRoom[sid];
      if code in rooms {
        VacateSeat(sid, code);
      }
      socketRoom := socketRoom - {sid};
    }

    /** The socket's seat in room `code` goes; the room goes with its last seat. */
    method VacateSeat(sid: SocketId, code: Code)
      requires code in rooms
      modifies this
      ensures St() == LeaveSeat(old(St()), sid, code)
    {
      var room := rooms[code];
      var idx := FindBySocket(room.players, sid);
      if idx == -1 {
        return;
      }
      var p := room.players[idx];
      if p.key != "" {
        Unclaim(p.key);
      }
      joined := joined - {(sid, code)};
      var rest := RemoveAt(room.players, idx);
      if |rest| == 0 {
        DropRoom(code);
      } else {
        PutRoom(code, room.(players := rest, status := Waiting, rematchVotes := {}));
        Send(Members(joined, code) - {sid}, OpponentLeft);
      }
    }

    /** `userRoom.delete(key)`. */
    method Unclaim(key: Key)
      modifies this
      ensures St() == old(St()).(userRoom := old(userRoom) - {key})
    {
      userRoom := userRoom - {key};
    }

    /** `rooms.delete(code)`. */
    method DropRoom(code: Code)
      modifies this
      ensures St() == old(St()).(rooms := old(rooms) - {code})
    {
      rooms := rooms - {code};
    }

    /** `handlePlayerLeave(code, key)` (tictactoe/socket/utils.js:31-50). */
    method PlayerLeave(code: Code, key: Key)
      modifies this
      ensures St() == HandlePlayerLeave(old(St()), code, key)
    {
      if code !in rooms {
        return;
      }
      var room := rooms[code];
      var idx := FindByKey(room.players, key);
      if idx == -1 {
        return;
      }
      var rest := RemoveAt(room.players, idx);
      Unclaim(key);
      disconnectTimeouts := disconnectTimeouts - {key};
      if |rest| == 0 {
        DropRoom(code);
      } else {
        PutRoom(code, room.(players := rest, status := Waiting, rematchVotes := {}));
        Send(Members(joined, code), OpponentLeft);
      }
    }

    // ------------------------------------------------------------ auth

    /** `auth` (tictactoe/socket/handlers/auth.js:16-60). */
    method HandleAuth(sid: SocketId, token: Token)
      modifies this
      ensures St() == Auth(old(St()), sid, token)
    {
      if !(token in sessions && sessions[token] != "" && sessions[token] in users) {
        Send({sid}, AuthError(SessionExpired));
        return;
      }
      ghost var w := St();
      var key := sessions[token];
      var u := users[key];
      Bind(sid, key);
      Send({sid}, AuthOk(u.displayName, u.wins, u.losses, u.draws));
      var existing := if key in userRoom then userRoom[key] else "";
      if existing == "" {
        AuthFresh(w, sid, token);
        return;
      }
      AuthReturns(w, sid, token);
      ClearGrace(key);
      SeatRejoin(sid, key, existing, u.displayName);
    }

    /** `socketUser.set(socket.id, key)` and `userSocket.set(key, socket.id)`. */
    method Bind(sid: SocketId, key: Key)
      modifies this
      ensures St() == old(St()).(socketUser := old(socketUser)[sid := key], userSocket := old(userSocket)[key := sid])
    {
      socketUser := socketUser[sid := key];
      userSocket := userSocket[key := sid];
    }

    /** `clearTimeout(disconnectTimeouts.get(key))` and the handle forgotten. */
    method ClearGrace(key: Key)
      modifies this
      ensures St() == CancelGrace(old(St()), key)
    {
      if key in disconnectTimeouts {
        timers := timers - {disconnectTimeouts[key]};
        disconnectTimeouts := disconnectTimeouts - {key};
      }
    }

    /** The recorded room takes the socket back into the key's seat. */
    method SeatRejoin(sid: SocketId, key: Key, code: Code, name: string)
      modifies this
      ensures St() == Rejoin(old(St()), sid, key, code, name)
    {
      if code !in rooms || FindByKey(rooms[code].players, key) == -1 {
        RejoinMissing(St(), sid, key, code, name);
        return;
      }
      RejoinSeat(St(), sid, key, code, name);
      var i := FindByKey(rooms[code].players, key);
      var r := Reseat(rooms[code], i, sid);
      PutRoom(code, r);
      Route(sid, code);
      Send({sid}, GameRejoin(code, r.board, r.currentTurn, r.scores, Views(r.players), r.players[i].symbol, r));
      Send(Members(joined, code) - {sid}, OpponentReconnected(name));
    }

    // ------------------------------------------------------------ rooms

    /** `room:create` (tictactoe/socket/handlers/room.js:18-37). */
    method HandleCreateRoom(sid: SocketId, draws: nat -> nat)
      requires EventuallyFree(rooms.Keys, draws)
      modifies this
      ensures St() == CreateRoom(old(St()), sid, draws)
    {
      ghost var w := St();
      if sid !in socketUser || socketUser[sid] == "" {
        CreateRoomRefuses(w, sid, draws);
        Send({sid}, Error(NotAuthenticated));
        return;
      }
      var key := socketUser[sid];
      FreeAfterLeave(w, sid, draws);
      Leave(sid);
      ghost var w1 := St();
      assert w1.users == w.users;
      var code := GenerateRoomCode(rooms.Keys, draws);
      assert code == CreatedCode(w, sid, draws);
      if key !in users {
        CreateRoomCrashes(w, sid, draws);
        Halt();
        return;
      }
      CreateRoomOpens(w, sid, draws);
      OpenRoom(sid, key, code);
    }

    /** Lines 24-36 of tictactoe/socket/handlers/room.js: the new room stored with its creator as X, who is routed to it and told. */
    method OpenRoom(sid: SocketId, key: Key, code: Code)
      requires key in users
      modifies this
      ensures St() == old(St()).(rooms := old(rooms)[code := NewRoom(code, sid, key, old(users)[key].displayName)],
                                 socketRoom := old(socketRoom)[sid := code], userRoom := old(userRoom)[key := code],
                                 joined := old(joined) + {(sid, code)}, outbox := old(outbox) + [Sent({sid}, RoomCreated(code, X))])
    {
      Seat(sid, key, code, NewRoom(code, sid, key, users[key].displayName));
      Send({sid}, RoomCreated(code, X));
    }

    /** `room:join` (tictactoe/socket/handlers/room.js:40-67). */
    method HandleJoinRoom(sid: SocketId, codeArg: Option<string>)
      requires RoutesOk(socketRoom, userRoom)
      modifies this
      ensures St() == JoinRoom(old(St()), sid, codeArg)
    {
      if sid !in socketUser || socketUser[sid] == "" {
        Send({sid}, Error(NotAuthenticated));
        return;
      }
      var key := socketUser[sid];
      if codeArg.None? {
        Send({sid}, RoomError(InvalidRoomCode));
        return;
      }
      var code := JoinCode(codeArg.value);
      var room := Get(rooms, code);
      var check := ValidateRoomJoin(room, sid);
      if check.JoinError? {
        Send({sid}, RoomError(check.error));
        return;
      }
      Leave(sid);
      if key !in users {
        Halt();
        return;
      }
      var r := Joined(room.value, sid, key, users[key].displayName);
      Seat(sid, key, code, r);
      Send({sid}, RoomJoined(code, O));
      Send(Members(joined, code), GameStart(r.board, r.currentTurn, Views(r.players), r.scores, false));
    }

    // ------------------------------------------------------------ game

    /** `game:move` (tictactoe/socket/handlers/game.js:17-58). */
    method HandleMove(sid: SocketId, code: Code, index: int, coinX: bool, now: int)
      modifies this
      ensures St() == Move(old(St()), sid, code, index, coinX, now)
    {
      if sid !in socketUser || socketUser[sid] == "" || code !in rooms || rooms[code].status != Playing {
        return;
      }
      var r := rooms[code];
      var i := FindBySocket(r.players, sid);
      if i == -1 {
        outbox := outbox + [Sent({sid}, GameError(NotInRoom))];
        return;
      }
      if r.players[i].symbol != r.currentTurn {
        outbox := outbox + [Sent({sid}, GameError(NotYourTurn))];
        return;
      }
      if index < 0 || index >= 9 || r.board[index] != Empty {
        outbox := outbox + [Sent({sid}, GameError(CellTaken))];
        return;
      }
      PlaceMark(code, r.players[i].symbol, index);
      var result := Utils.CheckWinner(rooms[code].board);
      if result.Some? {
        var winner := if result.value.Win? then Some(result.value.winner) else None;
        Store(TournamentResult(St(), code, winner, coinX, now));
      }
    }

    /** Lines 29-57: the mark, its announcement, and the end of the game when the board decides it. */
    method PlaceMark(code: Code, sym: Sym, index: Index)
      requires code in rooms
      modifies this
      ensures St() == Settle(old(St()), code, sym, index)
    {
      ghost var w := St();
      var r := rooms[code];
      Publish(code, r.(board := r.board[index := Mark(sym)]), GameMove(index, sym));
      var r', u, verdict := Outcome(r, sym, index, users);
      Conclude(code, r', u, verdict);
      SettleInSteps(w, code, sym, index, r', u, verdict);
    }

    /** The room object updated in place, then the room told. */
    method Publish(code: Code, r: Room, m: Msg)
      modifies this
      ensures St() == ToRoom(old(St()).(rooms := old(rooms)[code := r]), code, m)
    {
      PutRoom(code, r);
      Send(Members(joined, code), m);
    }

    /** The settled room and the credited records stored, and the verdict sent to the room. */
    method Conclude(code: Code, r: Room, u: map<Key, User>, verdict: Msg)
      modifies this
      ensures St() == ToRoom(old(St()).(rooms := old(rooms)[code := r], users := u), code, verdict)
    {
      SetUsers(u);
      PutRoom(code, r);
      Send(Members(joined, code), verdict);
    }

    /** Lines 35-56 without the emits: the room, the user records and the message once the board is checked. */
    static method Outcome(r: Room, sym: Sym, index: Index, users0: map<Key, User>) returns (r': Room, u: map<Key, User>, verdict: Msg)
      ensures r' == Settled(r, sym, index) && u == Credited(users0, r.players, r'.board)
      ensures verdict == GameHandlers.Verdict(r')
    {
      var b := r.board[index := Mark(sym)];
      match Utils.CheckWinner(b) {
        case None =>
          var turn := Other(r.currentTurn);
          r', u, verdict := r.(board := b, currentTurn := turn), users0, GameTurn(turn);
        case Some(Win(s, line)) =>
          var sc := Bump(r.scores, s);
          u := AddLoss(AddWin(users0, FindBySymbol(r.players, s)), FindNotSymbol(r.players, s));
          r', verdict := r.(board := b, status := Done, scores := sc), GameOverWin(s, line, sc);
        case Some(Draw) =>
          var sc := r.scores.(d := r.scores.d + 1);
          u := CreditDraws(users0, r.players);
          r', verdict := r.(board := b, status := Done, scores := sc), GameOverDraw(sc);
      }
    }

    /** The user records after `wins++`, `losses++` or `draws++` on them. */
    method SetUsers(u: map<Key, User>)
      modifies this
      ensures St() == old(St()).(users := u)
    {
      users := u;
    }

    /** `room.players.forEach(p => { if (users[p.key]) users[p.key].draws++; })`. */
    static method CreditDraws(users0: map<Key, User>, ps: seq<Player>) returns (u: map<Key, User>)
      ensures u == AddDraws(users0, ps)
    {
      u := users0;
      var k := 0;
      while k < |ps|
        invariant 0 <= k <= |ps|
        invariant AddDraws(u, ps[k..]) == AddDraws(users0, ps)
      {
        var key := ps[k].key;
        if key in u {
          u := u[key := u[key].(draws := u[key].draws + 1)];
        }
        assert ps[k..][1..] == ps[k + 1..];
        k := k + 1;
      }
      assert ps[k..] == [];
    }

    /** `game:rematch` (tictactoe/socket/handlers/game.js:61-84). */
    method HandleRematch(sid: SocketId, code: Code)
      modifies this
      ensures St() == Rematch(old(St()), sid, code)
    {
      if code !in rooms || |rooms[code].players| < 2 {
        return;
      }
      var r := rooms[code];
      var votes := r.rematchVotes + {sid};
      if |votes| >= 2 {
        var ps := SwapAll(r.players);
        rooms := rooms[code := r.(players := ps, board := EmptyBoard, currentTurn := X, status := Playing, rematchVotes := {})];
        outbox := outbox + [Sent(Members(joined, code), GameStart(EmptyBoard, X, Views(ps), r.scores, false))];
      } else {
        var name := RequesterName(St(), sid);
        rooms := rooms[code := r.(rematchVotes := votes)];
        outbox := outbox + [Sent(Members(joined, code) - {sid}, RematchRequest(name))];
      }
    }

    /** `room.players.forEach(p => { p.symbol = p.symbol === 'X' ? 'O' : 'X'; })`. */
    static method SwapAll(ps: seq<Player>) returns (qs: seq<Player>)
      ensures qs == SwapSymbols(ps)
    {
      qs := ps;
      var k := 0;
      while k < |ps|
        invariant 0 <= k <= |ps| && |qs| == |ps|
        invariant forall j :: 0 <= j < k ==> qs[j] == ps[j].(symbol := Other(ps[j].symbol))
        invariant forall j :: k <= j < |ps| ==> qs[j] == ps[j]
      {
        qs := qs[k := qs[k].(symbol := Other(qs[k].symbol))];
        k := k + 1;
      }
    }

    // ------------------------------------------------------------ chat

    /** `chat:msg` (tictactoe/socket/handlers/chat.js:9-20). */
    method HandleChat(sid: SocketId, code: Code, text: Option<string>, now: int)
      modifies this
      ensures St() == Chat(old(St()), sid, code, text, now)
    {
      match ChatMessage(St(), sid, code, text, now)
      case Silent =>
      case Broadcast(c, m) => Send(Members(joined, c), m);
      case ChatCrash => Halt();
    }

    // ------------------------------------------------------------ tournaments

    /** `tournament:create` (tictactoe/socket/handlers/tournament.js:151-169). */
    method HandleCreateTournament(sid: SocketId, draws: nat -> nat)
      requires EventuallyFree(tournaments.Keys, draws)
      modifies this
      ensures St() == CreateTournament(old(St()), sid, draws)
    {
      ghost var w := St();
      if sid !in socketUser || socketUser[sid] == "" {
        CreateTournamentRefuses(w, sid, draws);
        Send({sid}, Error(NotAuthenticated));
        return;
      }
      var key := socketUser[sid];
      Leave(sid);
      var tc := GenerateRoomCode(tournaments.Keys, draws);
      if key !in users {
        CreateTournamentCrashes(w, sid, draws);
        Halt();
        return;
      }
      CreateTournamentOpens(w, sid, draws);
      OpenLobby(sid, key, tc);
    }

    /** Lines 157-168: the lobby stored with its creator, routed to and joined, and announced to the creator. */
    method OpenLobby(sid: SocketId, key: Key, tc: Code)
      requires key in users
      modifies this
      ensures var ps := [TPlayer(sid, key, old(users)[key].displayName)];
              St() == old(St()).(tournaments := old(tournaments)[tc := Tournament(tc, ps, [], TWaiting)],
                                 socketRoom := old(socketRoom)[sid := tc], joined := old(joined) + {(sid, tc)},
                                 outbox := old(outbox) + [Sent({sid}, TournamentCreated(tc)), Sent({sid}, TournamentLobby(ps, TWaiting))])
    {
      var ps := [TPlayer(sid, key, users[key].displayName)];
      PutTournament(tc, Tournament(tc, ps, [], TWaiting));
      Route(sid, tc);
      Send({sid}, TournamentCreated(tc));
      Send({sid}, TournamentLobby(ps, TWaiting));
    }

    /** `tournament:join` (tictactoe/socket/handlers/tournament.js:172-193). */
    method HandleJoinTournament(sid: SocketId, codeArg: Option<string>, swaps: seq<(nat, nat)>)
      modifies this
      ensures St() == JoinTournament(old(St()), sid, codeArg, swaps)
    {
      if sid !in socketUser || socketUser[sid] == "" {
        outbox := outbox + [Sent({sid}, Error(NotAuthenticated))];
        return;
      }
      var key := socketUser[sid];
      if codeArg.None? {
        crashed := true;
        return;
      }
      var tc := JoinCode(codeArg.value);
      if tc !in tournaments {
        outbox := outbox + [Sent({sid}, Error(TournamentNotFound))];
        return;
      }
      if tournaments[tc].status != TWaiting {
        outbox := outbox + [Sent({sid}, Error(TournamentStarted))];
        return;
      }
      if |tournaments[tc].players| >= 4 {
        outbox := outbox + [Sent({sid}, Error(TournamentFull))];
        return;
      }
      Leave(sid);
      if key !in users {
        crashed := true;
        return;
      }
      Enlist(sid, key, tc);
      if |tournaments[tc].players| == 4 {
        Store(StartTournament(St(), tc, swaps));
      }
    }

    /** Lines 186-190: the joiner appended to the lobby and its channel, and the lobby told. */
    method Enlist(sid: SocketId, key: Key, tc: Code)
      requires tc in tournaments && key in users
      modifies this
      ensures St() == Enrol(old(St()), sid, key, tc)
    {
      var t := tournaments[tc];
      var t1 := t.(players := t.players + [TPlayer(sid, key, users[key].displayName)]);
      tournaments := tournaments[tc := t1];
      socketRoom := socketRoom[sid := tc];
      joined := joined + {(sid, tc)};
      outbox := outbox + [Sent(Members(joined, tc), TournamentLobby(t1.players, t1.status))];
    }

    // ------------------------------------------------------------ the process

    /**
      One inbound packet through the middleware of
      tictactoe/socket/index.js:25-33: the limiter counts it, a refused one
      is answered with `error` and dropped, an admitted one is handled.
    */
    method Receive(sid: SocketId, p: Packet, now: int)
      requires Inv() && Ready(St(), p)
      modifies this, limiter
      ensures (St(), limiter.clientLimits) == Deliver(old(St()), old(limiter.clientLimits), sid, p, now)
      ensures Inv()
    {
      if crashed {
        return;
      }
      ghost var w := St();
      RL.CheckKeepsLimits(limiter.clientLimits, sid, EventName(p), now);
      var ok := limiter.Check(sid, EventName(p), now);
      assert St() == w;
      if !ok {
        EmitValid(w, {sid}, Error(RateLimited));
        Send({sid}, Error(RateLimited));
        return;
      }
      Serve(sid, p, now);
    }

    /** An admitted event: its handler runs, and the state stays valid. */
    method Serve(sid: SocketId, p: Packet, now: int)
      requires Valid(St()) && Ready(St(), p) && !crashed
      modifies this
      ensures St() == Handle(old(St()), sid, p, now) && Valid(St())
    {
      ghost var w := St();
      Dispatch(sid, p, now);
      HandleValid(w, sid, p, now);
    }

    /** The handler `p` names. */
    method Dispatch(sid: SocketId, p: Packet, now: int)
      requires RoutesOk(socketRoom, userRoom) && Ready(St(), p) && !crashed
      modifies this
      ensures St() == Handle(old(St()), sid, p, now)
    {
      match p
      case AuthPacket(token) => HandleAuth(sid, token);
      case CreateRoomPacket(draws) => HandleCreateRoom(sid, draws);
      case JoinRoomPacket(code) => HandleJoinRoom(sid, code);
      case MovePacket(code, index, coinX) => HandleMove(sid, code, index, coinX, now);
      case RematchPacket(code) => HandleRematch(sid, code);
      case ChatPacket(code, text) => HandleChat(sid, code, text, now);
      case CreateTournamentPacket(draws) => HandleCreateTournament(sid, draws);
      case JoinTournamentPacket(code, swaps) => HandleJoinTournament(sid, code, swaps);
      case UnhandledPacket(_) =>
    }

    /**
      `disconnect` (tictactoe/socket/handlers/disconnect.js:16-43), which
      the middleware lets through: the limiter forgets the socket, socket.io
      drops it from its channels, and the handler runs.
    */
    method HandleDisconnect(sid: SocketId)
      requires Inv()
      modifies this, limiter
      ensures St() == if old(crashed) then old(St()) else Disconnect(old(St()), sid)
      ensures limiter.clientLimits == if old(crashed) then old(limiter.clientLimits) else old(limiter.clientLimits) - {sid}
      ensures Inv()
    {
      if crashed {
        return;
      }
      DisconnectPreservesValid(St(), sid);
      limiter.Cleanup(sid);
      Unbind(sid);
    }

    /** Lines 18-41: the bindings of an authenticated socket go, and a seated one arms a grace timer. */
    method Unbind(sid: SocketId)
      modifies this
      ensures St() == Disconnect(old(St()), sid)
    {
      ghost var w := St();
      if sid !in socketUser || socketUser[sid] == "" {
        DisconnectUnauthed(w, sid);
        DropSocket(sid);
        return;
      }
      var key := socketUser[sid];
      DropSocket(sid);
      Unlink(sid, key);
      if sid !in socketRoom || socketRoom[sid] == "" {
        DisconnectUnrouted(w, sid);
        return;
      }
      var code := socketRoom[sid];
      Unroute(sid);
      if code !in rooms {
        DisconnectRoomGone(w, sid);
        return;
      }
      DisconnectArms(w, sid);
      Send(Members(joined, code) - {sid}, OpponentDisconnected(key));
      ArmGrace(code, key);
    }

    /** `userSocket.delete(key)` and `socketUser.delete(socket.id)`. */
    method Unlink(sid: SocketId, key: Key)
      modifies this
      ensures St() == old(St()).(userSocket := old(userSocket) - {key}, socketUser := old(socketUser) - {sid})
    {
      userSocket := userSocket - {key};
      socketUser := socketUser - {sid};
    }

    /** `socketRoom.delete(socket.id)`. */
    method Unroute(sid: SocketId)
      modifies this
      ensures St() == old(St()).(socketRoom := old(socketRoom) - {sid})
    {
      socketRoom := socketRoom - {sid};
    }

    /** socket.io forgets the socket and its channels. */
    method DropSocket(sid: SocketId)
      modifies this
      ensures St() == Drop(old(St()), sid)
    {
      live := live - {sid};
      joined := set q | q in joined && q.0 != sid;
    }

    /** `disconnectTimeouts.set(key, setTimeout(() => handlePlayerLeave(code, key), 30000))`. */
    method ArmGrace(code: Code, key: Key)
      modifies this
      ensures St() == Arm(old(St()), code, key)
    {
      timers := timers[nextTimer := GraceTimer(code, key)];
      disconnectTimeouts := disconnectTimeouts[key := nextTimer];
      nextTimer := nextTimer + 1;
    }

    /** The 30-second grace timer `id` fires. */
    method ExpireGrace(id: TimerId)
      requires Inv()
      modifies this
      ensures St() == if old(crashed) then old(St()) else FireGraceTimer(old(St()), id)
      ensures Inv()
    {
      if crashed || id !in timers {
        return;
      }
      FirePreservesValid(St(), id);
      var g := timers[id];
      timers := timers - {id};
      PlayerLeave(g.code, g.key);
    }

    /** The 2-second timer that seats a tournament's final fires (pending spawn `i`). */
    method SpawnFinal(i: nat)
      requires Inv() && i < |finalSpawns|
      modifies this
      ensures St() == if old(crashed) then old(St()) else FireFinalSpawn(old(St()), i)
      ensures Inv()
    {
      if crashed {
        return;
      }
      FireFinalSpawnValid(St(), i);
      Store(FireFinalSpawn(St(), i));
    }
  }
}
