/**
  The server's in-memory state: the eight maps of tictactoe/server.js:112-119,
  the `users` store, socket.io's live sockets and channel membership, the
  outbound event log, the armed timers, and whether the process has died of
  an uncaught `TypeError`.
*/
module State {
  import opened Wrappers
  import opened GameLogic
  import opened Entities

  type TimerId = nat

  /** What the clients receive: one constructor per emitted event name and payload. */
  datatype Msg =
    | Error(text: string)                                       // 'error'
    | AuthOk(username: string, wins: nat, losses: nat, draws: nat)
    | AuthError(text: string)
    | RoomCreated(code: Code, symbol: Sym)
    | RoomJoined(code: Code, symbol: Sym)
    | RoomError(text: string)
    | GameStart(board: Board, currentTurn: Sym, players: seq<PlayerView>, scores: Scores, tournamentMatch: bool)
    | GameMove(index: int, symbol: Sym)
    | GameTurn(currentTurn: Sym)
    | GameOverWin(winner: Sym, line: Line, scores: Scores)
    | GameOverDraw(scores: Scores)
    | GameError(text: string)
    | RematchRequest(from: string)
    | GameRejoin(code: Code, board: Board, currentTurn: Sym, scores: Scores,
                 players: seq<PlayerView>, mySymbol: Sym, room: Room)
    | OpponentLeft
    | OpponentDisconnected(key: Key)
    | OpponentReconnected(name: string)
    | ChatMsg(from: string, text: string, ts: int)
    | TournamentCreated(code: Code)
    | TournamentLobby(tplayers: seq<TPlayer>, status: TStatus)   // 'tournament:update' with players
    | TournamentBracket(matches: seq<Match>, status: TStatus)    // 'tournament:update' with matches
    | TournamentStart(matches: seq<Match>, names: seq<string>)
    | TournamentChampion(champion: string)

  /** One emit, with the sockets it reached when it was made. */
  datatype Sent = Sent(to: set<SocketId>, msg: Msg)

  /** An armed `setTimeout(() => handlePlayerLeave(code, key), 30000)`. */
  datatype GraceTimer = GraceTimer(code: Code, key: Key)

  datatype World = World(
    sessions: map<Token, Key>,
    users: map<Key, User>,
    socketUser: map<SocketId, Key>,
    userSocket: map<Key, SocketId>,
    rooms: map<Code, Room>,
    socketRoom: map<SocketId, Code>,
    userRoom: map<Key, Code>,
    disconnectTimeouts: map<Key, TimerId>,
    tournaments: map<Code, Tournament>,
    live: set<SocketId>,              // io.sockets.sockets
    joined: set<(SocketId, Code)>,    // socket.io channel membership
    timers: map<TimerId, GraceTimer>, // grace timers not yet fired or cleared
    nextTimer: TimerId,
    finalSpawns: seq<Code>,           // pending `setTimeout(() => createMatchRoom(t, 2), 2000)`
    outbox: seq<Sent>,
    crashed: bool)

  const Initial := World(map[], map[], map[], map[], map[], map[], map[], map[], map[],
                         {}, {}, map[], 0, [], [], false)

  /** `socketUser.get(socket.id)` when it is truthy. */
  function Authed(w: World, sid: SocketId): (k: Option<Key>)
    ensures k.Some? <==> sid in w.socketUser && w.socketUser[sid] != ""
    ensures k.Some? ==> k.value == w.socketUser[sid]
  {
    if sid in w.socketUser && w.socketUser[sid] != "" then Some(w.socketUser[sid]) else None
  }

  /** The sockets in channel `c`. */
  function Members(joined: set<(SocketId, Code)>, c: Code): set<SocketId>
  {
    set p | p in joined && p.1 == c :: p.0
  }

  /**
    `io.on('connection')`: the socket becomes live and, as socket.io does for
    every socket, joins the channel named by its own id; no other channel
    changes.
  */
  function Connected(w: World, sid: SocketId): (w': World)
    ensures w'.live == w.live + {sid}
    ensures Members(w'.joined, sid) == Members(w.joined, sid) + {sid}
    ensures forall c :: c != sid ==> Members(w'.joined, c) == Members(w.joined, c)
    ensures w' == w.(live := w'.live, joined := w'.joined)
  {
    w.(live := w.live + {sid}, joined := w.joined + {(sid, sid)})
  }

  function Emit(w: World, to: set<SocketId>, m: Msg): World
  {
    w.(outbox := w.outbox + [Sent(to, m)])
  }

  /** `socket.emit(...)`. */
  function ToSocket(w: World, sid: SocketId, m: Msg): World
  {
    Emit(w, {sid}, m)
  }

  /** `io.to(code).emit(...)`: every member of the channel. */
  function ToRoom(w: World, code: Code, m: Msg): World
  {
    Emit(w, Members(w.joined, code), m)
  }

  /** `socket.to(code).emit(...)`: the members other than the sender. */
  function ToOthers(w: World, sid: SocketId, code: Code, m: Msg): World
  {
    Emit(w, Members(w.joined, code) - {sid}, m)
  }

  /** An uncaught `TypeError` ends the process; nothing after it runs. */
  function Crash(w: World): World
  {
    w.(crashed := true)
  }

  // ---------------------------------------------------------------- the invariant

  /** Every authenticated socket's key has a user record, so `users[key].displayName` is defined. */
  predicate UsersOk(socketUser: map<SocketId, Key>, users: map<Key, User>)
  {
    forall s :: s in socketUser ==> socketUser[s] in users
  }

  /** A room is stored under its own (truthy) code, seats one or two players, and is playing only when full. */
  predicate RoomOk(c: Code, r: Room)
  {
    c != "" && r.code == c && 1 <= |r.players| <= 2 && (r.status == Playing ==> |r.players| == 2)
  }

  predicate RoomsOk(rooms: map<Code, Room>)
  {
    forall c :: c in rooms ==> RoomOk(c, rooms[c])
  }

  /** The three matches `startTournament` builds: 0 v 1, 2 v 3, and the final. */
  predicate Skeleton(ms: seq<Match>)
  {
    |ms| == 3
    && ms[0].id == 1 && ms[0].p1 == Some(0) && ms[0].p2 == Some(1)
    && ms[1].id == 2 && ms[1].p1 == Some(2) && ms[1].p2 == Some(3)
    && ms[2].id == 3
  }

  /** Both semifinals are decided and their winners are seeded into the final. */
  predicate FinalSeeded(ms: seq<Match>)
    requires |ms| == 3
  {
    ms[0].winner.Some? && ms[1].winner.Some? && ms[2].p1 == ms[0].winner && ms[2].p2 == ms[1].winner
  }

  /** What each tournament status means for the players and the bracket. */
  predicate TournamentOk(c: Code, t: Tournament)
  {
    c != "" && t.code == c && 1 <= |t.players| <= 4
    && match t.status
       case TWaiting => t.matches == [] && |t.players| < 4
       case Semifinals =>
         |t.players| == 4 && Skeleton(t.matches)
         && !(t.matches[0].winner.Some? && t.matches[1].winner.Some?)
         && t.matches[2].p1.None? && t.matches[2].p2.None? && t.matches[2].winner.None?
       case Final =>
         |t.players| == 4 && Skeleton(t.matches) && FinalSeeded(t.matches) && t.matches[2].winner.None?
       case Completed =>
         |t.players| == 4 && Skeleton(t.matches) && FinalSeeded(t.matches) && t.matches[2].winner.Some?
  }

  predicate TournamentsOk(tournaments: map<Code, Tournament>)
  {
    forall c :: c in tournaments ==> TournamentOk(c, tournaments[c])
  }

  /** A match room points at a started tournament, and a final's room exists only once the final is seeded. */
  predicate LinkOk(tournaments: map<Code, Tournament>, r: Room)
  {
    r.tournamentId.Some? ==>
      r.tournamentId.value in tournaments && r.matchId.Some?
      && 1 <= r.matchId.value <= 3
      && tournaments[r.tournamentId.value].status != TWaiting
      && (r.matchId.value == 3 ==> tournaments[r.tournamentId.value].status in {Final, Completed})
  }

  predicate LinksOk(rooms: map<Code, Room>, tournaments: map<Code, Tournament>)
  {
    forall c :: c in rooms ==> LinkOk(tournaments, rooms[c])
  }

  /** Every pending final spawn belongs to a tournament whose final is seeded. */
  predicate SpawnsOk(finalSpawns: seq<Code>, tournaments: map<Code, Tournament>)
  {
    forall i :: 0 <= i < |finalSpawns| ==>
      finalSpawns[i] in tournaments && tournaments[finalSpawns[i]].status in {Final, Completed}
  }

  /** The codes recorded for sockets and users are truthy, so the `if (code)` guards pass on them. */
  predicate RoutesOk(socketRoom: map<SocketId, Code>, userRoom: map<Key, Code>)
  {
    (forall s :: s in socketRoom ==> socketRoom[s] != "")
    && (forall k :: k in userRoom ==> userRoom[k] != "")
  }

  /** Timer handles are issued fresh: no handle in use is at or past `nextTimer`. */
  predicate TimersOk(timers: map<TimerId, GraceTimer>, disconnectTimeouts: map<Key, TimerId>, nextTimer: TimerId)
  {
    (forall id :: id in timers ==> id < nextTimer)
    && (forall k :: k in disconnectTimeouts ==> disconnectTimeouts[k] < nextTimer)
  }

  predicate Valid(w: World)
  {
    UsersOk(w.socketUser, w.users) && RoomsOk(w.rooms) && TournamentsOk(w.tournaments)
    && LinksOk(w.rooms, w.tournaments) && SpawnsOk(w.finalSpawns, w.tournaments)
    && RoutesOk(w.socketRoom, w.userRoom) && TimersOk(w.timers, w.disconnectTimeouts, w.nextTimer)
  }

  lemma RoomsPut(rooms: map<Code, Room>, c: Code, r: Room)
    requires RoomsOk(rooms) && RoomOk(c, r)
    ensures RoomsOk(rooms[c := r])
  {
  }

  lemma LinksPut(rooms: map<Code, Room>, ts: map<Code, Tournament>, c: Code, r: Room)
    requires LinksOk(rooms, ts) && LinkOk(ts, r)
    ensures LinksOk(rooms[c := r], ts)
  {
  }

  lemma RoomsDrop(rooms: map<Code, Room>, ts: map<Code, Tournament>, c: Code)
    requires RoomsOk(rooms) && LinksOk(rooms, ts)
    ensures RoomsOk(rooms - {c}) && LinksOk(rooms - {c}, ts)
  {
  }

  lemma RoutesDrop(socketRoom: map<SocketId, Code>, userRoom: map<Key, Code>, s: SocketId, k: Key)
    requires RoutesOk(socketRoom, userRoom)
    ensures RoutesOk(socketRoom - {s}, userRoom) && RoutesOk(socketRoom, userRoom - {k})
    ensures RoutesOk(socketRoom - {s}, userRoom - {k})
  {
  }

  lemma TimersDrop(timers: map<TimerId, GraceTimer>, dt: map<Key, TimerId>, next: TimerId, k: Key)
    requires TimersOk(timers, dt, next)
    ensures TimersOk(timers, dt - {k}, next)
  {
  }

  // World-level steps that keep the invariant, so that a handler's proof is a chain of small facts.

  lemma EmitValid(w: World, to: set<SocketId>, m: Msg)
    requires Valid(w)
    ensures Valid(Emit(w, to, m))
  {
  }

  lemma RoomPutValid(w: World, c: Code, r: Room)
    requires Valid(w) && RoomOk(c, r) && LinkOk(w.tournaments, r)
    ensures Valid(w.(rooms := w.rooms[c := r]))
  {
    RoomsPut(w.rooms, c, r);
    LinksPut(w.rooms, w.tournaments, c, r);
  }

  lemma RoomDropValid(w: World, c: Code)
    requires Valid(w)
    ensures Valid(w.(rooms := w.rooms - {c}))
  {
    RoomsDrop(w.rooms, w.tournaments, c);
  }

  lemma ForgetUserValid(w: World, k: Key)
    requires Valid(w)
    ensures Valid(w.(userRoom := w.userRoom - {k}, disconnectTimeouts := w.disconnectTimeouts - {k}))
  {
    RoutesDrop(w.socketRoom, w.userRoom, "", k);
    TimersDrop(w.timers, w.disconnectTimeouts, w.nextTimer, k);
  }

  lemma ChannelsValid(w: World, live: set<SocketId>, joined: set<(SocketId, Code)>)
    requires Valid(w)
    ensures Valid(w.(joined := joined)) && Valid(w.(live := live, joined := joined))
  {
  }

  /** Storing a room and routing a socket and its user to it, as `room:create` and `room:join` do. */
  lemma RouteToRoomValid(w: World, code: Code, r: Room, sid: SocketId, key: Key)
    requires Valid(w) && RoomOk(code, r) && LinkOk(w.tournaments, r)
    ensures Valid(w.(rooms := w.rooms[code := r], socketRoom := w.socketRoom[sid := code],
                     userRoom := w.userRoom[key := code], joined := w.joined + {(sid, code)}))
  {
    RoomsPut(w.rooms, code, r);
    LinksPut(w.rooms, w.tournaments, code, r);
  }

  lemma RouteKeysValid(w: World, k1: Key, k2: Key, code: Code)
    requires Valid(w) && code != ""
    ensures Valid(w.(userRoom := w.userRoom[k1 := code][k2 := code]))
  {
  }

  lemma ForgetSocketValid(w: World, s: SocketId, k: Key)
    requires Valid(w)
    ensures Valid(w.(socketRoom := w.socketRoom - {s}))
    ensures Valid(w.(socketRoom := w.socketRoom - {s}, userRoom := w.userRoom - {k}))
  {
    RoutesDrop(w.socketRoom, w.userRoom, s, k);
  }

  /** A tournament that is new, or whose status moves forward, keeps every room's link valid. */
  lemma LinksAdvance(rooms: map<Code, Room>, ts: map<Code, Tournament>, c: Code, t: Tournament)
    requires LinksOk(rooms, ts)
    requires c in ts ==> Rank(ts[c].status) <= Rank(t.status)
    ensures LinksOk(rooms, ts[c := t])
  {
    forall r | r in rooms
      ensures LinkOk(ts[c := t], rooms[r])
    {
      assert LinkOk(ts, rooms[r]);
    }
  }

  /** The same for pending final spawns. */
  lemma SpawnsAdvance(spawns: seq<Code>, ts: map<Code, Tournament>, c: Code, t: Tournament)
    requires SpawnsOk(spawns, ts)
    requires c in ts ==> Rank(ts[c].status) <= Rank(t.status)
    ensures SpawnsOk(spawns, ts[c := t])
  {
  }

  lemma InitialValid()
    ensures Valid(Initial)
  {
  }

  /** A status's place in the order waiting, semifinals, final, completed. */
  function Rank(s: TStatus): nat
  {
    match s
    case TWaiting => 0
    case Semifinals => 1
    case Final => 2
    case Completed => 3
  }

  /** No tournament disappears and none goes back in status. */
  predicate StatusesAdvance(w: World, w': World)
  {
    forall c :: c in w.tournaments ==>
      c in w'.tournaments && Rank(w.tournaments[c].status) <= Rank(w'.tournaments[c].status)
  }

  /** The number of `tournament:champion` emits in a log. */
  function Champions(log: seq<Sent>): nat
  {
    if log == [] then 0
    else Champions(log[..|log| - 1]) + (if log[|log| - 1].msg.TournamentChampion? then 1 else 0)
  }

  lemma ChampionsSnoc(log: seq<Sent>, s: Sent)
    ensures Champions(log + [s]) == Champions(log) + (if s.msg.TournamentChampion? then 1 else 0)
  {
    assert (log + [s])[..|log|] == log;
  }
}
