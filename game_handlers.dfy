/**
  The in-game events of tictactoe/socket/handlers/game.js: `game:move`, which
  checks the mover, places a mark, scores a finished game, credits the
  players' records and reports a tournament match result; and `game:rematch`,
  which collects votes and restarts the room with the symbols swapped.
*/
module GameHandlers {
  import opened Wrappers
  import opened GameLogic
  import opened Entities
  import opened State
  import opened Utils
  import opened Bracket

  const NotInRoom := "Not in this room"
  const NotYourTurn := "Not your turn"
  const CellTaken := "Cell taken"
  const OpponentName := "Opponent"

  // ---------------------------------------------------------------- records and scores

  /** `room.scores[winner]++`. */
  function Bump(sc: Scores, s: Sym): (r: Scores)
    ensures r.d == sc.d
    ensures s == X ==> r.x == sc.x + 1 && r.o == sc.o
    ensures s == O ==> r.o == sc.o + 1 && r.x == sc.x
  {
    if s == X then sc.(x := sc.x + 1) else sc.(o := sc.o + 1)
  }

  /** `if (winPlayer && users[winPlayer.key]) users[winPlayer.key].wins++`. */
  function AddWin(users: map<Key, User>, p: Option<Player>): (u: map<Key, User>)
    ensures u.Keys == users.Keys
    ensures forall k :: k in users ==>
              u[k] == if p.Some? && p.value.key == k then users[k].(wins := users[k].wins + 1) else users[k]
  {
    if p.Some? && p.value.key in users then users[p.value.key := users[p.value.key].(wins := users[p.value.key].wins + 1)]
    else users
  }

  /** `if (losePlayer && users[losePlayer.key]) users[losePlayer.key].losses++`. */
  function AddLoss(users: map<Key, User>, p: Option<Player>): (u: map<Key, User>)
    ensures u.Keys == users.Keys
    ensures forall k :: k in users ==>
              u[k] == if p.Some? && p.value.key == k then users[k].(losses := users[k].losses + 1) else users[k]
  {
    if p.Some? && p.value.key in users then users[p.value.key := users[p.value.key].(losses := users[p.value.key].losses + 1)]
    else users
  }

  /**
    `room.players.forEach(p => { if (users[p.key]) users[p.key].draws++; })`:
    every known user gains one draw per seat it holds, and nothing else changes.
  */
  function AddDraws(users: map<Key, User>, ps: seq<Player>): (u: map<Key, User>)
    ensures u.Keys == users.Keys
    ensures forall k :: k in users ==> u[k] == users[k].(draws := users[k].draws + SeatsOf(ps, k))
    decreases |ps|
  {
    if ps == [] then users
    else
      var k := ps[0].key;
      var u1 := if k in users then users[k := users[k].(draws := users[k].draws + 1)] else users;
      AddDraws(u1, ps[1..])
  }

  // ---------------------------------------------------------------- game:move

  /** The checks `game:move` passes before it writes the cell. */
  predicate Legal(w: World, sid: SocketId, code: Code, index: int)
  {
    Authed(w, sid).Some? && code in w.rooms && w.rooms[code].status == Playing
    && FindBySocket(w.rooms[code].players, sid) >= 0
    && w.rooms[code].players[FindBySocket(w.rooms[code].players, sid)].symbol == w.rooms[code].currentTurn
    && 0 <= index < 9 && w.rooms[code].board[index] == Empty
  }

  /**
    Lines 29-57 up to the tournament hook, for the room: the mark is written;
    an undecided board passes the turn; a won board ends the game and scores
    the winning symbol; a drawn board ends the game and scores a draw.
  */
  function Settled(r: Room, sym: Sym, index: Index): (r': Room)
    ensures r'.board == r.board[index := Mark(sym)]
    ensures r'.players == r.players && r'.code == r.code && r'.rematchVotes == r.rematchVotes
            && r'.tournamentId == r.tournamentId && r'.matchId == r.matchId
    ensures match Utils.CheckWinner(r'.board)
            case None => r'.status == r.status && r'.currentTurn == Other(r.currentTurn) && r'.scores == r.scores
            case Some(Win(s, _)) => r'.status == Done && r'.currentTurn == r.currentTurn && r'.scores == Bump(r.scores, s)
            case Some(Draw) => r'.status == Done && r'.currentTurn == r.currentTurn && r'.scores == r.scores.(d := r.scores.d + 1)
  {
    var b := r.board[index := Mark(sym)];
    match Utils.CheckWinner(b)
    case None => r.(board := b, currentTurn := Other(r.currentTurn))
    case Some(Win(s, _)) => r.(board := b, status := Done, scores := Bump(r.scores, s))
    case Some(Draw) => r.(board := b, status := Done, scores := r.scores.(d := r.scores.d + 1))
  }

  /**
    The user records once the board is settled: a won game credits the first
    seat holding the winning symbol with a win and the first seat not holding
    it with a loss; a drawn game credits every seated user with a draw.
  */
  function Credited(users: map<Key, User>, ps: seq<Player>, b: Board): (u: map<Key, User>)
    ensures u.Keys == users.Keys
    ensures Utils.CheckWinner(b).None? ==> u == users
    ensures Utils.CheckWinner(b) == Some(Draw) ==>
              forall k :: k in users ==> u[k] == users[k].(draws := users[k].draws + SeatsOf(ps, k))
    ensures Utils.CheckWinner(b).Some? && Utils.CheckWinner(b).value.Win? ==>
              var s := Utils.CheckWinner(b).value.winner;
              var pw := FindBySymbol(ps, s);
              var pl := FindNotSymbol(ps, s);
              forall k :: k in users ==>
                u[k] == users[k].(wins := users[k].wins + (if pw.Some? && pw.value.key == k then 1 else 0),
                                  losses := users[k].losses + (if pl.Some? && pl.value.key == k then 1 else 0))
  {
    match Utils.CheckWinner(b)
    case None => users
    case Some(Win(s, _)) => AddLoss(AddWin(users, FindBySymbol(ps, s)), FindNotSymbol(ps, s))
    case Some(Draw) => AddDraws(users, ps)
  }

  /** What the room hears after the mark: the next turn, or how the game ended with the new scores. */
  function Verdict(r: Room): Msg
  {
    match Utils.CheckWinner(r.board)
    case None => GameTurn(r.currentTurn)
    case Some(Win(s, line)) => GameOverWin(s, line, r.scores)
    case Some(Draw) => GameOverDraw(r.scores)
  }

  /** Lines 29-57 up to the tournament hook: the mark is written and announced, and the board settled. */
  function Settle(w: World, code: Code, sym: Sym, index: Index): World
    requires code in w.rooms
  {
    var r := w.rooms[code];
    var r' := Settled(r, sym, index);
    var w1 := ToRoom(w.(rooms := w.rooms[code := r.(board := r'.board)]), code, GameMove(index, sym));
    ToRoom(w1.(rooms := w.rooms[code := r'], users := Credited(w.users, r.players, r'.board)), code, Verdict(r'))
  }

  /**
    A move changes one room, the user records and the log: the room is
    settled, the records credited, and the room hears the mark and then the
    verdict.
  */
  lemma SettleSpec(w: World, code: Code, sym: Sym, index: Index)
    requires code in w.rooms
    ensures var w' := Settle(w, code, sym, index); var r := w.rooms[code]; var r' := Settled(r, sym, index);
            w'.rooms == w.rooms[code := r'] && w'.users == Credited(w.users, r.players, r'.board)
            && w'.outbox == w.outbox + [Sent(Members(w.joined, code), GameMove(index, sym)), Sent(Members(w.joined, code), Verdict(r'))]
            && w' == w.(rooms := w'.rooms, users := w'.users, outbox := w'.outbox)
  {
  }

  /** Settling in the order the handler writes it: the mark shown, then the settled room and records stored over it. */
  lemma SettleInSteps(w: World, code: Code, sym: Sym, index: Index, r': Room, u: map<Key, User>, verdict: Msg)
    requires code in w.rooms && r' == Settled(w.rooms[code], sym, index)
    requires u == Credited(w.users, w.rooms[code].players, r'.board) && verdict == Verdict(r')
    ensures var r := w.rooms[code];
            var w1 := ToRoom(w.(rooms := w.rooms[code := r.(board := r.board[index := Mark(sym)])]), code, GameMove(index, sym));
            Settle(w, code, sym, index) == ToRoom(w1.(rooms := w1.rooms[code := r'], users := u), code, verdict)
  {
    var r := w.rooms[code];
    var w1 := ToRoom(w.(rooms := w.rooms[code := r.(board := r.board[index := Mark(sym)])]), code, GameMove(index, sym));
    assert w1.rooms[code := r'] == w.rooms[code := r'];
  }

  /** `handleTournamentResult(room, ...)` after a finished game; an unfinished one reports nothing. */
  function Report(w: World, code: Code, coinX: bool, now: int): World
    requires code in w.rooms
  {
    match Utils.CheckWinner(w.rooms[code].board)
    case None => w
    case Some(Win(s, _)) => TournamentResult(w, code, Some(s), coinX, now)
    case Some(Draw) => TournamentResult(w, code, None, coinX, now)
  }

  /**
    `game:move`: an unauthenticated socket, an unknown room or a room not
    playing is ignored; then a socket without a seat, a seat whose symbol is
    not on turn, and a cell that is not `null` are each answered with
    `game:error`. An index outside 0..8 reads `undefined`, which is not
    `null`, so it is answered 'Cell taken' as well. `coinX` is the tournament
    coin flip and `now` the clock.
  */
  function Move(w: World, sid: SocketId, code: Code, index: int, coinX: bool, now: int): (w': World)
    ensures Authed(w, sid).None? || code !in w.rooms || w.rooms[code].status != Playing ==> w' == w
    ensures Authed(w, sid).Some? && code in w.rooms && w.rooms[code].status == Playing ==>
              var r := w.rooms[code]; var i := FindBySocket(r.players, sid);
              (i == -1 ==> w' == ToSocket(w, sid, GameError(NotInRoom)))
              && (i >= 0 && r.players[i].symbol != r.currentTurn ==> w' == ToSocket(w, sid, GameError(NotYourTurn)))
              && (i >= 0 && r.players[i].symbol == r.currentTurn && !(0 <= index < 9 && r.board[index] == Empty) ==>
                    w' == ToSocket(w, sid, GameError(CellTaken)))
    ensures !Legal(w, sid, code, index) ==> w' == w.(outbox := w'.outbox)
    ensures Legal(w, sid, code, index) ==>
              var r := w.rooms[code];
              w' == Report(Settle(w, code, r.currentTurn, index), code, coinX, now)
  {
    if Authed(w, sid).None? || code !in w.rooms || w.rooms[code].status != Playing then w
    else
      var r := w.rooms[code];
      var i := FindBySocket(r.players, sid);
      if i == -1 then ToSocket(w, sid, GameError(NotInRoom))
      else if r.players[i].symbol != r.currentTurn then ToSocket(w, sid, GameError(NotYourTurn))
      else if index < 0 || index >= 9 || r.board[index] != Empty then ToSocket(w, sid, GameError(CellTaken))
      else Report(Settle(w, code, r.players[i].symbol, index), code, coinX, now)
  }

  /** A legal move settles the board and hands the settled room to `Report`; the bracket's view of the room is unchanged. */
  lemma MoveReports(w: World, sid: SocketId, code: Code, index: int, coinX: bool, now: int)
    requires Legal(w, sid, code, index)
    ensures var r := w.rooms[code]; var w1 := Settle(w, code, r.currentTurn, index);
            && Move(w, sid, code, index, coinX, now) == Report(w1, code, coinX, now)
            && w1.rooms[code] == Settled(r, r.currentTurn, index)
            && w1.tournaments == w.tournaments
            && Undecided(w1, code) == Undecided(w, code)
  {
    var r := w.rooms[code];
    SettleSpec(w, code, r.currentTurn, index);
  }

  /**
    A legal move that leaves the game open, or ends a game whose room has no
    undecided match, reports nothing: the result is the settled world, with
    the tournaments untouched.
  */
  lemma MoveLeavesBracket(w: World, sid: SocketId, code: Code, index: int, coinX: bool, now: int)
    requires Legal(w, sid, code, index)
    ensures var r := w.rooms[code]; var w1 := Settle(w, code, r.currentTurn, index);
            var o := Utils.CheckWinner(r.board[index := Mark(r.currentTurn)]);
            var w' := Move(w, sid, code, index, coinX, now);
            (o.None? || !Undecided(w, code)) ==> w' == w1 && w'.tournaments == w.tournaments
  {
    var r := w.rooms[code];
    var w1 := Settle(w, code, r.currentTurn, index);
    MoveReports(w, sid, code, index, coinX, now);
    ReportSpec(w1, code, coinX, now);
    var o := Utils.CheckWinner(w1.rooms[code].board);
    if o.Some? && !Undecided(w, code) {
      ResultIgnored(w1, code, if o.value.Win? then Some(o.value.winner) else None, coinX, now);
    }
  }

  /**
    What a legal move does to the bracket: a move that ends a game in a
    tournament room whose match is still undecided records, as that match's
    winner, the bracket index of the key seated with the winning symbol (after
    a draw, the coin's symbol), or throws when no seat holds that symbol.
  */
  lemma MoveRecordsMatchWinner(w: World, sid: SocketId, code: Code, index: int, coinX: bool, now: int)
    requires Legal(w, sid, code, index)
    ensures var r := w.rooms[code]; var o := Utils.CheckWinner(r.board[index := Mark(r.currentTurn)]);
            o.Some? && Undecided(w, code) ==>
              RecordsResult(r, w.tournaments, Move(w, sid, code, index, coinX, now),
                            if o.value.Win? then Some(o.value.winner) else None, coinX)
  {
    var r := w.rooms[code];
    var w1 := Settle(w, code, r.currentTurn, index);
    MoveReports(w, sid, code, index, coinX, now);
    ReportSpec(w1, code, coinX, now);
    var o := Utils.CheckWinner(w1.rooms[code].board);
    if o.Some? && Undecided(w, code) {
      var win := if o.value.Win? then Some(o.value.winner) else None;
      ResultRecorded(w1, code, win, coinX, now);
      assert ResultSeat(w1.rooms[code], win, coinX) == ResultSeat(r, win, coinX);
    }
  }

  /** `Report` on its own: a decided board goes to `handleTournamentResult`, an open one changes nothing. */
  lemma ReportSpec(w: World, code: Code, coinX: bool, now: int)
    requires code in w.rooms
    ensures var o := Utils.CheckWinner(w.rooms[code].board); var w' := Report(w, code, coinX, now);
            && (o.None? ==> w' == w)
            && (o.Some? ==> w' == TournamentResult(w, code, if o.value.Win? then Some(o.value.winner) else None, coinX, now))
  {
  }

  /** Reporting a result to the bracket leaves every user record as it was. */
  lemma ReportKeepsUsers(w: World, code: Code, coinX: bool, now: int)
    requires code in w.rooms
    ensures Report(w, code, coinX, now).users == w.users
  {
    ReportSpec(w, code, coinX, now);
    var o := Utils.CheckWinner(w.rooms[code].board);
    if o.Some? {
      ResultKeepsUsers(w, code, if o.value.Win? then Some(o.value.winner) else None, coinX, now);
    }
  }

  /** Two seats with different symbols: each symbol belongs to exactly one of them. */
  predicate TwoSeats(ps: seq<Player>)
  {
    |ps| == 2 && ps[0].symbol != ps[1].symbol && ps[0].key != ps[1].key
  }

  /**
    For two seats with different symbols and different users, a won board
    credits the seat holding the winning symbol with a win and the other seat
    with a loss, a drawn board credits each seat with one draw, and no other
    record changes.
  */
  lemma CreditsTwoSeats(users: map<Key, User>, ps: seq<Player>, b: Board)
    requires TwoSeats(ps)
    ensures var o := Utils.CheckWinner(b); var u := Credited(users, ps, b);
            && (o == Some(Draw) ==> forall k :: k in users ==>
                  u[k] == users[k].(draws := users[k].draws + (if k == ps[0].key || k == ps[1].key then 1 else 0)))
            && (o.Some? && o.value.Win? ==>
                  var win := if ps[0].symbol == o.value.winner then ps[0] else ps[1];
                  var lose := if ps[0].symbol == o.value.winner then ps[1] else ps[0];
                  forall k :: k in users ==>
                    u[k] == users[k].(wins := users[k].wins + (if k == win.key then 1 else 0),
                                      losses := users[k].losses + (if k == lose.key then 1 else 0)))
  {
    var o := Utils.CheckWinner(b);
    if o == Some(Draw) {
      assert ps[1..][1..] == [];
      forall k
        ensures SeatsOf(ps, k) == if k == ps[0].key || k == ps[1].key then 1 else 0
      {
        assert SeatsOf(ps[1..], k) == (if ps[1].key == k then 1 else 0) + SeatsOf(ps[1..][1..], k);
      }
    } else if o.Some? {
      var s := o.value.winner;
      assert SymbolIndex(ps, s) == (if ps[0].symbol == s then 0 else 1);
      assert OtherSymbolIndex(ps, s) == (if ps[0].symbol == s then 1 else 0);
    }
  }

  /**
    A legal move leaves the user records as `Credited` makes them for the
    settled board: the bracket report that may follow touches none of them.
  */
  lemma MoveCredits(w: World, sid: SocketId, code: Code, index: int, coinX: bool, now: int)
    requires Legal(w, sid, code, index)
    ensures var r := w.rooms[code];
            Move(w, sid, code, index, coinX, now).users == Credited(w.users, r.players, r.board[index := Mark(r.currentTurn)])
  {
    var r := w.rooms[code];
    MoveReports(w, sid, code, index, coinX, now);
    SettleSpec(w, code, r.currentTurn, index);
    ReportKeepsUsers(Settle(w, code, r.currentTurn, index), code, coinX, now);
  }

  /**
    `game:move` in the usual room of two seats with different symbols and
    different users: a winning move gives the seat holding the winning symbol
    a win and the other seat a loss, a drawing move gives each seat a draw,
    an open board credits nobody, and no other record changes.
  */
  lemma MoveCreditsTwoSeats(w: World, sid: SocketId, code: Code, index: int, coinX: bool, now: int)
    requires Legal(w, sid, code, index) && TwoSeats(w.rooms[code].players)
    ensures var r := w.rooms[code]; var ps := r.players;
            var o := Utils.CheckWinner(r.board[index := Mark(r.currentTurn)]);
            var u := Move(w, sid, code, index, coinX, now).users;
            && u.Keys == w.users.Keys
            && (o.None? ==> u == w.users)
            && (o == Some(Draw) ==> forall k :: k in w.users ==>
                  u[k] == w.users[k].(draws := w.users[k].draws + (if k == ps[0].key || k == ps[1].key then 1 else 0)))
            && (o.Some? && o.value.Win? ==>
                  var win := if ps[0].symbol == o.value.winner then ps[0] else ps[1];
                  var lose := if ps[0].symbol == o.value.winner then ps[1] else ps[0];
                  forall k :: k in w.users ==>
                    u[k] == w.users[k].(wins := w.users[k].wins + (if k == win.key then 1 else 0),
                                        losses := w.users[k].losses + (if k == lose.key then 1 else 0)))
  {
    var r := w.rooms[code];
    MoveCredits(w, sid, code, index, coinX, now);
    CreditsTwoSeats(w.users, r.players, r.board[index := Mark(r.currentTurn)]);
  }

  /** One more mark on the board: a legal move fills exactly one empty cell. */
  lemma MoveFillsOneCell(w: World, sid: SocketId, code: Code, index: int)
    requires Legal(w, sid, code, index)
    ensures var b := w.rooms[code].board; var b' := Settle(w, code, w.rooms[code].currentTurn, index).rooms[code].board;
            EmptyCount(b') + 1 == EmptyCount(b)
            && b'[index] == Mark(w.rooms[code].currentTurn)
            && forall j :: 0 <= j < 9 && j != index ==> b'[j] == b[j]
  {
    var b := w.rooms[code].board;
    SettleSpec(w, code, w.rooms[code].currentTurn, index);
    EmptyCountMark(b, index, w.rooms[code].currentTurn);
  }

  /**
    On a board that was still open, the only line a move can complete runs
    through the new mark, so a game a move ends is won by the mover or drawn.
  */
  lemma MoverWins(b: Board, index: Index, sym: Sym)
    requires Utils.CheckWinner(b).None? && b[index] == Empty
    ensures var o := Utils.CheckWinner(b[index := Mark(sym)]);
            o.Some? && o.value.Win? ==>
              o.value.winner == sym && (o.value.line.0 == index || o.value.line.1 == index || o.value.line.2 == index)
  {
    var b' := b[index := Mark(sym)];
    var o := Utils.CheckWinner(b');
    if o.Some? && o.value.Win? {
      var j :| 0 <= j < |Wins| && o.value.line == Wins[j] && Complete(b', Wins[j]) && b'[Wins[j].0] == Mark(o.value.winner);
      assert !Complete(b, Wins[j]);
      var l := Wins[j];
      MarkOffLine(b, index, sym, l);
      assert b'[l.0] == b'[index];
    }
  }

  /** A mark off a line leaves that line as it was. */
  lemma MarkOffLine(b: Board, index: Index, sym: Sym, l: Line)
    ensures l.0 != index && l.1 != index && l.2 != index ==> (Complete(b[index := Mark(sym)], l) <==> Complete(b, l))
  {
  }

  /**
    After a move that leaves the game running, the turn has passed: the same
    socket's next move, on any cell, is answered 'Not your turn'.
  */
  lemma NoTwoMovesInARow(w: World, sid: SocketId, code: Code, index: int, coinX: bool, now: int,
                         index2: int, coinX2: bool, now2: int)
    requires Legal(w, sid, code, index)
    requires Utils.CheckWinner(w.rooms[code].board[index := Mark(w.rooms[code].currentTurn)]).None?
    ensures var w' := Move(w, sid, code, index, coinX, now);
            Move(w', sid, code, index2, coinX2, now2) == ToSocket(w', sid, GameError(NotYourTurn))
  {
    var r := w.rooms[code];
    var w1 := Settle(w, code, r.currentTurn, index);
    SettleSpec(w, code, r.currentTurn, index);
    assert Move(w, sid, code, index, coinX, now) == w1;
    assert w1.rooms[code].players == r.players;
    assert Authed(w1, sid) == Authed(w, sid);
  }

  /** Rewriting one room, the user records' contents and the outbox keeps the world valid. */
  lemma RoomEditValid(w: World, w': World, code: Code)
    requires Valid(w) && code in w.rooms && code in w'.rooms
    requires w' == w.(rooms := w.rooms[code := w'.rooms[code]], users := w'.users, outbox := w'.outbox)
    requires w'.users.Keys == w.users.Keys
    requires RoomOk(code, w'.rooms[code]) && LinkOk(w.tournaments, w'.rooms[code])
    ensures Valid(w') && StatusesAdvance(w, w')
  {
    RoomsPut(w.rooms, code, w'.rooms[code]);
    LinksPut(w.rooms, w.tournaments, code, w'.rooms[code]);
  }

  lemma SettleValid(w: World, code: Code, sym: Sym, index: Index)
    requires Valid(w) && code in w.rooms && (w.rooms[code].status == Playing ==> |w.rooms[code].players| == 2)
    ensures Valid(Settle(w, code, sym, index)) && StatusesAdvance(w, Settle(w, code, sym, index))
  {
    var w' := Settle(w, code, sym, index);
    SettleSpec(w, code, sym, index);
    assert RoomOk(code, w.rooms[code]) && LinkOk(w.tournaments, w.rooms[code]);
    RoomEditValid(w, w', code);
  }

  /** A move keeps every room and record well formed and moves no tournament backwards. */
  lemma MovePreservesValid(w: World, sid: SocketId, code: Code, index: int, coinX: bool, now: int)
    requires Valid(w)
    ensures Valid(Move(w, sid, code, index, coinX, now)) && StatusesAdvance(w, Move(w, sid, code, index, coinX, now))
  {
    if !Legal(w, sid, code, index) {
      assert Move(w, sid, code, index, coinX, now) == w.(outbox := Move(w, sid, code, index, coinX, now).outbox);
    } else {
      var r := w.rooms[code];
      assert RoomOk(code, r);
      SettleValid(w, code, r.currentTurn, index);
      var w1 := Settle(w, code, r.currentTurn, index);
      var o := Utils.CheckWinner(w1.rooms[code].board);
      if o.Some? {
        ResultValid(w1, code, if o.value.Win? then Some(o.value.winner) else None, coinX, now);
      }
    }
  }

  // ---------------------------------------------------------------- game:rematch

  /** `p.symbol = p.symbol === 'X' ? 'O' : 'X'` for every seat. */
  function SwapSymbols(ps: seq<Player>): (qs: seq<Player>)
    ensures |qs| == |ps|
    ensures forall i :: 0 <= i < |ps| ==> qs[i] == ps[i].(symbol := Other(ps[i].symbol))
  {
    if ps == [] then [] else [ps[0].(symbol := Other(ps[0].symbol))] + SwapSymbols(ps[1..])
  }

  /** The room after the second vote: symbols swapped, a fresh board, X to move, playing, votes cleared. */
  function Restarted(r: Room): (r': Room)
    ensures r'.players == SwapSymbols(r.players) && r'.board == EmptyBoard && r'.currentTurn == X
    ensures r'.status == Playing && r'.rematchVotes == {}
    ensures r'.code == r.code && r'.scores == r.scores && r'.tournamentId == r.tournamentId && r'.matchId == r.matchId
  {
    r.(players := SwapSymbols(r.players), board := EmptyBoard, currentTurn := X, status := Playing, rematchVotes := {})
  }

  /**
    `users[socketUser.get(socket.id)]?.displayName || 'Opponent'`: a socket
    without a session looks up the key `"undefined"`.
  */
  function RequesterName(w: World, sid: SocketId): (name: string)
    ensures name != ""
    ensures name != OpponentName ==>
              var k := if sid in w.socketUser then w.socketUser[sid] else "undefined";
              k in w.users && name == w.users[k].displayName
  {
    var k := if sid in w.socketUser then w.socketUser[sid] else "undefined";
    if k in w.users && w.users[k].displayName != "" then w.users[k].displayName else OpponentName
  }

  /**
    `game:rematch`: ignored for an unknown room or one with fewer than two
    seats; otherwise the socket's vote is added, whether or not it holds a
    seat, and two distinct voters restart the room for everyone, while a
    single voter's request is forwarded to the rest of the room.
  */
  function Rematch(w: World, sid: SocketId, code: Code): World
  {
    if code !in w.rooms || |w.rooms[code].players| < 2 then w
    else
      var r := w.rooms[code];
      var votes := r.rematchVotes + {sid};
      if |votes| >= 2 then
        var r' := Restarted(r);
        ToRoom(w.(rooms := w.rooms[code := r']), code, GameStart(r'.board, r'.currentTurn, Views(r'.players), r'.scores, false))
      else ToOthers(w.(rooms := w.rooms[code := r.(rematchVotes := votes)]), sid, code, RematchRequest(RequesterName(w, sid)))
  }

  /** A vote for an unknown room, or one with fewer than two seats, changes nothing. */
  lemma RematchIgnored(w: World, sid: SocketId, code: Code)
    requires code !in w.rooms || |w.rooms[code].players| < 2
    ensures Rematch(w, sid, code) == w
  {
  }

  /** A second voter restarts the room with the symbols swapped, and the room hears the new game. */
  lemma RematchRestarts(w: World, sid: SocketId, code: Code)
    requires code in w.rooms && |w.rooms[code].players| >= 2 && |w.rooms[code].rematchVotes + {sid}| >= 2
    ensures var r := w.rooms[code];
            Rematch(w, sid, code)
              == Emit(w.(rooms := w.rooms[code := Restarted(r)]), Members(w.joined, code),
                      GameStart(EmptyBoard, X, Views(SwapSymbols(r.players)), r.scores, false))
  {
  }

  /** A first voter's vote is recorded and forwarded to the rest of the room. */
  lemma RematchWaits(w: World, sid: SocketId, code: Code)
    requires code in w.rooms && |w.rooms[code].players| >= 2 && |w.rooms[code].rematchVotes + {sid}| < 2
    ensures var r := w.rooms[code];
            Rematch(w, sid, code)
              == Emit(w.(rooms := w.rooms[code := r.(rematchVotes := r.rematchVotes + {sid})]), Members(w.joined, code) - {sid},
                      RematchRequest(RequesterName(w, sid)))
  {
  }

  /** The room restarts exactly when some other socket has already voted. */
  lemma RestartNeedsTwoVoters(w: World, sid: SocketId, code: Code)
    requires code in w.rooms && |w.rooms[code].players| >= 2
    ensures code in Rematch(w, sid, code).rooms
    ensures Rematch(w, sid, code).rooms[code] == Restarted(w.rooms[code])
            <==> exists v :: v in w.rooms[code].rematchVotes && v != sid
  {
    if exists v :: v in w.rooms[code].rematchVotes && v != sid {
      OtherVoterRestarts(w, sid, code);
    } else {
      LoneVoterWaits(w, sid, code);
    }
  }

  lemma OtherVoterRestarts(w: World, sid: SocketId, code: Code)
    requires code in w.rooms && |w.rooms[code].players| >= 2
    requires exists v :: v in w.rooms[code].rematchVotes && v != sid
    ensures code in Rematch(w, sid, code).rooms && Rematch(w, sid, code).rooms[code] == Restarted(w.rooms[code])
  {
    var votes := w.rooms[code].rematchVotes + {sid};
    var v :| v in w.rooms[code].rematchVotes && v != sid;
    assert {v, sid} <= votes;
    assert |{v, sid}| == 2;
    SubsetSize({v, sid}, votes);
    RematchRestarts(w, sid, code);
  }

  lemma LoneVoterWaits(w: World, sid: SocketId, code: Code)
    requires code in w.rooms && |w.rooms[code].players| >= 2
    requires !exists v :: v in w.rooms[code].rematchVotes && v != sid
    ensures code in Rematch(w, sid, code).rooms && Rematch(w, sid, code).rooms[code] != Restarted(w.rooms[code])
  {
    assert w.rooms[code].rematchVotes + {sid} == {sid};
    RematchWaits(w, sid, code);
    assert Rematch(w, sid, code).rooms[code].rematchVotes == {sid};
  }

  lemma SubsetSize<T>(a: set<T>, b: set<T>)
    requires a <= b
    ensures |a| <= |b|
  {
    assert b == a + (b - a);
  }

  /** A socket that votes again without a second voter changes nothing further. */
  lemma RepeatVoteIsIdempotent(w: World, sid: SocketId, code: Code)
    requires code in w.rooms && w.rooms[code].rematchVotes <= {sid}
    ensures Rematch(Rematch(w, sid, code), sid, code).rooms == Rematch(w, sid, code).rooms
  {
    var r := w.rooms[code];
    if |r.players| >= 2 {
      assert r.rematchVotes + {sid} == {sid};
      RematchWaits(w, sid, code);
      var w1 := Rematch(w, sid, code);
      assert w1.rooms[code].rematchVotes + {sid} == {sid};
      RematchWaits(w1, sid, code);
      assert w1.rooms[code := w1.rooms[code]] == w1.rooms;
    } else {
      RematchIgnored(w, sid, code);
      RematchIgnored(w, sid, code);
    }
  }

  /** Swapping twice restores the seating: two rematches in a row give each seat its old symbol back. */
  lemma {:induction false} SwapTwice(ps: seq<Player>)
    ensures SwapSymbols(SwapSymbols(ps)) == ps
  {
    var qs := SwapSymbols(SwapSymbols(ps));
    forall i | 0 <= i < |ps| ensures qs[i] == ps[i] {
      assert Other(Other(ps[i].symbol)) == ps[i].symbol;
    }
  }

  lemma RematchPreservesValid(w: World, sid: SocketId, code: Code)
    requires Valid(w)
    ensures Valid(Rematch(w, sid, code)) && StatusesAdvance(w, Rematch(w, sid, code))
  {
    if code !in w.rooms || |w.rooms[code].players| < 2 {
      RematchIgnored(w, sid, code);
    } else if |w.rooms[code].rematchVotes + {sid}| >= 2 {
      RestartValid(w, sid, code);
    } else {
      VoteValid(w, sid, code);
    }
  }

  lemma RestartValid(w: World, sid: SocketId, code: Code)
    requires Valid(w) && code in w.rooms && |w.rooms[code].players| >= 2 && |w.rooms[code].rematchVotes + {sid}| >= 2
    ensures Valid(Rematch(w, sid, code)) && StatusesAdvance(w, Rematch(w, sid, code))
  {
    var r := w.rooms[code];
    assert RoomOk(code, r) && LinkOk(w.tournaments, r);
    RematchRestarts(w, sid, code);
    RoomPutValid(w, code, Restarted(r));
    EmitValid(w.(rooms := w.rooms[code := Restarted(r)]), Members(w.joined, code),
              GameStart(EmptyBoard, X, Views(SwapSymbols(r.players)), r.scores, false));
  }

  lemma VoteValid(w: World, sid: SocketId, code: Code)
    requires Valid(w) && code in w.rooms && |w.rooms[code].players| >= 2 && |w.rooms[code].rematchVotes + {sid}| < 2
    ensures Valid(Rematch(w, sid, code)) && StatusesAdvance(w, Rematch(w, sid, code))
  {
    var r := w.rooms[code];
    assert RoomOk(code, r) && LinkOk(w.tournaments, r);
    RematchWaits(w, sid, code);
    var r' := r.(rematchVotes := r.rematchVotes + {sid});
    RoomPutValid(w, code, r');
    EmitValid(w.(rooms := w.rooms[code := r']), Members(w.joined, code) - {sid}, RematchRequest(RequesterName(w, sid)));
  }
}
