/**
  Four-player knock-out tournaments (tictactoe/socket/handlers/tournament.js):
  the lobby, the shuffle and the semifinal rooms, match results, the bracket
  update that seeds the final, and the champion.
*/
module Bracket {
  import opened Wrappers
  import opened JsStrings
  import opened GameLogic
  import opened Entities
  import opened State
  import opened Utils
  import opened SocketUtils
  import opened RoomHandlers

  const TournamentNotFound := "Tournament not found"
  const TournamentStarted := "Tournament started"
  const TournamentFull := "Tournament full"
  const CoinFlipText := "Draw! Coin flip winner: "
  const System := "SYSTEM"

  /** The matches `startTournament` sets up: 0 v 1, 2 v 3, and an unseeded final. */
  const Opening := [Match(1, Some(0), Some(1), None), Match(2, Some(2), Some(3), None), Match(3, None, None, None)]

  /**
    `t.players.sort(() => Math.random() - 0.5)`. Whatever order the random
    comparator produces is reached by some series of swaps; `swaps` is that
    series, each position taken modulo the number of players.
  */
  function Shuffle(ps: seq<TPlayer>, swaps: seq<(nat, nat)>): (r: seq<TPlayer>)
    ensures |r| == |ps| && multiset(r) == multiset(ps)
    decreases |swaps|
  {
    if swaps == [] || ps == [] then ps
    else
      var i := swaps[0].0 % |ps|;
      var j := swaps[0].1 % |ps|;
      Shuffle(ps[i := ps[j]][j := ps[i]], swaps[1..])
  }

  /** `t.players.map(p => p.name)`. */
  function Names(ps: seq<TPlayer>): (r: seq<string>)
    ensures |r| == |ps| && forall i :: 0 <= i < |ps| ==> r[i] == ps[i].name
  {
    seq(|ps|, i requires 0 <= i < |ps| => ps[i].name)
  }

  /** The code of the room for match `id` of tournament `tc`: `${t.code}-${match.id}`. */
  function MatchCode(tc: Code, id: nat): (code: Code)
    ensures |code| > |tc| && code[..|tc|] == tc && code[|tc|] == '-'
  {
    tc + "-" + DecimalString(id)
  }

  /** The room `createMatchRoom` builds: the two slots' players as X and O, playing a fresh board. */
  function MatchRoom(code: Code, tc: Code, id: nat, p1: TPlayer, p2: TPlayer): (r: Room)
    ensures r.players == [Player(p1.socketId, p1.key, p1.name, X), Player(p2.socketId, p2.key, p2.name, O)]
    ensures r.board == EmptyBoard && r.currentTurn == X && r.status == Playing && r.scores == ZeroScores
    ensures r.code == code && r.tournamentId == Some(tc) && r.matchId == Some(id) && r.rematchVotes == {}
  {
    Room(code, [Player(p1.socketId, p1.key, p1.name, X), Player(p2.socketId, p2.key, p2.name, O)],
         EmptyBoard, X, Playing, ZeroScores, {}, Some(tc), Some(id))
  }

  /** Routes a live socket into the match room and tells it its symbol. */
  function Seat(w: World, sid: SocketId, code: Code, s: Sym, lobby: Option<Code>): World
  {
    if sid !in w.live then w
    else
      var j := if lobby.Some? then w.joined - {(sid, lobby.value)} else w.joined;
      ToSocket(w.(joined := j + {(sid, code)}, socketRoom := w.socketRoom[sid := code]), sid, RoomJoined(code, s))
  }

  /**
    A live socket is routed to the room, moved from the lobby's channel to the
    room's, and told its symbol; a socket that is gone is skipped. Only the
    routes, the channels and the log change.
  */
  lemma SeatFacts(w: World, sid: SocketId, code: Code, s: Sym, lobby: Option<Code>)
    ensures var w' := Seat(w, sid, code, s, lobby);
            w' == w.(socketRoom := w'.socketRoom, joined := w'.joined, outbox := w'.outbox)
    ensures sid !in w.live ==> Seat(w, sid, code, s, lobby) == w
    ensures sid in w.live ==>
              var w' := Seat(w, sid, code, s, lobby);
              w'.socketRoom == w.socketRoom[sid := code]
              && w'.joined == (if lobby.Some? then w.joined - {(sid, lobby.value)} else w.joined) + {(sid, code)}
              && w'.outbox == w.outbox + [Sent({sid}, RoomJoined(code, s))]
  {
    if sid in w.live {
    }
  }

  lemma SeatValid(w: World, sid: SocketId, code: Code, s: Sym, lobby: Option<Code>)
    requires Valid(w) && code != ""
    ensures Valid(Seat(w, sid, code, s, lobby))
  {
    if sid in w.live {
      var j := if lobby.Some? then w.joined - {(sid, lobby.value)} else w.joined;
      var w1 := w.(joined := j + {(sid, code)}, socketRoom := w.socketRoom[sid := code]);
      assert Valid(w1);
      EmitValid(w1, {sid}, RoomJoined(code, s));
    }
  }

  /**
    `createMatchRoom(t, matchIndex)`: nothing for a match with an empty slot;
    otherwise the room is stored, both keys are routed to it, each live socket
    is moved in (the X player's socket alone leaves the lobby channel), and
    the room is told the game has started. A missing match or a slot that
    names no player is a `TypeError`.
  */
  function CreateMatchRoom(w: World, tc: Code, mi: nat): World
    requires tc in w.tournaments
  {
    var t := w.tournaments[tc];
    if mi >= |t.matches| then Crash(w)
    else if t.matches[mi].p1.None? || t.matches[mi].p2.None? then w
    else if !Playable(t, mi) then Crash(w)
    else OpenMatch(w, t, mi)
  }

  /** Both slots of match `mi` name players of the tournament. */
  predicate Playable(t: Tournament, mi: nat)
  {
    mi < |t.matches| && t.matches[mi].p1.Some? && t.matches[mi].p2.Some?
    && 0 <= t.matches[mi].p1.value < |t.players| && 0 <= t.matches[mi].p2.value < |t.players|
  }

  /** The room of a playable match: stored, both keys routed to it, both sockets seated, the start announced. */
  function OpenMatch(w: World, t: Tournament, mi: nat): World
    requires Playable(t, mi)
  {
    var m := t.matches[mi];
    var p1 := t.players[m.p1.value];
    var p2 := t.players[m.p2.value];
    var code := MatchCode(t.code, m.id);
    var room := MatchRoom(code, t.code, m.id, p1, p2);
    var w1 := w.(rooms := w.rooms[code := room], userRoom := w.userRoom[p1.key := code][p2.key := code]);
    var w2 := Seat(w1, p1.socketId, code, X, Some(t.code));
    var w3 := Seat(w2, p2.socketId, code, O, None);
    ToRoom(w3, code, GameStart(room.board, room.currentTurn, Views(room.players), room.scores, true))
  }

  /** Which of its outcomes `createMatchRoom` takes. */
  lemma MatchRoomCases(w: World, tc: Code, mi: nat)
    requires tc in w.tournaments
    ensures var t := w.tournaments[tc];
            CreateMatchRoom(w, tc, mi)
              == if mi >= |t.matches| then Crash(w)
                 else if t.matches[mi].p1.None? || t.matches[mi].p2.None? then w
                 else if !Playable(t, mi) then Crash(w)
                 else OpenMatch(w, t, mi)
  {
  }

  /** A match room touches only the rooms, the routes, the channels, the log and the crash flag. */
  lemma MatchRoomFrame(w: World, tc: Code, mi: nat)
    requires tc in w.tournaments
    ensures var w' := CreateMatchRoom(w, tc, mi);
            w' == w.(rooms := w'.rooms, socketRoom := w'.socketRoom, userRoom := w'.userRoom, joined := w'.joined,
                     outbox := w'.outbox, crashed := w'.crashed)
    ensures var t := w.tournaments[tc];
            mi < |t.matches| && (t.matches[mi].p1.None? || t.matches[mi].p2.None?) ==> CreateMatchRoom(w, tc, mi) == w
  {
    var t := w.tournaments[tc];
    MatchRoomCases(w, tc, mi);
    if Playable(t, mi) {
      OpenMatchFrame(w, t, mi);
    }
  }

  lemma OpenMatchFrame(w: World, t: Tournament, mi: nat)
    requires Playable(t, mi)
    ensures var w' := OpenMatch(w, t, mi);
            w' == w.(rooms := w'.rooms, socketRoom := w'.socketRoom, userRoom := w'.userRoom, joined := w'.joined,
                     outbox := w'.outbox)
  {
    var m := t.matches[mi];
    var p1 := t.players[m.p1.value];
    var p2 := t.players[m.p2.value];
    var code := MatchCode(t.code, m.id);
    var room := MatchRoom(code, t.code, m.id, p1, p2);
    var w1 := w.(rooms := w.rooms[code := room], userRoom := w.userRoom[p1.key := code][p2.key := code]);
    SeatFacts(w1, p1.socketId, code, X, Some(t.code));
    var w2 := Seat(w1, p1.socketId, code, X, Some(t.code));
    SeatFacts(w2, p2.socketId, code, O, None);
  }

  /**
    A playable match gets its room under `${t.code}-${match.id}`, seating the
    first slot's player as X and the second's as O, and both keys are routed
    to it; the process survives.
  */
  lemma MatchRoomStored(w: World, tc: Code, mi: nat)
    requires tc in w.tournaments && Playable(w.tournaments[tc], mi)
    ensures var t := w.tournaments[tc]; var m := t.matches[mi];
            var p1 := t.players[m.p1.value]; var p2 := t.players[m.p2.value];
            var code := MatchCode(t.code, m.id); var w' := CreateMatchRoom(w, tc, mi);
            w'.rooms == w.rooms[code := MatchRoom(code, t.code, m.id, p1, p2)]
            && w'.userRoom == w.userRoom[p1.key := code][p2.key := code]
            && w'.crashed == w.crashed
  {
    var t := w.tournaments[tc];
    MatchRoomCases(w, tc, mi);
    var m := t.matches[mi];
    var p1 := t.players[m.p1.value];
    var p2 := t.players[m.p2.value];
    var code := MatchCode(t.code, m.id);
    var room := MatchRoom(code, t.code, m.id, p1, p2);
    var w1 := w.(rooms := w.rooms[code := room], userRoom := w.userRoom[p1.key := code][p2.key := code]);
    SeatFacts(w1, p1.socketId, code, X, Some(t.code));
    var w2 := Seat(w1, p1.socketId, code, X, Some(t.code));
    SeatFacts(w2, p2.socketId, code, O, None);
  }

  /**
    A created match room is announced to its channel with `game:start`,
    marked as a tournament match; each live player's socket is routed to it
    and told its symbol.
  */
  lemma MatchRoomAnnounced(w: World, tc: Code, mi: nat)
    requires tc in w.tournaments && Playable(w.tournaments[tc], mi)
    ensures var t := w.tournaments[tc]; var m := t.matches[mi];
            var p1 := t.players[m.p1.value]; var p2 := t.players[m.p2.value];
            var code := MatchCode(t.code, m.id); var w' := CreateMatchRoom(w, tc, mi);
            |w'.outbox| > |w.outbox|
            && w'.outbox[|w'.outbox| - 1] == Sent(Members(w'.joined, code), GameStart(EmptyBoard, X, Views(MatchRoom(code, t.code, m.id, p1, p2).players), ZeroScores, true))
            && (p1.socketId in w.live ==> p1.socketId in w'.socketRoom && w'.socketRoom[p1.socketId] == code
                                          && (p1.socketId, code) in w'.joined
                                          && (p2.socketId != p1.socketId ==> (p1.socketId, t.code) !in w'.joined))
            && (p2.socketId in w.live ==> p2.socketId in w'.socketRoom && w'.socketRoom[p2.socketId] == code
                                          && (p2.socketId, code) in w'.joined)
  {
    var t := w.tournaments[tc];
    MatchRoomCases(w, tc, mi);
    var m := t.matches[mi];
    var p1 := t.players[m.p1.value];
    var p2 := t.players[m.p2.value];
    var code := MatchCode(t.code, m.id);
    var room := MatchRoom(code, t.code, m.id, p1, p2);
    var w1 := w.(rooms := w.rooms[code := room], userRoom := w.userRoom[p1.key := code][p2.key := code]);
    SeatFacts(w1, p1.socketId, code, X, Some(t.code));
    var w2 := Seat(w1, p1.socketId, code, X, Some(t.code));
    SeatFacts(w2, p2.socketId, code, O, None);
  }

  /** Creating the room of a match of a started tournament keeps the state well formed. */
  lemma MatchRoomValid(w: World, tc: Code, mi: nat)
    requires Valid(w) && tc in w.tournaments
    requires var t := w.tournaments[tc];
             mi < |t.matches| ==> t.status != TWaiting && 1 <= t.matches[mi].id <= 3
                                  && (t.matches[mi].id == 3 ==> t.status in {Final, Completed})
    ensures Valid(CreateMatchRoom(w, tc, mi))
  {
    var t := w.tournaments[tc];
    MatchRoomCases(w, tc, mi);
    if Playable(t, mi) {
      assert TournamentOk(tc, t);
      OpenMatchValid(w, t, mi);
    }
  }

  lemma OpenMatchValid(w: World, t: Tournament, mi: nat)
    requires Valid(w) && Playable(t, mi) && t.code in w.tournaments && t.code != ""
    requires var st := w.tournaments[t.code].status;
             st != TWaiting && 1 <= t.matches[mi].id <= 3 && (t.matches[mi].id == 3 ==> st in {Final, Completed})
    ensures Valid(OpenMatch(w, t, mi))
  {
    var m := t.matches[mi];
    var p1 := t.players[m.p1.value];
    var p2 := t.players[m.p2.value];
    var code := MatchCode(t.code, m.id);
    var room := MatchRoom(code, t.code, m.id, p1, p2);
    RoomPutValid(w, code, room);
    var w0 := w.(rooms := w.rooms[code := room]);
    RouteKeysValid(w0, p1.key, p2.key, code);
    var w1 := w.(rooms := w.rooms[code := room], userRoom := w.userRoom[p1.key := code][p2.key := code]);
    assert w1 == w0.(userRoom := w0.userRoom[p1.key := code][p2.key := code]);
    SeatValid(w1, p1.socketId, code, X, Some(t.code));
    var w2 := Seat(w1, p1.socketId, code, X, Some(t.code));
    SeatValid(w2, p2.socketId, code, O, None);
    var w3 := Seat(w2, p2.socketId, code, O, None);
    EmitValid(w3, Members(w3.joined, code), GameStart(room.board, room.currentTurn, Views(room.players), room.scores, true));
  }

  /**
    `startTournament(t)`: the players are shuffled, the opening bracket is
    set, the lobby hears the start, and both semifinal rooms are created.
  */
  function StartTournament(w: World, tc: Code, swaps: seq<(nat, nat)>): World
    requires tc in w.tournaments && |w.tournaments[tc].players| == 4
  {
    var t := w.tournaments[tc];
    var t1 := t.(status := Semifinals, players := Shuffle(t.players, swaps), matches := Opening);
    var w1 := w.(tournaments := w.tournaments[tc := t1]);
    var w2 := ToRoom(w1, t1.code, TournamentStart(t1.matches, Names(t1.players)));
    var w3 := CreateMatchRoom(w2, tc, 0);
    MatchRoomFrame(w2, tc, 0);
    CreateMatchRoom(w3, tc, 1)
  }

  /** The lobby becomes the semifinals of the opening bracket, its players in shuffled order; nothing else in the tournaments changes. */
  lemma StartedBracket(w: World, tc: Code, swaps: seq<(nat, nat)>)
    requires tc in w.tournaments && |w.tournaments[tc].players| == 4
    ensures StartTournament(w, tc, swaps).tournaments
              == w.tournaments[tc := w.tournaments[tc].(players := Shuffle(w.tournaments[tc].players, swaps),
                                                        matches := Opening, status := Semifinals)]
    ensures StartTournament(w, tc, swaps).finalSpawns == w.finalSpawns
  {
    var t := w.tournaments[tc];
    var t1 := t.(status := Semifinals, players := Shuffle(t.players, swaps), matches := Opening);
    var w1 := w.(tournaments := w.tournaments[tc := t1]);
    var w2 := ToRoom(w1, t1.code, TournamentStart(t1.matches, Names(t1.players)));
    MatchRoomFrame(w2, tc, 0);
    var w3 := CreateMatchRoom(w2, tc, 0);
    MatchRoomFrame(w3, tc, 1);
  }

  /** The position of the first match whose id is `id`, or -1 (`t.matches.find(m => m.id === room.matchId)`). */
  function MatchIndex(ms: seq<Match>, id: Option<nat>): (i: int)
    ensures -1 <= i < |ms|
    ensures i >= 0 ==> Some(ms[i].id) == id && forall j :: 0 <= j < i ==> Some(ms[j].id) != id
    ensures i == -1 <==> forall j :: 0 <= j < |ms| ==> Some(ms[j].id) != id
  {
    if ms == [] then -1
    else if Some(ms[0].id) == id then 0
    else var i := MatchIndex(ms[1..], id); if i == -1 then -1 else i + 1
  }

  /** Two brackets with the same match ids, position by position. */
  predicate SameIds(ms: seq<Match>, ms': seq<Match>)
  {
    |ms| == |ms'| && forall i :: 0 <= i < |ms| ==> ms[i].id == ms'[i].id
  }

  lemma {:induction false} SameIdsSameIndex(ms: seq<Match>, ms': seq<Match>, id: Option<nat>)
    requires SameIds(ms, ms')
    ensures MatchIndex(ms', id) == MatchIndex(ms, id)
  {
    if ms != [] {
      assert SameIds(ms[1..], ms'[1..]);
      SameIdsSameIndex(ms[1..], ms'[1..], id);
    }
  }

  /** `match.winner = winnerIndex`. */
  function Decide(t: Tournament, mi: nat, idx: int): (t': Tournament)
    requires mi < |t.matches|
    ensures t'.players == t.players && t'.code == t.code && t'.status == t.status && SameIds(t.matches, t'.matches)
    ensures t'.matches[mi].winner == Some(idx)
    ensures forall i :: 0 <= i < |t.matches| && i != mi ==> t'.matches[i] == t.matches[i]
    ensures t'.matches[mi].p1 == t.matches[mi].p1 && t'.matches[mi].p2 == t.matches[mi].p2
  {
    t.(matches := t.matches[mi := t.matches[mi].(winner := Some(idx))])
  }

  /**
    Deciding an undecided match and taking the bracket step keeps a
    tournament well formed and never moves its status back. In the
    semifinals the final has no room yet, so it cannot be the match decided.
  */
  lemma DecideKeepsOk(tc: Code, t: Tournament, mi: nat, idx: int)
    requires TournamentOk(tc, t) && mi < |t.matches| && t.matches[mi].winner.None?
    requires t.status == Semifinals ==> mi != 2
    ensures |t.matches| == 3
    ensures var t' := BracketStep(Decide(t, mi, idx));
            TournamentOk(tc, t') && Rank(t.status) <= Rank(t'.status)
            && (Seeds(Decide(t, mi, idx)) ==> t.status == Semifinals)
  {
    var d := Decide(t, mi, idx);
    assert Skeleton(d.matches);
    if t.status == Final {
      assert mi == 2;
      assert !Seeds(d);
    }
  }

  /** Room `code` is a match room whose tournament exists and whose match has no winner yet. */
  predicate Undecided(w: World, code: Code)
    requires code in w.rooms
  {
    var r := w.rooms[code];
    r.tournamentId.Some? && r.tournamentId.value != "" && r.tournamentId.value in w.tournaments
    && (var ms := w.tournaments[r.tournamentId.value].matches;
        MatchIndex(ms, r.matchId) >= 0 && ms[MatchIndex(ms, r.matchId)].winner.None?)
  }

  /** Only the tournaments, the pending final spawns, the log and the crash flag may differ. */
  predicate BracketFrame(w: World, w': World)
  {
    w' == w.(tournaments := w'.tournaments, finalSpawns := w'.finalSpawns, outbox := w'.outbox, crashed := w'.crashed)
  }

  /** Both semifinals are decided and the final's first slot is still empty (line 119). */
  predicate Seeds(t: Tournament)
    requires |t.matches| >= 3
  {
    t.matches[0].winner.Some? && t.matches[1].winner.Some? && t.matches[2].p1.None?
  }

  /**
    What `updateBracket` does to the tournament itself: it seeds the final
    from the semifinal winners and moves to final, or, with the final
    decided, completes; otherwise nothing.
  */
  function BracketStep(t: Tournament): (t': Tournament)
    requires |t.matches| >= 3
    ensures t'.players == t.players && t'.code == t.code && SameIds(t.matches, t'.matches)
    ensures forall i :: 0 <= i < |t.matches| ==> t'.matches[i].winner == t.matches[i].winner
    ensures Seeds(t) ==> t'.status == Final && t'.matches[2].p1 == t.matches[0].winner
                         && t'.matches[2].p2 == t.matches[1].winner
    ensures forall i :: 0 <= i < 2 ==> t'.matches[i] == t.matches[i]
    ensures !Seeds(t) ==> t'.matches == t.matches
    ensures !Seeds(t) && t.matches[2].winner.Some? ==> t'.status == Completed
    ensures !Seeds(t) && t.matches[2].winner.None? ==> t' == t
  {
    var m1 := t.matches[0];
    var m2 := t.matches[1];
    var f := t.matches[2];
    if m1.winner.Some? && m2.winner.Some? && f.p1.None? then
      t.(matches := t.matches[2 := f.(p1 := m1.winner, p2 := m2.winner)], status := Final)
    else if f.winner.Some? && t.status != Completed then t.(status := Completed)
    else t
  }

  /**
    `updateBracket(t)`: the lobby sees the bracket, then the tournament takes
    its next step; seeding the final announces the new bracket and schedules
    the final's room, and completing announces the champion. Fewer than
    three matches, or a final winner that names no player, is a `TypeError`.
  */
  function UpdateBracket(w: World, tc: Code): World
    requires tc in w.tournaments
  {
    var t := w.tournaments[tc];
    var w1 := ToRoom(w, t.code, TournamentBracket(t.matches, t.status));
    if |t.matches| < 3 then Crash(w1)
    else
      var f := t.matches[2];
      var t1 := BracketStep(t);
      var w2 := w1.(tournaments := w1.tournaments[tc := t1]);
      if Seeds(t) then
        var w3 := ToRoom(w2, t1.code, TournamentBracket(t1.matches, t1.status));
        w3.(finalSpawns := w3.finalSpawns + [tc])
      else if f.winner.Some? && t.status != Completed then
        if !(0 <= f.winner.value < |t.players|) then Crash(w2)
        else ToRoom(w2, t.code, TournamentChampion(t.players[f.winner.value].name))
      else w2
  }

  // The outcomes of `updateBracket`, one lemma per branch.

  /** The lobby's view of the bracket before the step. */
  function BracketShown(w: World, tc: Code): World
    requires tc in w.tournaments
  {
    ToRoom(w, w.tournaments[tc].code, TournamentBracket(w.tournaments[tc].matches, w.tournaments[tc].status))
  }

  /** The log entry showing the lobby the bracket before the step. */
  function BracketNote(w: World, tc: Code): Sent
    requires tc in w.tournaments
  {
    var t := w.tournaments[tc];
    Sent(Members(w.joined, t.code), TournamentBracket(t.matches, t.status))
  }

  /** The world once the step has been stored. */
  function BracketStored(w: World, tc: Code): World
    requires tc in w.tournaments && |w.tournaments[tc].matches| >= 3
  {
    var w1 := BracketShown(w, tc);
    w1.(tournaments := w1.tournaments[tc := BracketStep(w.tournaments[tc])])
  }

  lemma BracketTooShort(w: World, tc: Code)
    requires tc in w.tournaments && |w.tournaments[tc].matches| < 3
    ensures UpdateBracket(w, tc) == Crash(BracketShown(w, tc))
    ensures BracketFrame(w, UpdateBracket(w, tc))
    ensures UpdateBracket(w, tc).tournaments == w.tournaments && UpdateBracket(w, tc).finalSpawns == w.finalSpawns
    ensures UpdateBracket(w, tc).outbox == w.outbox + [BracketNote(w, tc)]
  {
  }

  lemma BracketSeedsFinal(w: World, tc: Code)
    requires tc in w.tournaments && |w.tournaments[tc].matches| >= 3 && Seeds(w.tournaments[tc])
    ensures var t1 := BracketStep(w.tournaments[tc]);
            var w3 := ToRoom(BracketStored(w, tc), t1.code, TournamentBracket(t1.matches, t1.status));
            UpdateBracket(w, tc) == w3.(finalSpawns := w3.finalSpawns + [tc])
    ensures BracketFrame(w, UpdateBracket(w, tc))
    ensures UpdateBracket(w, tc).tournaments == w.tournaments[tc := BracketStep(w.tournaments[tc])]
    ensures UpdateBracket(w, tc).finalSpawns == w.finalSpawns + [tc]
    ensures var t1 := BracketStep(w.tournaments[tc]);
            UpdateBracket(w, tc).outbox
              == w.outbox + [BracketNote(w, tc), Sent(Members(w.joined, t1.code), TournamentBracket(t1.matches, t1.status))]
  {
  }

  /** The final is decided and the tournament not yet completed. */
  predicate Crowning(t: Tournament)
    requires |t.matches| >= 3
  {
    !Seeds(t) && t.matches[2].winner.Some? && t.status != Completed
  }

  lemma BracketCrowns(w: World, tc: Code)
    requires tc in w.tournaments && |w.tournaments[tc].matches| >= 3 && Crowning(w.tournaments[tc])
    ensures var t := w.tournaments[tc]; var i := t.matches[2].winner.value;
            UpdateBracket(w, tc)
              == if 0 <= i < |t.players| then ToRoom(BracketStored(w, tc), t.code, TournamentChampion(t.players[i].name))
                 else Crash(BracketStored(w, tc))
    ensures BracketFrame(w, UpdateBracket(w, tc))
    ensures UpdateBracket(w, tc).tournaments == w.tournaments[tc := BracketStep(w.tournaments[tc])]
    ensures UpdateBracket(w, tc).finalSpawns == w.finalSpawns
    ensures var t := w.tournaments[tc]; var i := t.matches[2].winner.value;
            UpdateBracket(w, tc).outbox
              == w.outbox + [BracketNote(w, tc)]
                 + if 0 <= i < |t.players| then [Sent(Members(w.joined, t.code), TournamentChampion(t.players[i].name))] else []
  {
  }

  lemma BracketIdle(w: World, tc: Code)
    requires tc in w.tournaments && |w.tournaments[tc].matches| >= 3
    requires !Seeds(w.tournaments[tc]) && !Crowning(w.tournaments[tc])
    ensures UpdateBracket(w, tc) == BracketStored(w, tc)
    ensures BracketFrame(w, UpdateBracket(w, tc))
    ensures UpdateBracket(w, tc).tournaments == w.tournaments[tc := BracketStep(w.tournaments[tc])]
    ensures UpdateBracket(w, tc).finalSpawns == w.finalSpawns
    ensures UpdateBracket(w, tc).outbox == w.outbox + [BracketNote(w, tc)]
  {
  }

  /**
    `updateBracket` changes only the tournaments, the pending final spawns,
    the log and the crash flag: tournament `tc` takes its bracket step, and
    seeding the final schedules its room.
  */
  lemma UpdateBracketSpec(w: World, tc: Code)
    requires tc in w.tournaments
    ensures BracketFrame(w, UpdateBracket(w, tc))
    ensures |w.tournaments[tc].matches| < 3 ==>
              UpdateBracket(w, tc).tournaments == w.tournaments && UpdateBracket(w, tc).finalSpawns == w.finalSpawns
    ensures var t := w.tournaments[tc];
            |t.matches| >= 3 ==>
              UpdateBracket(w, tc).tournaments == w.tournaments[tc := BracketStep(t)]
              && UpdateBracket(w, tc).finalSpawns == w.finalSpawns + (if Seeds(t) then [tc] else [])
  {
    var t := w.tournaments[tc];
    if |t.matches| < 3 {
      BracketTooShort(w, tc);
    } else if Seeds(t) {
      BracketSeedsFinal(w, tc);
    } else if Crowning(t) {
      BracketCrowns(w, tc);
    } else {
      BracketIdle(w, tc);
    }
  }

  /** The seat holding the symbol a result names: the winner's, or after a draw the coin's. */
  function ResultSeat(r: Room, winner: Option<Sym>, coinX: bool): (p: Option<Player>)
    ensures p.Some? ==> p.value in r.players && p.value.symbol == (if winner.Some? then winner.value else if coinX then X else O)
  {
    FindBySymbol(r.players, if winner.Some? then winner.value else if coinX then X else O)
  }

  /** The tournament of room `code` with its match decided for the seat `ResultSeat` names. */
  function Decision(w: World, code: Code, winner: Option<Sym>, coinX: bool): (d: Tournament)
    requires code in w.rooms && Undecided(w, code) && ResultSeat(w.rooms[code], winner, coinX).Some?
  {
    var r := w.rooms[code];
    var t := w.tournaments[r.tournamentId.value];
    Decide(t, MatchIndex(t.matches, r.matchId), TFindByKey(t.players, ResultSeat(r, winner, coinX).value.key))
  }

  /**
    Lines 89-104 for an undecided match whose result names a seat: after a
    draw the room hears who won the coin, and the match records the winner.
  */
  function Decided(w: World, code: Code, winner: Option<Sym>, coinX: bool, now: int): World
    requires code in w.rooms && Undecided(w, code) && ResultSeat(w.rooms[code], winner, coinX).Some?
  {
    var r := w.rooms[code];
    var p := ResultSeat(r, winner, coinX).value;
    var w1 := if winner.Some? then w else ToRoom(w, r.code, ChatMsg(System, CoinFlipText + p.name, now));
    w1.(tournaments := w1.tournaments[r.tournamentId.value := Decision(w, code, winner, coinX)])
  }

  /** Line 108: the decided match's tournament then takes its bracket step. */
  function ApplyDecision(w: World, code: Code, winner: Option<Sym>, coinX: bool, now: int): World
    requires code in w.rooms && Undecided(w, code) && ResultSeat(w.rooms[code], winner, coinX).Some?
  {
    UpdateBracket(Decided(w, code, winner, coinX, now), w.rooms[code].tournamentId.value)
  }

  /** Recording the decision changes only the decided tournament and, after a draw, the log. */
  lemma DecidedSpec(w: World, code: Code, winner: Option<Sym>, coinX: bool, now: int)
    requires code in w.rooms && Undecided(w, code) && ResultSeat(w.rooms[code], winner, coinX).Some?
    ensures var wd := Decided(w, code, winner, coinX, now); var r := w.rooms[code];
            BracketFrame(w, wd) && !wd.crashed == !w.crashed && wd.finalSpawns == w.finalSpawns
            && wd.tournaments == w.tournaments[r.tournamentId.value := Decision(w, code, winner, coinX)]
            && wd.outbox == w.outbox + if winner.Some? then [] else
                 [Sent(Members(w.joined, r.code), ChatMsg(System, CoinFlipText + ResultSeat(r, winner, coinX).value.name, now))]
  {
    if winner.Some? {
      assert w.outbox + [] == w.outbox;
    }
  }

  lemma FrameTrans(w: World, w1: World, w2: World)
    requires BracketFrame(w, w1) && BracketFrame(w1, w2)
    ensures BracketFrame(w, w2)
  {
  }

  /**
    Applying a decision changes only the tournaments, the pending spawns, the
    log and the crash flag; no tournament appears or disappears, and the
    decided tournament takes its bracket step.
  */
  lemma ApplyDecisionSpec(w: World, code: Code, winner: Option<Sym>, coinX: bool, now: int)
    requires code in w.rooms && Undecided(w, code) && ResultSeat(w.rooms[code], winner, coinX).Some?
    ensures var w' := ApplyDecision(w, code, winner, coinX, now);
            BracketFrame(w, w') && w'.tournaments.Keys == w.tournaments.Keys
    ensures var w' := ApplyDecision(w, code, winner, coinX, now);
            var tc := w.rooms[code].tournamentId.value; var d := Decision(w, code, winner, coinX);
            (|d.matches| >= 3 ==> w'.tournaments == w.tournaments[tc := BracketStep(d)]
                                  && w'.finalSpawns == w.finalSpawns + (if Seeds(d) then [tc] else []))
            && (|d.matches| < 3 ==> w'.tournaments == w.tournaments[tc := d] && w'.finalSpawns == w.finalSpawns)
  {
    var tc := w.rooms[code].tournamentId.value;
    var wd := Decided(w, code, winner, coinX, now);
    DecidedSpec(w, code, winner, coinX, now);
    UpdateBracketSpec(wd, tc);
    FrameTrans(w, wd, UpdateBracket(wd, tc));
    var d := Decision(w, code, winner, coinX);
    assert w.tournaments[tc := d].Keys == w.tournaments.Keys;
    if |d.matches| >= 3 {
      assert w.tournaments[tc := d][tc := BracketStep(d)] == w.tournaments[tc := BracketStep(d)];
    }
  }

  /**
    `handleTournamentResult(room, result)`: for a match room whose match is
    not yet decided, the winning symbol (or, after a draw, the coin's symbol)
    names a seat, that seat's key names the winner's place in `t.players`, and
    the bracket is updated. A symbol no seat holds is a `TypeError`.
  */
  function TournamentResult(w: World, code: Code, winner: Option<Sym>, coinX: bool, now: int): World
    requires code in w.rooms
  {
    var r := w.rooms[code];
    if r.tournamentId.None? || r.tournamentId.value == "" || r.tournamentId.value !in w.tournaments then w
    else
      var t := w.tournaments[r.tournamentId.value];
      var mi := MatchIndex(t.matches, r.matchId);
      if mi == -1 || t.matches[mi].winner.Some? then w
      else if ResultSeat(r, winner, coinX).None? then Crash(w)
      else ApplyDecision(w, code, winner, coinX, now)
  }

  /** A result for a room with no undecided match changes nothing. */
  lemma ResultIgnored(w: World, code: Code, winner: Option<Sym>, coinX: bool, now: int)
    requires code in w.rooms && !Undecided(w, code)
    ensures TournamentResult(w, code, winner, coinX, now) == w
  {
  }

  /** A result whose symbol no seat holds is a `TypeError`. */
  lemma ResultUnseated(w: World, code: Code, winner: Option<Sym>, coinX: bool, now: int)
    requires code in w.rooms && Undecided(w, code) && ResultSeat(w.rooms[code], winner, coinX).None?
    ensures TournamentResult(w, code, winner, coinX, now) == Crash(w)
  {
  }

  lemma ResultApplied(w: World, code: Code, winner: Option<Sym>, coinX: bool, now: int)
    requires code in w.rooms && Undecided(w, code) && ResultSeat(w.rooms[code], winner, coinX).Some?
    ensures TournamentResult(w, code, winner, coinX, now) == ApplyDecision(w, code, winner, coinX, now)
  {
  }

  /** A result never touches the user records. */
  lemma ResultKeepsUsers(w: World, code: Code, winner: Option<Sym>, coinX: bool, now: int)
    requires code in w.rooms
    ensures TournamentResult(w, code, winner, coinX, now).users == w.users
  {
    if !Undecided(w, code) {
      ResultIgnored(w, code, winner, coinX, now);
    } else if ResultSeat(w.rooms[code], winner, coinX).None? {
      ResultUnseated(w, code, winner, coinX, now);
    } else {
      ResultApplied(w, code, winner, coinX, now);
      ApplyDecisionSpec(w, code, winner, coinX, now);
    }
  }

  /**
    `w'` holds the result of room `r`'s match in the bracket `ts` it was played
    in: the match's winner is the place in the bracket of the key seated with
    the winning symbol (after a draw, the coin's symbol), or, when no seat
    holds that symbol, the server has thrown.
  */
  ghost predicate RecordsResult(r: Room, ts: map<Code, Tournament>, w': World, winner: Option<Sym>, coinX: bool)
  {
    r.tournamentId.Some? && r.tournamentId.value in ts
    && (var tc := r.tournamentId.value; var t := ts[tc]; var mi := MatchIndex(t.matches, r.matchId);
        var p := ResultSeat(r, winner, coinX);
        mi >= 0
        && (p.None? ==> w'.crashed)
        && (p.Some? ==> tc in w'.tournaments && |w'.tournaments[tc].matches| == |t.matches|
                        && w'.tournaments[tc].matches[mi].winner == Some(TFindByKey(t.players, p.value.key))))
  }

  /**
    An undecided match takes as its winner the place in `t.players` of the
    first seat's key holding the winning symbol, or after a draw the coin's
    symbol; no seat holding it is a `TypeError`.
  */
  lemma ResultRecordsWinner(w: World, code: Code, winner: Option<Sym>, coinX: bool, now: int)
    requires code in w.rooms && Undecided(w, code)
    ensures var r := w.rooms[code]; var tc := r.tournamentId.value; var t := w.tournaments[tc];
            var mi := MatchIndex(t.matches, r.matchId); var w' := TournamentResult(w, code, winner, coinX, now);
            var p := ResultSeat(r, winner, coinX);
            (p.None? ==> w' == Crash(w))
            && (p.Some? ==>
                  tc in w'.tournaments && |w'.tournaments[tc].matches| == |t.matches|
                  && w'.tournaments[tc].matches[mi].winner == Some(TFindByKey(t.players, p.value.key)))
  {
    var r := w.rooms[code];
    if ResultSeat(r, winner, coinX).None? {
      ResultUnseated(w, code, winner, coinX, now);
    } else {
      ResultApplied(w, code, winner, coinX, now);
      ApplyDecisionSpec(w, code, winner, coinX, now);
      var d := Decision(w, code, winner, coinX);
      if |d.matches| >= 3 {
        assert BracketStep(d).matches[MatchIndex(w.tournaments[r.tournamentId.value].matches, r.matchId)].winner
               == d.matches[MatchIndex(w.tournaments[r.tournamentId.value].matches, r.matchId)].winner;
      }
    }
  }

  /** `ResultRecordsWinner` in the terms of `RecordsResult`. */
  lemma ResultRecorded(w: World, code: Code, winner: Option<Sym>, coinX: bool, now: int)
    requires code in w.rooms && Undecided(w, code)
    ensures RecordsResult(w.rooms[code], w.tournaments, TournamentResult(w, code, winner, coinX, now), winner, coinX)
  {
    ResultRecordsWinner(w, code, winner, coinX, now);
  }

  /**
    `tournament:create`: the creator leaves its room, a code free among the
    tournaments is drawn, and the creator is the lobby's only player. The
    creator's `userRoom` entry is not touched.
  */
  function CreateTournament(w: World, sid: SocketId, draws: nat -> nat): World
    requires EventuallyFree(w.tournaments.Keys, draws)
  {
    match Authed(w, sid)
    case None => ToSocket(w, sid, Error(NotAuthenticated))
    case Some(key) =>
      var w1 := LeaveCurrentRoom(w, sid);
      var tc := Candidate(draws, FirstFree(w1.tournaments.Keys, draws));
      if key !in w1.users then Crash(w1)
      else
        var t := Tournament(tc, [TPlayer(sid, key, w1.users[key].displayName)], [], TWaiting);
        var w2 := w1.(tournaments := w1.tournaments[tc := t], socketRoom := w1.socketRoom[sid := tc],
                      joined := w1.joined + {(sid, tc)});
        var w3 := ToSocket(w2, sid, TournamentCreated(tc));
        ToSocket(w3, sid, TournamentLobby(t.players, t.status))
  }

  /** An unauthenticated socket is only told so. */
  lemma CreateTournamentRefuses(w: World, sid: SocketId, draws: nat -> nat)
    requires EventuallyFree(w.tournaments.Keys, draws) && Authed(w, sid).None?
    ensures CreateTournament(w, sid, draws) == ToSocket(w, sid, Error(NotAuthenticated))
  {
  }

  /**
    An authenticated creator leaves its room; a lobby under a code no
    tournament has, holding the creator alone, is stored, routed to from the
    socket and joined, and the creator hears `tournament:created` and the
    lobby. Nothing else changes: no `userRoom` entry in particular.
  */
  lemma CreateTournamentOpens(w: World, sid: SocketId, draws: nat -> nat)
    requires EventuallyFree(w.tournaments.Keys, draws) && Authed(w, sid).Some? && Authed(w, sid).value in w.users
    ensures var w' := CreateTournament(w, sid, draws);
            var key := Authed(w, sid).value; var w1 := LeaveCurrentRoom(w, sid);
            var tc := Candidate(draws, FirstFree(w.tournaments.Keys, draws));
            var t := Tournament(tc, [TPlayer(sid, key, w.users[key].displayName)], [], TWaiting);
            tc !in w.tournaments
            && w'.tournaments == w.tournaments[tc := t]
            && w'.socketRoom == w1.socketRoom[sid := tc] && w'.joined == w1.joined + {(sid, tc)}
            && w'.outbox == w1.outbox + [Sent({sid}, TournamentCreated(tc)), Sent({sid}, TournamentLobby(t.players, TWaiting))]
            && w' == w1.(tournaments := w'.tournaments, socketRoom := w'.socketRoom, joined := w'.joined, outbox := w'.outbox)
  {
    var key := Authed(w, sid).value;
    var w1 := LeaveCurrentRoom(w, sid);
    assert w1.tournaments == w.tournaments && w1.users == w.users;
    var tc := Candidate(draws, FirstFree(w.tournaments.Keys, draws));
    var t := Tournament(tc, [TPlayer(sid, key, w.users[key].displayName)], [], TWaiting);
    var w2 := w1.(tournaments := w1.tournaments[tc := t], socketRoom := w1.socketRoom[sid := tc],
                  joined := w1.joined + {(sid, tc)});
    assert CreateTournament(w, sid, draws) == ToSocket(ToSocket(w2, sid, TournamentCreated(tc)), sid, TournamentLobby(t.players, t.status));
  }

  /** A creator whose key has no user record makes `users[key].displayName` throw, after the leave. */
  lemma CreateTournamentCrashes(w: World, sid: SocketId, draws: nat -> nat)
    requires EventuallyFree(w.tournaments.Keys, draws) && Authed(w, sid).Some? && Authed(w, sid).value !in w.users
    ensures CreateTournament(w, sid, draws) == Crash(LeaveCurrentRoom(w, sid))
  {
  }

  /**
    Lines 182-192, once the lobby has accepted the joiner: it leaves its
    room, is appended to the lobby's players and channel, the lobby hears the
    new line-up, and the fourth arrival starts the tournament.
  */
  function EnterLobby(w: World, sid: SocketId, key: Key, tc: Code, swaps: seq<(nat, nat)>): World
    requires tc in w.tournaments && w.tournaments[tc].status == TWaiting && |w.tournaments[tc].players| < 4
  {
    var w1 := LeaveCurrentRoom(w, sid);
    if key !in w1.users then Crash(w1)
    else
      var w3 := Enrol(w1, sid, key, tc);
      if |w3.tournaments[tc].players| == 4 then StartTournament(w3, tc, swaps) else w3
  }

  /** The joiner appended to the lobby's players and channel, and the lobby told. */
  function Enrol(w: World, sid: SocketId, key: Key, tc: Code): World
    requires tc in w.tournaments && key in w.users
  {
    var t := w.tournaments[tc];
    var t1 := t.(players := t.players + [TPlayer(sid, key, w.users[key].displayName)]);
    var w2 := w.(tournaments := w.tournaments[tc := t1], socketRoom := w.socketRoom[sid := tc],
                 joined := w.joined + {(sid, tc)});
    ToRoom(w2, tc, TournamentLobby(t1.players, t1.status))
  }

  /** Enrolling changes the lobby's players, the socket's route, the channels and the log, and nothing else. */
  lemma EnrolSpec(w: World, sid: SocketId, key: Key, tc: Code)
    requires tc in w.tournaments && key in w.users
    ensures var w' := Enrol(w, sid, key, tc); var t := w.tournaments[tc];
            w'.tournaments == w.tournaments[tc := t.(players := t.players + [TPlayer(sid, key, w.users[key].displayName)])]
            && w'.socketRoom == w.socketRoom[sid := tc] && w'.joined == w.joined + {(sid, tc)}
            && w'.outbox == w.outbox + [Sent(Members(w'.joined, tc), TournamentLobby(w'.tournaments[tc].players, t.status))]
            && w' == w.(tournaments := w'.tournaments, socketRoom := w'.socketRoom, joined := w'.joined, outbox := w'.outbox)
  {
  }

  /** An authenticated key with no user record is a `TypeError` once the joiner has left its room. */
  lemma LobbyUnknownUser(w: World, sid: SocketId, key: Key, tc: Code, swaps: seq<(nat, nat)>)
    requires tc in w.tournaments && w.tournaments[tc].status == TWaiting && |w.tournaments[tc].players| < 4
    requires key !in w.users
    ensures EnterLobby(w, sid, key, tc, swaps) == Crash(LeaveCurrentRoom(w, sid))
  {
    assert LeaveCurrentRoom(w, sid).users == w.users;
  }

  /** A joiner who is not the fourth waits in the lobby, routed to it, and the lobby hears the line-up. */
  lemma LobbyWaits(w: World, sid: SocketId, key: Key, tc: Code, swaps: seq<(nat, nat)>)
    requires tc in w.tournaments && w.tournaments[tc].status == TWaiting && |w.tournaments[tc].players| < 3
    requires key in w.users
    ensures var w' := EnterLobby(w, sid, key, tc, swaps); var t := w.tournaments[tc];
            var ps := t.players + [TPlayer(sid, key, w.users[key].displayName)];
            w'.tournaments == w.tournaments[tc := t.(players := ps)]
            && w'.socketRoom == LeaveCurrentRoom(w, sid).socketRoom[sid := tc]
            && (sid, tc) in w'.joined
            && |w'.outbox| > 0 && w'.outbox[|w'.outbox| - 1] == Sent(Members(w'.joined, tc), TournamentLobby(ps, TWaiting))
  {
    var w1 := LeaveCurrentRoom(w, sid);
    assert w1.users == w.users && w1.tournaments == w.tournaments;
    EnrolSpec(w1, sid, key, tc);
    assert EnterLobby(w, sid, key, tc, swaps) == Enrol(w1, sid, key, tc);
  }

  /** The fourth joiner starts the tournament with the four players in some order. */
  lemma LobbyStarts(w: World, sid: SocketId, key: Key, tc: Code, swaps: seq<(nat, nat)>)
    requires tc in w.tournaments && w.tournaments[tc].status == TWaiting && |w.tournaments[tc].players| == 3
    requires key in w.users
    ensures var w' := EnterLobby(w, sid, key, tc, swaps); var t := w.tournaments[tc];
            var ps := t.players + [TPlayer(sid, key, w.users[key].displayName)];
            tc in w'.tournaments && w'.tournaments[tc].status == Semifinals
            && multiset(w'.tournaments[tc].players) == multiset(ps)
  {
    var w1 := LeaveCurrentRoom(w, sid);
    assert w1.users == w.users && w1.tournaments == w.tournaments;
    EnrolSpec(w1, sid, key, tc);
    var w3 := Enrol(w1, sid, key, tc);
    StartedBracket(w3, tc, swaps);
    assert EnterLobby(w, sid, key, tc, swaps) == StartTournament(w3, tc, swaps);
  }

  lemma EnrolValid(w: World, sid: SocketId, key: Key, tc: Code)
    requires Valid(w) && key in w.users && tc in w.tournaments
    requires w.tournaments[tc].status == TWaiting && |w.tournaments[tc].players| < 4
    ensures |w.tournaments[tc].players| < 3 ==> Valid(Enrol(w, sid, key, tc))
    ensures |w.tournaments[tc].players| == 3 ==> FullLobby(Enrol(w, sid, key, tc), tc)
    ensures StatusesAdvance(w, Enrol(w, sid, key, tc))
  {
    EnrolSpec(w, sid, key, tc);
    var w' := Enrol(w, sid, key, tc);
    var t := w.tournaments[tc];
    assert TournamentOk(tc, t);
    var t1 := t.(players := t.players + [TPlayer(sid, key, w.users[key].displayName)]);
    LinksAdvance(w.rooms, w.tournaments, tc, t1);
    SpawnsAdvance(w.finalSpawns, w.tournaments, tc, t1);
    assert RoutesOk(w'.socketRoom, w'.userRoom);
    if |t.players| < 3 {
      assert TournamentOk(tc, t1);
      assert TournamentsOk(w'.tournaments);
    }
  }

  /**
    `tournament:join`: a code that is not a string is a `TypeError`; an
    unknown, started or full tournament is refused, answering the socket
    only. Nothing stops one socket from joining the same lobby twice.
  */
  function JoinTournament(w: World, sid: SocketId, codeArg: Option<string>, swaps: seq<(nat, nat)>): World
  {
    match Authed(w, sid)
    case None => ToSocket(w, sid, Error(NotAuthenticated))
    case Some(key) =>
      if codeArg.None? then Crash(w)
      else
        var tc := JoinCode(codeArg.value);
        if tc !in w.tournaments then ToSocket(w, sid, Error(TournamentNotFound))
        else
          var t := w.tournaments[tc];
          if t.status != TWaiting then ToSocket(w, sid, Error(TournamentStarted))
          else if |t.players| >= 4 then ToSocket(w, sid, Error(TournamentFull))
          else EnterLobby(w, sid, key, tc, swaps)
  }

  /** An open lobby with room to spare is entered. */
  predicate LobbyOpen(w: World, tc: Code)
  {
    tc in w.tournaments && w.tournaments[tc].status == TWaiting && |w.tournaments[tc].players| < 4
  }

  /** The refusals of `tournament:join`, each answered to the socket alone. */
  lemma JoinTournamentRejects(w: World, sid: SocketId, codeArg: Option<string>, swaps: seq<(nat, nat)>)
    ensures var w' := JoinTournament(w, sid, codeArg, swaps);
            (Authed(w, sid).None? ==> w' == ToSocket(w, sid, Error(NotAuthenticated)))
            && (Authed(w, sid).Some? && codeArg.None? ==> w' == Crash(w))
    ensures Authed(w, sid).Some? && codeArg.Some? ==>
              var w' := JoinTournament(w, sid, codeArg, swaps); var tc := JoinCode(codeArg.value);
              (tc !in w.tournaments ==> w' == ToSocket(w, sid, Error(TournamentNotFound)))
              && (tc in w.tournaments && w.tournaments[tc].status != TWaiting ==> w' == ToSocket(w, sid, Error(TournamentStarted)))
              && (tc in w.tournaments && w.tournaments[tc].status == TWaiting && |w.tournaments[tc].players| >= 4 ==>
                    w' == ToSocket(w, sid, Error(TournamentFull)))
  {
  }

  /** The error a lobby that cannot be entered answers with: unknown, started, or full, checked in that order. */
  function LobbyRefusal(w: World, tc: Code): string
    requires !LobbyOpen(w, tc)
  {
    if tc !in w.tournaments then TournamentNotFound
    else if w.tournaments[tc].status != TWaiting then TournamentStarted
    else TournamentFull
  }

  /** A lobby that is unknown, started or full turns the joiner away with that error alone. */
  lemma JoinTournamentTurnedAway(w: World, sid: SocketId, codeArg: Option<string>, swaps: seq<(nat, nat)>)
    requires Authed(w, sid).Some? && codeArg.Some? && !LobbyOpen(w, JoinCode(codeArg.value))
    ensures JoinTournament(w, sid, codeArg, swaps) == ToSocket(w, sid, Error(LobbyRefusal(w, JoinCode(codeArg.value))))
  {
  }

  lemma JoinTournamentEnters(w: World, sid: SocketId, codeArg: Option<string>, swaps: seq<(nat, nat)>)
    requires Authed(w, sid).Some? && codeArg.Some? && LobbyOpen(w, JoinCode(codeArg.value))
    ensures JoinTournament(w, sid, codeArg, swaps) == EnterLobby(w, sid, Authed(w, sid).value, JoinCode(codeArg.value), swaps)
  {
  }

  /** The final's `setTimeout(() => createMatchRoom(t, 2), 2000)` firing: pending spawn `i` runs. */
  function FireFinalSpawn(w: World, i: nat): World
    requires i < |w.finalSpawns| && w.finalSpawns[i] in w.tournaments
  {
    CreateMatchRoom(w.(finalSpawns := RemoveAt(w.finalSpawns, i)), w.finalSpawns[i], 2)
  }

  /** `startTournament` seats the shuffled players 0 and 1 in the first semifinal's room and 2 and 3 in the second's. */
  lemma StartSeatsSemifinals(w: World, tc: Code, swaps: seq<(nat, nat)>)
    requires tc in w.tournaments && |w.tournaments[tc].players| == 4 && w.tournaments[tc].code == tc
    ensures var w' := StartTournament(w, tc, swaps); var ps := Shuffle(w.tournaments[tc].players, swaps);
            MatchCode(tc, 1) in w'.rooms && w'.rooms[MatchCode(tc, 1)] == MatchRoom(MatchCode(tc, 1), tc, 1, ps[0], ps[1])
            && MatchCode(tc, 2) in w'.rooms && w'.rooms[MatchCode(tc, 2)] == MatchRoom(MatchCode(tc, 2), tc, 2, ps[2], ps[3])
  {
    var t := w.tournaments[tc];
    var ps := Shuffle(t.players, swaps);
    var t1 := t.(status := Semifinals, players := ps, matches := Opening);
    var w2 := ToRoom(w.(tournaments := w.tournaments[tc := t1]), t1.code, TournamentStart(t1.matches, Names(t1.players)));
    var c1, c2 := MatchCode(tc, 1), MatchCode(tc, 2);
    assert c1[|tc| + 1] == '1' && c2[|tc| + 1] == '2';
    FirstSemifinalSeated(w2, tc, t1);
    var w3 := CreateMatchRoom(w2, tc, 0);
    MatchRoomStored(w3, tc, 1);
    assert StartTournament(w, tc, swaps) == CreateMatchRoom(w3, tc, 1);
  }

  /** The first semifinal's room, opened in a world holding the freshly started bracket. */
  lemma FirstSemifinalSeated(w: World, tc: Code, t1: Tournament)
    requires tc in w.tournaments && w.tournaments[tc] == t1 && t1.code == tc
    requires t1.matches == Opening && |t1.players| == 4
    ensures var w3 := CreateMatchRoom(w, tc, 0);
            tc in w3.tournaments && w3.tournaments[tc] == t1
            && w3.rooms == w.rooms[MatchCode(tc, 1) := MatchRoom(MatchCode(tc, 1), tc, 1, t1.players[0], t1.players[1])]
  {
    assert Playable(t1, 0);
    MatchRoomStored(w, tc, 0);
    MatchRoomFrame(w, tc, 0);
  }

  /** A result changes winners and final slots, never the match ids. */
  lemma ResultKeepsIds(w: World, code: Code, winner: Option<Sym>, coinX: bool, now: int, c: Code)
    requires code in w.rooms && c in w.tournaments
    ensures c in TournamentResult(w, code, winner, coinX, now).tournaments
    ensures SameIds(w.tournaments[c].matches, TournamentResult(w, code, winner, coinX, now).tournaments[c].matches)
  {
    if !Undecided(w, code) {
      ResultIgnored(w, code, winner, coinX, now);
    } else if ResultSeat(w.rooms[code], winner, coinX).None? {
      ResultUnseated(w, code, winner, coinX, now);
    } else {
      ResultApplied(w, code, winner, coinX, now);
      ApplyKeepsIds(w, code, winner, coinX, now, c);
    }
  }

  lemma ApplyKeepsIds(w: World, code: Code, winner: Option<Sym>, coinX: bool, now: int, c: Code)
    requires code in w.rooms && Undecided(w, code) && ResultSeat(w.rooms[code], winner, coinX).Some?
    requires c in w.tournaments
    ensures c in ApplyDecision(w, code, winner, coinX, now).tournaments
    ensures SameIds(w.tournaments[c].matches, ApplyDecision(w, code, winner, coinX, now).tournaments[c].matches)
  {
    ApplyDecisionSpec(w, code, winner, coinX, now);
    var d := Decision(w, code, winner, coinX);
    if |d.matches| >= 3 {
      assert SameIds(d.matches, BracketStep(d).matches);
    }
  }

  /**
    Once a result has been applied, the match has a winner, so every later
    result for the same room, whatever its outcome, changes nothing.
  */
  lemma ResultAppliedOnce(w: World, code: Code, winner: Option<Sym>, coinX: bool, now: int,
                          winner2: Option<Sym>, coinX2: bool, now2: int)
    requires code in w.rooms
    ensures var w' := TournamentResult(w, code, winner, coinX, now);
            !w'.crashed ==> code in w'.rooms && TournamentResult(w', code, winner2, coinX2, now2) == w'
  {
    if !Undecided(w, code) {
      ResultIgnored(w, code, winner, coinX, now);
      ResultIgnored(w, code, winner2, coinX2, now2);
    } else if ResultSeat(w.rooms[code], winner, coinX).None? {
      ResultUnseated(w, code, winner, coinX, now);
    } else {
      ResultApplied(w, code, winner, coinX, now);
      AppliedOnce(w, code, winner, coinX, now, winner2, coinX2, now2);
    }
  }

  lemma AppliedOnce(w: World, code: Code, winner: Option<Sym>, coinX: bool, now: int,
                    winner2: Option<Sym>, coinX2: bool, now2: int)
    requires code in w.rooms && Undecided(w, code) && ResultSeat(w.rooms[code], winner, coinX).Some?
    ensures var w' := ApplyDecision(w, code, winner, coinX, now);
            code in w'.rooms && TournamentResult(w', code, winner2, coinX2, now2) == w'
  {
    var w' := ApplyDecision(w, code, winner, coinX, now);
    ApplyDecisionSpec(w, code, winner, coinX, now);
    assert w'.rooms == w.rooms;
    var r := w.rooms[code];
    var tc := r.tournamentId.value;
    var d := Decision(w, code, winner, coinX);
    var mi := MatchIndex(w.tournaments[tc].matches, r.matchId);
    assert d.matches[mi].winner.Some?;
    if |d.matches| >= 3 {
      assert BracketStep(d).matches[mi].winner == d.matches[mi].winner;
      assert SameIds(d.matches, BracketStep(d).matches);
    }
    SameIdsSameIndex(w.tournaments[tc].matches, w'.tournaments[tc].matches, r.matchId);
    assert !Undecided(w', code);
    ResultIgnored(w', code, winner2, coinX2, now2);
  }

  /** Replacing one tournament by a well-formed one no earlier in status, and perhaps scheduling its final, keeps the state well formed. */
  lemma StepValid(w: World, w': World, tc: Code, t: Tournament)
    requires Valid(w) && BracketFrame(w, w')
    requires w'.tournaments == w.tournaments[tc := t] && TournamentOk(tc, t)
    requires tc in w.tournaments ==> Rank(w.tournaments[tc].status) <= Rank(t.status)
    requires w'.finalSpawns == w.finalSpawns || (w'.finalSpawns == w.finalSpawns + [tc] && t.status in {Final, Completed})
    ensures Valid(w') && StatusesAdvance(w, w')
  {
    LinksAdvance(w.rooms, w.tournaments, tc, t);
    SpawnsAdvance(w.finalSpawns, w.tournaments, tc, t);
  }

  lemma DecidedValid(w: World, code: Code, winner: Option<Sym>, coinX: bool, now: int)
    requires Valid(w) && code in w.rooms && Undecided(w, code) && ResultSeat(w.rooms[code], winner, coinX).Some?
    ensures Valid(TournamentResult(w, code, winner, coinX, now))
    ensures StatusesAdvance(w, TournamentResult(w, code, winner, coinX, now))
  {
    var r := w.rooms[code];
    var tc := r.tournamentId.value;
    var t := w.tournaments[tc];
    var mi := MatchIndex(t.matches, r.matchId);
    assert TournamentOk(tc, t) && LinkOk(w.tournaments, r);
    var d := Decision(w, code, winner, coinX);
    DecideKeepsOk(tc, t, mi, TFindByKey(t.players, ResultSeat(r, winner, coinX).value.key));
    ApplyDecisionSpec(w, code, winner, coinX, now);
    StepValid(w, ApplyDecision(w, code, winner, coinX, now), tc, BracketStep(d));
    ResultApplied(w, code, winner, coinX, now);
  }

  /** Applying a result keeps the state well formed, and no tournament's status goes back. */
  lemma ResultValid(w: World, code: Code, winner: Option<Sym>, coinX: bool, now: int)
    requires Valid(w) && code in w.rooms
    ensures Valid(TournamentResult(w, code, winner, coinX, now))
    ensures StatusesAdvance(w, TournamentResult(w, code, winner, coinX, now))
  {
    if !Undecided(w, code) {
      ResultIgnored(w, code, winner, coinX, now);
    } else if ResultSeat(w.rooms[code], winner, coinX).None? {
      ResultUnseated(w, code, winner, coinX, now);
    } else {
      DecidedValid(w, code, winner, coinX, now);
    }
  }

  /** `updateBracket` announces at most one champion, and only when it completes the tournament. */
  lemma BracketChampion(w: World, tc: Code)
    requires tc in w.tournaments
    ensures var w' := UpdateBracket(w, tc);
            Champions(w'.outbox) <= Champions(w.outbox) + 1
            && (Champions(w'.outbox) == Champions(w.outbox) + 1 ==>
                  w.tournaments[tc].status != Completed && tc in w'.tournaments && w'.tournaments[tc].status == Completed)
  {
    var t := w.tournaments[tc];
    if |t.matches| < 3 {
      BracketTooShort(w, tc);
      NoteOnly(w.outbox, BracketNote(w, tc));
    } else if Seeds(t) {
      BracketSeedsFinal(w, tc);
      var t1 := BracketStep(t);
      NotePair(w.outbox, BracketNote(w, tc), Sent(Members(w.joined, t1.code), TournamentBracket(t1.matches, t1.status)));
    } else if Crowning(t) {
      BracketCrowns(w, tc);
      var i := t.matches[2].winner.value;
      if 0 <= i < |t.players| {
        NotePair(w.outbox, BracketNote(w, tc), Sent(Members(w.joined, t.code), TournamentChampion(t.players[i].name)));
      } else {
        NoteOnly(w.outbox, BracketNote(w, tc));
      }
    } else {
      BracketIdle(w, tc);
      NoteOnly(w.outbox, BracketNote(w, tc));
    }
  }

  lemma NoteOnly(log: seq<Sent>, note: Sent)
    requires !note.msg.TournamentChampion?
    ensures Champions(log + [note]) == Champions(log)
  {
    ChampionsSnoc(log, note);
  }

  lemma NotePair(log: seq<Sent>, note: Sent, next: Sent)
    requires !note.msg.TournamentChampion?
    ensures Champions(log + [note, next]) == Champions(log) + (if next.msg.TournamentChampion? then 1 else 0)
  {
    ChampionsSnoc(log, note);
    ChampionsSnoc(log + [note], next);
    assert log + [note, next] == log + [note] + [next];
  }

  /**
    A result announces at most one champion, and only for the tournament of
    its room, as that tournament moves to completed; since no status ever
    goes back, each tournament is crowned at most once.
  */
  lemma ResultChampion(w: World, code: Code, winner: Option<Sym>, coinX: bool, now: int)
    requires code in w.rooms
    ensures var w' := TournamentResult(w, code, winner, coinX, now);
            Champions(w'.outbox) <= Champions(w.outbox) + 1
            && (Champions(w'.outbox) == Champions(w.outbox) + 1 ==>
                  Undecided(w, code)
                  && var tc := w.rooms[code].tournamentId.value;
                     w.tournaments[tc].status != Completed && tc in w'.tournaments && w'.tournaments[tc].status == Completed)
  {
    if !Undecided(w, code) {
      ResultIgnored(w, code, winner, coinX, now);
    } else if ResultSeat(w.rooms[code], winner, coinX).None? {
      ResultUnseated(w, code, winner, coinX, now);
    } else {
      ResultApplied(w, code, winner, coinX, now);
      ApplyChampion(w, code, winner, coinX, now);
    }
  }

  lemma ApplyChampion(w: World, code: Code, winner: Option<Sym>, coinX: bool, now: int)
    requires code in w.rooms && Undecided(w, code) && ResultSeat(w.rooms[code], winner, coinX).Some?
    ensures var w' := ApplyDecision(w, code, winner, coinX, now); var tc := w.rooms[code].tournamentId.value;
            Champions(w'.outbox) <= Champions(w.outbox) + 1
            && (Champions(w'.outbox) == Champions(w.outbox) + 1 ==>
                  w.tournaments[tc].status != Completed && tc in w'.tournaments && w'.tournaments[tc].status == Completed)
  {
    var r := w.rooms[code];
    var tc := r.tournamentId.value;
    var wd := Decided(w, code, winner, coinX, now);
    DecidedSpec(w, code, winner, coinX, now);
    if winner.None? {
      NoteOnly(w.outbox, Sent(Members(w.joined, r.code), ChatMsg(System, CoinFlipText + ResultSeat(r, winner, coinX).value.name, now)));
    }
    BracketChampion(wd, tc);
  }

  /** The world just after the fourth player joined: valid except that lobby `tc` is full while still waiting. */
  predicate FullLobby(w: World, tc: Code)
  {
    UsersOk(w.socketUser, w.users) && RoomsOk(w.rooms) && LinksOk(w.rooms, w.tournaments)
    && SpawnsOk(w.finalSpawns, w.tournaments) && RoutesOk(w.socketRoom, w.userRoom)
    && TimersOk(w.timers, w.disconnectTimeouts, w.nextTimer)
    && (forall c :: c in w.tournaments && c != tc ==> TournamentOk(c, w.tournaments[c]))
    && tc in w.tournaments && tc != "" && w.tournaments[tc].code == tc
    && |w.tournaments[tc].players| == 4 && w.tournaments[tc].status == TWaiting
  }

  /**
    Starting a lobby of four keeps the state well formed: the lobby itself
    is the one tournament not yet well formed, since it has four players and
    is still waiting.
  */
  lemma StartValid(w: World, tc: Code, swaps: seq<(nat, nat)>)
    requires FullLobby(w, tc)
    ensures Valid(StartTournament(w, tc, swaps)) && StatusesAdvance(w, StartTournament(w, tc, swaps))
  {
    var t := w.tournaments[tc];
    var t1 := t.(status := Semifinals, players := Shuffle(t.players, swaps), matches := Opening);
    assert TournamentOk(tc, t1);
    LinksAdvance(w.rooms, w.tournaments, tc, t1);
    SpawnsAdvance(w.finalSpawns, w.tournaments, tc, t1);
    var w1 := w.(tournaments := w.tournaments[tc := t1]);
    var w2 := ToRoom(w1, t1.code, TournamentStart(t1.matches, Names(t1.players)));
    assert Valid(w2);
    MatchRoomValid(w2, tc, 0);
    MatchRoomFrame(w2, tc, 0);
    var w3 := CreateMatchRoom(w2, tc, 0);
    MatchRoomValid(w3, tc, 1);
    StartedBracket(w, tc, swaps);
  }

  lemma CreateTournamentValid(w: World, sid: SocketId, draws: nat -> nat)
    requires Valid(w) && EventuallyFree(w.tournaments.Keys, draws)
    ensures Valid(CreateTournament(w, sid, draws)) && StatusesAdvance(w, CreateTournament(w, sid, draws))
  {
    if Authed(w, sid).None? {
      CreateTournamentRefuses(w, sid, draws);
      EmitValid(w, {sid}, Error(NotAuthenticated));
    } else if Authed(w, sid).value !in w.users {
      CreateTournamentCrashes(w, sid, draws);
      LeavePreservesValid(w, sid);
    } else {
      CreateTournamentOpens(w, sid, draws);
      LobbyOpensValid(w, sid, draws);
    }
  }

  lemma LobbyOpensValid(w: World, sid: SocketId, draws: nat -> nat)
    requires Valid(w) && EventuallyFree(w.tournaments.Keys, draws) && Authed(w, sid).Some? && Authed(w, sid).value in w.users
    ensures var key := Authed(w, sid).value; var w1 := LeaveCurrentRoom(w, sid);
            var tc := Candidate(draws, FirstFree(w.tournaments.Keys, draws));
            var t := Tournament(tc, [TPlayer(sid, key, w.users[key].displayName)], [], TWaiting);
            var w' := w1.(tournaments := w.tournaments[tc := t], socketRoom := w1.socketRoom[sid := tc], joined := w1.joined + {(sid, tc)},
                          outbox := w1.outbox + [Sent({sid}, TournamentCreated(tc)), Sent({sid}, TournamentLobby(t.players, TWaiting))]);
            Valid(w') && StatusesAdvance(w, w')
  {
    var key := Authed(w, sid).value;
    LeavePreservesValid(w, sid);
    var w1 := LeaveCurrentRoom(w, sid);
    assert w1.tournaments == w.tournaments && w1.users == w.users;
    var tc := Candidate(draws, FirstFree(w.tournaments.Keys, draws));
    var t := Tournament(tc, [TPlayer(sid, key, w.users[key].displayName)], [], TWaiting);
    assert TournamentOk(tc, t);
    LobbyRouteValid(w1, sid, tc, t);
    var w2 := w1.(tournaments := w.tournaments[tc := t], socketRoom := w1.socketRoom[sid := tc], joined := w1.joined + {(sid, tc)});
    EmitValid(w2, {sid}, TournamentCreated(tc));
    EmitValid(Emit(w2, {sid}, TournamentCreated(tc)), {sid}, TournamentLobby(t.players, TWaiting));
  }

  /** Storing a new waiting lobby and routing its creator to it keeps the state valid. */
  lemma LobbyRouteValid(w: World, sid: SocketId, tc: Code, t: Tournament)
    requires Valid(w) && TournamentOk(tc, t) && tc !in w.tournaments
    ensures var w' := w.(tournaments := w.tournaments[tc := t], socketRoom := w.socketRoom[sid := tc], joined := w.joined + {(sid, tc)});
            Valid(w') && StatusesAdvance(w, w')
  {
    LinksAdvance(w.rooms, w.tournaments, tc, t);
    SpawnsAdvance(w.finalSpawns, w.tournaments, tc, t);
  }

  lemma EnterLobbyValid(w: World, sid: SocketId, key: Key, tc: Code, swaps: seq<(nat, nat)>)
    requires Valid(w) && tc in w.tournaments && w.tournaments[tc].status == TWaiting && |w.tournaments[tc].players| < 4
    ensures Valid(EnterLobby(w, sid, key, tc, swaps)) && StatusesAdvance(w, EnterLobby(w, sid, key, tc, swaps))
  {
    LeavePreservesValid(w, sid);
    var w1 := LeaveCurrentRoom(w, sid);
    if key !in w1.users {
      assert EnterLobby(w, sid, key, tc, swaps) == Crash(w1);
    } else {
      EnrolValid(w1, sid, key, tc);
      EnrolSpec(w1, sid, key, tc);
      var w3 := Enrol(w1, sid, key, tc);
      if |w3.tournaments[tc].players| == 4 {
        StartValid(w3, tc, swaps);
        assert EnterLobby(w, sid, key, tc, swaps) == StartTournament(w3, tc, swaps);
      } else {
        assert EnterLobby(w, sid, key, tc, swaps) == w3;
      }
    }
  }

  lemma JoinTournamentValid(w: World, sid: SocketId, codeArg: Option<string>, swaps: seq<(nat, nat)>)
    requires Valid(w)
    ensures Valid(JoinTournament(w, sid, codeArg, swaps)) && StatusesAdvance(w, JoinTournament(w, sid, codeArg, swaps))
  {
    if Authed(w, sid).None? {
      assert JoinTournament(w, sid, codeArg, swaps) == ToSocket(w, sid, Error(NotAuthenticated));
      EmitValid(w, {sid}, Error(NotAuthenticated));
    } else if codeArg.None? {
      assert JoinTournament(w, sid, codeArg, swaps) == Crash(w);
    } else if LobbyOpen(w, JoinCode(codeArg.value)) {
      JoinTournamentEnters(w, sid, codeArg, swaps);
      EnterLobbyValid(w, sid, Authed(w, sid).value, JoinCode(codeArg.value), swaps);
    } else {
      JoinTournamentTurnedAway(w, sid, codeArg, swaps);
      EmitValid(w, {sid}, Error(LobbyRefusal(w, JoinCode(codeArg.value))));
    }
  }

  lemma FireFinalSpawnValid(w: World, i: nat)
    requires Valid(w) && i < |w.finalSpawns|
    ensures w.finalSpawns[i] in w.tournaments
    ensures Valid(FireFinalSpawn(w, i)) && StatusesAdvance(w, FireFinalSpawn(w, i))
  {
    var tc := w.finalSpawns[i];
    var w1 := w.(finalSpawns := RemoveAt(w.finalSpawns, i));
    assert TournamentOk(tc, w.tournaments[tc]);
    assert SpawnsOk(w1.finalSpawns, w1.tournaments);
    MatchRoomValid(w1, tc, 2);
    MatchRoomFrame(w1, tc, 2);
  }

  /** The fired spawn leaves the pending list, and the tournaments are untouched. */
  lemma FinalSpawnFired(w: World, i: nat)
    requires i < |w.finalSpawns| && w.finalSpawns[i] in w.tournaments
    ensures FireFinalSpawn(w, i).finalSpawns == RemoveAt(w.finalSpawns, i)
    ensures FireFinalSpawn(w, i).tournaments == w.tournaments
  {
    MatchRoomFrame(w.(finalSpawns := RemoveAt(w.finalSpawns, i)), w.finalSpawns[i], 2);
  }
}
