/**
  The records the server keeps in its maps: user accounts, rooms with their
  seated players, and tournaments with their bracket. Each is a value; the
  handlers that change one in place write the updated value back into its map.
*/
module Entities {
  import opened Wrappers
  import opened GameLogic

  type SocketId = string
  type Key = string
  type Code = string
  type Token = string

  /** A user record of `users` (the password hash and creation time are not modelled). */
  datatype User = User(displayName: string, wins: nat, losses: nat, draws: nat)

  /** One seat of a room. */
  datatype Player = Player(socketId: SocketId, key: Key, name: string, symbol: Sym)

  datatype RoomStatus = Waiting | Playing | Done

  /** `scores: { X, O, D }`. */
  datatype Scores = Scores(x: nat, o: nat, d: nat)

  const ZeroScores := Scores(0, 0, 0)

  /**
    A room of `rooms`. `rematchVotes` is the vote `Set`; a deleted set and an
    empty one behave alike, since `game:rematch` recreates a missing set
    before adding to it. `tournamentId` and `matchId` are present on match rooms only.
  */
  datatype Room = Room(
    code: Code,
    players: seq<Player>,
    board: Board,
    currentTurn: Sym,
    status: RoomStatus,
    scores: Scores,
    rematchVotes: set<SocketId>,
    tournamentId: Option<Code>,
    matchId: Option<nat>)

  /** One entry of `t.players`. */
  datatype TPlayer = TPlayer(socketId: SocketId, key: Key, name: string)

  datatype TStatus = TWaiting | Semifinals | Final | Completed

  /** A bracket match; the slots and the winner are indexes into `t.players`, `null` being `None`. */
  datatype Match = Match(id: nat, p1: Option<int>, p2: Option<int>, winner: Option<int>)

  datatype Tournament = Tournament(code: Code, players: seq<TPlayer>, matches: seq<Match>, status: TStatus)

  /** `{ name, symbol }`, the per-player part of `game:start` and `game:rejoin`. */
  datatype PlayerView = PlayerView(name: string, symbol: Sym)

  function Views(ps: seq<Player>): (vs: seq<PlayerView>)
    ensures |vs| == |ps|
    ensures forall i :: 0 <= i < |ps| ==> vs[i] == PlayerView(ps[i].name, ps[i].symbol)
  {
    if ps == [] then [] else [PlayerView(ps[0].name, ps[0].symbol)] + Views(ps[1..])
  }

  /** `players.findIndex(p => p.socketId === sid)`. */
  function FindBySocket(ps: seq<Player>, sid: SocketId): (i: int)
    ensures -1 <= i < |ps|
    ensures i >= 0 ==> ps[i].socketId == sid && forall j :: 0 <= j < i ==> ps[j].socketId != sid
    ensures i == -1 <==> forall j :: 0 <= j < |ps| ==> ps[j].socketId != sid
  {
    if ps == [] then -1
    else if ps[0].socketId == sid then 0
    else var i := FindBySocket(ps[1..], sid); if i == -1 then -1 else i + 1
  }

  /** `players.findIndex(p => p.key === key)`. */
  function FindByKey(ps: seq<Player>, key: Key): (i: int)
    ensures -1 <= i < |ps|
    ensures i >= 0 ==> ps[i].key == key && forall j :: 0 <= j < i ==> ps[j].key != key
    ensures i == -1 <==> forall j :: 0 <= j < |ps| ==> ps[j].key != key
  {
    if ps == [] then -1
    else if ps[0].key == key then 0
    else var i := FindByKey(ps[1..], key); if i == -1 then -1 else i + 1
  }

  /** Index of the first seat holding `s`, or -1. */
  function SymbolIndex(ps: seq<Player>, s: Sym): (i: int)
    ensures -1 <= i < |ps|
    ensures i >= 0 ==> ps[i].symbol == s && forall j :: 0 <= j < i ==> ps[j].symbol != s
    ensures i == -1 <==> forall j :: 0 <= j < |ps| ==> ps[j].symbol != s
  {
    if ps == [] then -1
    else if ps[0].symbol == s then 0
    else var i := SymbolIndex(ps[1..], s); if i == -1 then -1 else i + 1
  }

  /** Index of the first seat not holding `s`, or -1. */
  function OtherSymbolIndex(ps: seq<Player>, s: Sym): (i: int)
    ensures -1 <= i < |ps|
    ensures i >= 0 ==> ps[i].symbol != s && forall j :: 0 <= j < i ==> ps[j].symbol == s
    ensures i == -1 <==> forall j :: 0 <= j < |ps| ==> ps[j].symbol == s
  {
    if ps == [] then -1
    else if ps[0].symbol != s then 0
    else var i := OtherSymbolIndex(ps[1..], s); if i == -1 then -1 else i + 1
  }

  /** `players.find(p => p.symbol === s)`. */
  function FindBySymbol(ps: seq<Player>, s: Sym): (r: Option<Player>)
    ensures r.Some? ==> r.value in ps && r.value.symbol == s
    ensures r.Some? ==> exists i :: 0 <= i < |ps| && ps[i] == r.value && forall j :: 0 <= j < i ==> ps[j].symbol != s
    ensures r.None? <==> forall j :: 0 <= j < |ps| ==> ps[j].symbol != s
  {
    var i := SymbolIndex(ps, s);
    if i == -1 then None else Some(ps[i])
  }

  /** `players.find(p => p.symbol !== s)`. */
  function FindNotSymbol(ps: seq<Player>, s: Sym): (r: Option<Player>)
    ensures r.Some? ==> r.value in ps && r.value.symbol != s
    ensures r.Some? ==> exists i :: 0 <= i < |ps| && ps[i] == r.value && forall j :: 0 <= j < i ==> ps[j].symbol == s
    ensures r.None? <==> forall j :: 0 <= j < |ps| ==> ps[j].symbol == s
  {
    var i := OtherSymbolIndex(ps, s);
    if i == -1 then None else Some(ps[i])
  }

  /** `t.players.findIndex(p => p.key === key)`. */
  function TFindByKey(ps: seq<TPlayer>, key: Key): (i: int)
    ensures -1 <= i < |ps|
    ensures i >= 0 ==> ps[i].key == key && forall j :: 0 <= j < i ==> ps[j].key != key
    ensures i == -1 <==> forall j :: 0 <= j < |ps| ==> ps[j].key != key
  {
    if ps == [] then -1
    else if ps[0].key == key then 0
    else var i := TFindByKey(ps[1..], key); if i == -1 then -1 else i + 1
  }

  /** `splice(i, 1)`. */
  function RemoveAt<T>(s: seq<T>, i: nat): (r: seq<T>)
    requires i < |s|
    ensures |r| == |s| - 1
    ensures forall j :: 0 <= j < i ==> r[j] == s[j]
    ensures forall j :: i <= j < |r| ==> r[j] == s[j + 1]
  {
    s[..i] + s[i + 1..]
  }

  /** How many seats of `ps` belong to `key`. */
  function SeatsOf(ps: seq<Player>, key: Key): nat
  {
    if ps == [] then 0 else (if ps[0].key == key then 1 else 0) + SeatsOf(ps[1..], key)
  }

  /** Removing seat `i` takes exactly that seat out of the count of its key. */
  lemma {:induction false} SeatsOfRemove(ps: seq<Player>, i: nat, key: Key)
    requires i < |ps|
    ensures SeatsOf(RemoveAt(ps, i), key) + (if ps[i].key == key then 1 else 0) == SeatsOf(ps, key)
  {
    if i == 0 {
      assert RemoveAt(ps, 0) == ps[1..];
    } else {
      var rest := RemoveAt(ps[1..], i - 1);
      assert RemoveAt(ps, i) == [ps[0]] + rest;
      assert ([ps[0]] + rest)[1..] == rest;
      SeatsOfRemove(ps[1..], i - 1, key);
    }
  }

  /** A key `findIndex` finds holds at least one seat. */
  lemma {:induction false} FoundKeyIsSeated(ps: seq<Player>, key: Key)
    requires FindByKey(ps, key) >= 0
    ensures SeatsOf(ps, key) > 0
  {
    if ps[0].key != key {
      FoundKeyIsSeated(ps[1..], key);
    }
  }
}
