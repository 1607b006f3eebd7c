/**
  The helpers shared by the socket handlers (tictactoe/socket/utils.js):
  leaving the current room, the delayed removal of a disconnected player, and
  chat-text sanitising.
*/
module SocketUtils {
  import opened Wrappers
  import opened JsStrings
  import opened GameLogic
  import opened Entities
  import opened State

  /** Everything but the rooms, the routes to them, the channels and the log is left alone. */
  predicate SeatFrame(w: World, w': World)
  {
    w' == w.(rooms := w'.rooms, socketRoom := w'.socketRoom, userRoom := w'.userRoom, joined := w'.joined,
             outbox := w'.outbox)
  }

  /** What lines 13-25 do to the room map: the seat goes, and an emptied room with it. */
  function SeatRooms(rooms: map<Code, Room>, sid: SocketId, code: Code): (m: map<Code, Room>)
    requires code in rooms
    ensures m.Keys <= rooms.Keys
    ensures forall c :: c in rooms && c != code ==> c in m && m[c] == rooms[c]
    ensures FindBySocket(rooms[code].players, sid) == -1 ==> m == rooms
  {
    var room := rooms[code];
    var idx := FindBySocket(room.players, sid);
    if idx == -1 then rooms
    else
      var rest := RemoveAt(room.players, idx);
      if |rest| == 0 then rooms - {code}
      else rooms[code := room.(players := rest, status := Waiting, rematchVotes := {})]
  }

  /** The room part of `leaveCurrentRoom` (lines 10-26), for a socket whose code names a room. */
  function LeaveSeat(w: World, sid: SocketId, code: Code): (w': World)
    requires code in w.rooms
    ensures w' == w.(userRoom := w'.userRoom, joined := w'.joined, rooms := w'.rooms, outbox := w'.outbox)
    ensures w'.rooms == SeatRooms(w.rooms, sid, code)
    ensures w'.userRoom.Keys <= w.userRoom.Keys
    ensures forall k :: k in w'.userRoom ==> w'.userRoom[k] == w.userRoom[k]
  {
    var room := w.rooms[code];
    var idx := FindBySocket(room.players, sid);
    if idx == -1 then w
    else
      var p := room.players[idx];
      var w1 := w.(userRoom := if p.key != "" then w.userRoom - {p.key} else w.userRoom,
                   joined := w.joined - {(sid, code)}, rooms := SeatRooms(w.rooms, sid, code));
      if |RemoveAt(room.players, idx)| == 0 then w1
      else ToOthers(w1, sid, code, OpponentLeft)
  }

  /**
    `leaveCurrentRoom(socket)`: gives up the socket's seat in the room its
    `socketRoom` entry names, then forgets the entry. A code that is not a
    room (a tournament's) only loses the entry.
  */
  function LeaveCurrentRoom(w: World, sid: SocketId): (w': World)
    ensures sid in w.socketRoom && w.socketRoom[sid] != "" ==> w'.socketRoom == w.socketRoom - {sid}
    ensures sid !in w.socketRoom || w.socketRoom[sid] == "" ==> w' == w
    ensures w'.rooms.Keys <= w.rooms.Keys
    ensures SeatFrame(w, w')
  {
    match Get(w.socketRoom, sid)
    case None => w
    case Some(code) =>
      if code == "" then w
      else
        var w1 := if code in w.rooms then LeaveSeat(w, sid, code) else w;
        w1.(socketRoom := w1.socketRoom - {sid})
  }

  /** Afterwards the socket has no `socketRoom` entry and the leaver's key no `userRoom` entry. */
  lemma LeaveForgetsSocket(w: World, sid: SocketId)
    requires RoutesOk(w.socketRoom, w.userRoom)
    ensures sid !in LeaveCurrentRoom(w, sid).socketRoom
    ensures sid in w.socketRoom && w.socketRoom[sid] in w.rooms ==>
              var ps := w.rooms[w.socketRoom[sid]].players; var idx := FindBySocket(ps, sid);
              idx >= 0 && ps[idx].key != "" ==> ps[idx].key !in LeaveCurrentRoom(w, sid).userRoom
  {
    if sid in w.socketRoom {
      var code := w.socketRoom[sid];
      assert code != "";
      if code in w.rooms {
        var w1 := LeaveSeat(w, sid, code);
        assert LeaveCurrentRoom(w, sid) == w1.(socketRoom := w1.socketRoom - {sid});
      }
    }
  }

  /** Leaving removes exactly the caller's seat: the other seats keep their order and contents. */
  lemma LeaveRemovesOnlyOwnSeat(w: World, sid: SocketId)
    requires RoutesOk(w.socketRoom, w.userRoom) && sid in w.socketRoom && w.socketRoom[sid] in w.rooms
    ensures var code := w.socketRoom[sid]; var ps := w.rooms[code].players; var idx := FindBySocket(ps, sid);
            var w' := LeaveCurrentRoom(w, sid);
            idx >= 0 && |ps| > 1 ==>
              code in w'.rooms && w'.rooms[code].players == RemoveAt(ps, idx)
              && w'.rooms[code].status == Waiting && w'.rooms[code].rematchVotes == {}
              && w'.rooms[code].board == w.rooms[code].board
              && w'.rooms[code].scores == w.rooms[code].scores
  {
  }

  /** The last player out deletes the room. */
  lemma LastLeaverDeletesRoom(w: World, sid: SocketId)
    requires RoutesOk(w.socketRoom, w.userRoom) && sid in w.socketRoom && w.socketRoom[sid] in w.rooms
    requires |w.rooms[w.socketRoom[sid]].players| == 1 && w.rooms[w.socketRoom[sid]].players[0].socketId == sid
    ensures w.socketRoom[sid] !in LeaveCurrentRoom(w, sid).rooms
  {
  }

  /** Calling `leaveCurrentRoom` twice is calling it once: the second call finds no entry. */
  lemma {:induction false} LeaveIdempotent(w: World, sid: SocketId)
    requires RoutesOk(w.socketRoom, w.userRoom)
    ensures LeaveCurrentRoom(LeaveCurrentRoom(w, sid), sid) == LeaveCurrentRoom(w, sid)
  {
    LeaveForgetsSocket(w, sid);
  }

  /**
    A socket whose code is a tournament's, not a room's, only loses its
    `socketRoom` entry: its place in `t.players` is kept.
  */
  lemma LeaveFromTournament(w: World, sid: SocketId)
    requires sid in w.socketRoom && w.socketRoom[sid] != "" && w.socketRoom[sid] !in w.rooms
    ensures LeaveCurrentRoom(w, sid) == w.(socketRoom := w.socketRoom - {sid})
  {
  }

  /** A room the socket holds no seat in comes out of the leave unchanged. */
  lemma LeaveKeepsOtherRoom(w: World, sid: SocketId, c: Code)
    requires c in w.rooms
    requires sid in w.socketRoom && w.socketRoom[sid] == c ==> FindBySocket(w.rooms[c].players, sid) == -1
    ensures c in LeaveCurrentRoom(w, sid).rooms && LeaveCurrentRoom(w, sid).rooms[c] == w.rooms[c]
  {
    if sid in w.socketRoom && w.socketRoom[sid] != "" {
      var code := w.socketRoom[sid];
      if code in w.rooms {
        assert LeaveCurrentRoom(w, sid).rooms == SeatRooms(w.rooms, sid, code);
      }
    }
  }

  /** Giving up a seat keeps every stored room well formed and its tournament link valid. */
  lemma SeatRoomsValid(rooms: map<Code, Room>, ts: map<Code, Tournament>, sid: SocketId, code: Code)
    requires code in rooms && RoomsOk(rooms) && LinksOk(rooms, ts)
    ensures RoomsOk(SeatRooms(rooms, sid, code)) && LinksOk(SeatRooms(rooms, sid, code), ts)
  {
    var room := rooms[code];
    var idx := FindBySocket(room.players, sid);
    if idx != -1 {
      var rest := RemoveAt(room.players, idx);
      if |rest| == 0 {
        RoomsDrop(rooms, ts, code);
      } else {
        var r := room.(players := rest, status := Waiting, rematchVotes := {});
        assert RoomOk(code, room) && LinkOk(ts, room);
        RoomsPut(rooms, code, r);
        LinksPut(rooms, ts, code, r);
      }
    }
  }

  lemma SeatPreservesValid(w: World, sid: SocketId, code: Code)
    requires Valid(w) && code in w.rooms
    ensures Valid(LeaveSeat(w, sid, code))
  {
    SeatRoomsValid(w.rooms, w.tournaments, sid, code);
  }

  lemma LeavePreservesValid(w: World, sid: SocketId)
    requires Valid(w)
    ensures Valid(LeaveCurrentRoom(w, sid))
  {
    if sid in w.socketRoom && w.socketRoom[sid] != "" {
      var code := w.socketRoom[sid];
      var w1 := if code in w.rooms then LeaveSeat(w, sid, code) else w;
      if code in w.rooms {
        SeatPreservesValid(w, sid, code);
      }
      ForgetSocketValid(w1, sid, "");
      assert LeaveCurrentRoom(w, sid) == w1.(socketRoom := w1.socketRoom - {sid});
    }
  }

  /**
    `handlePlayerLeave(code, key)`, run when a grace timer expires: the key's
    seat goes, with its `userRoom` and `disconnectTimeouts` entries; the last
    seat's departure deletes the room, otherwise the room goes back to waiting.
  */
  function HandlePlayerLeave(w: World, code: Code, key: Key): (w': World)
    ensures code !in w.rooms || FindByKey(w.rooms[code].players, key) == -1 ==> w' == w
    ensures code in w.rooms && FindByKey(w.rooms[code].players, key) >= 0 ==>
              var ps := w.rooms[code].players; var rest := RemoveAt(ps, FindByKey(ps, key));
              w'.userRoom == w.userRoom - {key} && w'.disconnectTimeouts == w.disconnectTimeouts - {key}
              && (rest == [] ==> w'.rooms == w.rooms - {code} && w'.outbox == w.outbox)
              && (rest != [] ==> w'.rooms == w.rooms[code := w.rooms[code].(players := rest, status := Waiting, rematchVotes := {})]
                                 && w'.outbox == w.outbox + [Sent(Members(w.joined, code), OpponentLeft)])
    ensures w' == w.(rooms := w'.rooms, userRoom := w'.userRoom, disconnectTimeouts := w'.disconnectTimeouts,
                     outbox := w'.outbox)
  {
    if code !in w.rooms then w
    else
      var room := w.rooms[code];
      var idx := FindByKey(room.players, key);
      if idx == -1 then w
      else
        var rest := RemoveAt(room.players, idx);
        var w1 := w.(userRoom := w.userRoom - {key}, disconnectTimeouts := w.disconnectTimeouts - {key});
        if |rest| == 0 then w1.(rooms := w1.rooms - {code})
        else
          var w2 := w1.(rooms := w1.rooms[code := room.(players := rest, status := Waiting, rematchVotes := {})]);
          ToRoom(w2, code, OpponentLeft)
  }

  lemma PlayerLeavePreservesValid(w: World, code: Code, key: Key)
    requires Valid(w)
    ensures Valid(HandlePlayerLeave(w, code, key))
  {
    if code in w.rooms && FindByKey(w.rooms[code].players, key) != -1 {
      var room := w.rooms[code];
      var rest := RemoveAt(room.players, FindByKey(room.players, key));
      var w1 := w.(userRoom := w.userRoom - {key}, disconnectTimeouts := w.disconnectTimeouts - {key});
      ForgetUserValid(w, key);
      if |rest| == 0 {
        RoomDropValid(w1, code);
      } else {
        var r := room.(players := rest, status := Waiting, rematchVotes := {});
        assert RoomOk(code, room) && LinkOk(w.tournaments, room);
        RoomPutValid(w1, code, r);
        EmitValid(w1.(rooms := w1.rooms[code := r]), Members(w.joined, code), OpponentLeft);
      }
    }
  }

  // ---------------------------------------------------------------- sanitize

  /** `replace(/[<>]/g, '')`. */
  function RemoveAngles(s: string): (r: string)
    ensures |r| <= |s|
    ensures forall i :: 0 <= i < |r| ==> r[i] != '<' && r[i] != '>'
    ensures (forall i :: 0 <= i < |s| ==> s[i] != '<' && s[i] != '>') ==> r == s
  {
    if s == [] then []
    else (if s[0] == '<' || s[0] == '>' then [] else [s[0]]) + RemoveAngles(s[1..])
  }

  /**
    `slice(0, n)` counted in UTF-16 code units, cutting only between
    characters: the longest prefix of whole characters within `n` units. Where
    JavaScript cuts through a surrogate pair and keeps its high half, this
    drops the whole character, since a `char` cannot hold a lone surrogate.
  */
  function SliceUnits(s: string, n: nat): (r: string)
    ensures |r| <= |s| && r == s[..|r|]
    ensures JsLength(r) <= n
    ensures r == s || JsLength(r) + Utf16Width(s[|r|]) > n
  {
    if s == [] || Utf16Width(s[0]) > n then []
    else
      var rest := SliceUnits(s[1..], n - Utf16Width(s[0]));
      assert ([s[0]] + rest)[1..] == rest;
      [s[0]] + rest
  }

  const MaxChat: nat := 120

  /** `sanitize(text)`: falsy gives `''`; otherwise trim, strip `<` and `>`, and cut to 120 units between characters. */
  function Sanitize(text: string): (r: string)
    ensures JsLength(r) <= MaxChat
    ensures forall i :: 0 <= i < |r| ==> r[i] != '<' && r[i] != '>'
    ensures text == [] ==> r == []
    ensures text != [] ==> r == SliceUnits(RemoveAngles(Trim(text)), MaxChat)
  {
    if text == [] then []
    else SliceUnits(RemoveAngles(Trim(text)), MaxChat)
  }

  /** Trimmed text of at most 120 units without angle brackets is broadcast exactly as typed. */
  lemma SanitizeKeepsPlainText(text: string)
    requires Trim(text) == text
    requires forall i :: 0 <= i < |text| ==> text[i] != '<' && text[i] != '>'
    requires JsLength(text) <= MaxChat
    ensures Sanitize(text) == text
  {
    if text != [] {
      assert RemoveAngles(text) == text;
      SliceAll(text, MaxChat);
    }
  }

  lemma {:induction false} SliceAll(s: string, n: nat)
    requires JsLength(s) <= n
    ensures SliceUnits(s, n) == s
  {
    if s != [] {
      assert JsLength(s) == Utf16Width(s[0]) + JsLength(s[1..]);
      var m := n - Utf16Width(s[0]);
      SliceAll(s[1..], m);
      assert SliceUnits(s, n) == [s[0]] + SliceUnits(s[1..], m);
    }
  }
}
