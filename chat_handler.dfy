/**
  The `chat:msg` event of tictactoe/socket/handlers/chat.js: guard checks on
  the sender and the text, then at most one broadcast of the sanitised text
  to the named channel. It changes no state of its own.
*/
module ChatHandler {
  import opened Wrappers
  import opened JsStrings
  import opened Entities
  import opened State
  import opened SocketUtils

  /** Nothing is sent, one message goes to channel `code`, or `users[key].displayName` throws. */
  datatype ChatOutcome = Silent | Broadcast(code: Code, msg: Msg) | ChatCrash

  predicate IsAngle(c: char)
  {
    c == '<' || c == '>'
  }

  /**
    `chat:msg`: text that is not a string (`None`), a sender without a
    session, text that is only white space, and text that sanitising empties
    are all dropped; otherwise the sender's display name and the sanitised
    text, stamped with `now`, go to everyone in `code`. A session key with no
    user record makes the display-name lookup throw.
  */
  function ChatMessage(w: World, sid: SocketId, code: Code, text: Option<string>, now: int): (o: ChatOutcome)
    ensures o.Broadcast? <==>
              text.Some? && Authed(w, sid).Some? && Trim(text.value) != [] && Sanitize(text.value) != []
              && Authed(w, sid).value in w.users
    ensures o.Broadcast? ==>
              o.code == code
              && o.msg == ChatMsg(w.users[Authed(w, sid).value].displayName, Sanitize(text.value), now)
    ensures o == ChatCrash <==>
              text.Some? && Authed(w, sid).Some? && Trim(text.value) != [] && Sanitize(text.value) != []
              && Authed(w, sid).value !in w.users
  {
    if text.None? then Silent
    else if Authed(w, sid).None? || Trim(text.value) == [] then Silent
    else
      var clean := Sanitize(text.value);
      if clean == [] then Silent
      else
        var key := Authed(w, sid).value;
        if key !in w.users then ChatCrash
        else Broadcast(code, ChatMsg(w.users[key].displayName, clean, now))
  }

  /** The server applies the outcome: one emit to the channel, or the process dies. */
  function Chat(w: World, sid: SocketId, code: Code, text: Option<string>, now: int): (w': World)
    ensures ChatMessage(w, sid, code, text, now).Silent? ==> w' == w
    ensures ChatMessage(w, sid, code, text, now).Broadcast? ==>
              w' == w.(outbox := w.outbox + [Sent(Members(w.joined, code), ChatMessage(w, sid, code, text, now).msg)])
    ensures ChatMessage(w, sid, code, text, now).ChatCrash? ==> w' == Crash(w)
  {
    match ChatMessage(w, sid, code, text, now)
    case Silent => w
    case Broadcast(c, m) => ToRoom(w, c, m)
    case ChatCrash => Crash(w)
  }

  /**
    Every connected socket sits in the channel named by its own id, so a
    message whose `code` is another socket's id reaches that socket.
  */
  lemma ChatToSocketId(w: World, sid: SocketId, target: SocketId, text: Option<string>, now: int)
    requires ChatMessage(w, sid, target, text, now).Broadcast?
    ensures var w' := Chat(Connected(w, target), sid, target, text, now);
            |w'.outbox| == |w.outbox| + 1 && target in w'.outbox[|w.outbox|].to
  {
    var w1 := Connected(w, target);
    assert ChatMessage(w1, sid, target, text, now) == ChatMessage(w, sid, target, text, now);
  }

  /** What reaches the channel is free of `<` and `>` and at most 120 UTF-16 units long. */
  lemma BroadcastIsClean(w: World, sid: SocketId, code: Code, text: Option<string>, now: int)
    requires ChatMessage(w, sid, code, text, now).Broadcast?
    ensures var m := ChatMessage(w, sid, code, text, now).msg;
            m.ChatMsg? && m.text != [] && JsLength(m.text) <= MaxChat
            && forall i :: 0 <= i < |m.text| ==> !IsAngle(m.text[i])
  {
  }

  /**
    Sanitising empties trimmed text exactly when every character of it is an
    angle bracket, so for an authenticated sender with a record the message
    goes out if and only if the trimmed text has some other character.
  */
  lemma BroadcastIffVisibleText(w: World, sid: SocketId, code: Code, text: string, now: int)
    requires Authed(w, sid).Some? && Authed(w, sid).value in w.users
    ensures ChatMessage(w, sid, code, Some(text), now).Broadcast?
            <==> exists i :: 0 <= i < |Trim(text)| && !IsAngle(Trim(text)[i])
  {
    var t := Trim(text);
    if exists i :: 0 <= i < |t| && !IsAngle(t[i]) {
      var i :| 0 <= i < |t| && !IsAngle(t[i]);
      KeepsVisible(t, i);
      var s := RemoveAngles(t);
      assert Utf16Width(s[0]) <= MaxChat;
      assert SliceUnits(s, MaxChat) != [];
      assert text != [];
    } else {
      AllAngles(t);
    }
  }

  /** A character other than `<` and `>` survives `RemoveAngles`. */
  lemma {:induction false} KeepsVisible(s: string, i: nat)
    requires i < |s| && !IsAngle(s[i])
    ensures RemoveAngles(s) != []
  {
    if i > 0 && IsAngle(s[0]) {
      KeepsVisible(s[1..], i - 1);
    }
  }

  /** A string of angle brackets only is removed entirely. */
  lemma {:induction false} AllAngles(s: string)
    requires forall i :: 0 <= i < |s| ==> IsAngle(s[i])
    ensures RemoveAngles(s) == []
  {
    if s != [] {
      AllAngles(s[1..]);
    }
  }

  /** The chat event changes nothing but the log, unless it crashes. */
  lemma ChatPreservesValid(w: World, sid: SocketId, code: Code, text: Option<string>, now: int)
    requires Valid(w)
    ensures Valid(Chat(w, sid, code, text, now)) && StatusesAdvance(w, Chat(w, sid, code, text, now))
  {
  }

  /** In a valid world every authenticated sender has a record, so chat never crashes. */
  lemma ChatNeverCrashes(w: World, sid: SocketId, code: Code, text: Option<string>, now: int)
    requires Valid(w)
    ensures !ChatMessage(w, sid, code, text, now).ChatCrash?
  {
  }
}
