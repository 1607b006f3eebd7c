/**
  The server-side helpers of tictactoe/utils.js: the win/draw evaluator used
  by `game:move`, the retrying room-code generator, and the registration and
  room-join validators.
*/
module Utils {
  import opened Wrappers
  import opened JsStrings
  import opened GameLogic
  import opened Entities

  // ---------------------------------------------------------------- checkWinner

  /** `{ winner, line }` or `{ draw: true, winner: null }`. */
  datatype Outcome = Win(winner: Sym, line: Line) | Draw

  /** `board[a] && board[a] === board[b] && board[a] === board[c]`. */
  predicate Complete(b: Board, l: Line)
  {
    b[l.0] != Empty && b[l.0] == b[l.1] && b[l.0] == b[l.2]
  }

  function FirstComplete(b: Board, k: nat): (r: Option<nat>)
    requires k <= |Wins|
    ensures r.Some? ==> k <= r.value < |Wins| && Complete(b, Wins[r.value])
                        && forall j :: k <= j < r.value ==> !Complete(b, Wins[j])
    ensures r.None? ==> forall j :: k <= j < |Wins| ==> !Complete(b, Wins[j])
    decreases |Wins| - k
  {
    if k == |Wins| then None
    else if Complete(b, Wins[k]) then Some(k)
    else FirstComplete(b, k + 1)
  }

  /**
    `checkWinner(board)`: the first line of `WINS`, in order, whose three cells
    hold the same symbol wins, even on a full board; failing that, a full
    board is a draw and any other board has no result.
  */
  function CheckWinner(b: Board): (r: Option<Outcome>)
    ensures r.Some? && r.value.Win? ==>
              exists j :: 0 <= j < |Wins| && r.value.line == Wins[j] && Complete(b, Wins[j])
                          && b[Wins[j].0] == Mark(r.value.winner)
                          && forall i :: 0 <= i < j ==> !Complete(b, Wins[i])
    ensures r == Some(Draw) <==> Full(b) && forall j :: 0 <= j < |Wins| ==> !Complete(b, Wins[j])
    ensures r == None <==> !Full(b) && forall j :: 0 <= j < |Wins| ==> !Complete(b, Wins[j])
  {
    match FirstComplete(b, 0)
    case Some(j) => Some(Win(b[Wins[j].0].sym, Wins[j]))
    case None => if Full(b) then Some(Draw) else None
  }

  /**
    The server's evaluator and the AI's agree: the same boards are undecided,
    the same are drawn, and a board where only one player has a line goes to
    that player under both.
  */
  lemma ServerAgreesWithAi(b: Board)
    ensures CheckWinner(b).None? <==> GameLogic.CheckWinner(b).None?
    ensures CheckWinner(b) == Some(Draw) <==> GameLogic.CheckWinner(b) == Some(Tie)
    ensures HasLine(b, X) && !HasLine(b, O) ==> CheckWinner(b).Some? && CheckWinner(b).value == Win(X, CheckWinner(b).value.line)
    ensures HasLine(b, O) && !HasLine(b, X) ==> CheckWinner(b).Some? && CheckWinner(b).value == Win(O, CheckWinner(b).value.line)
  {
    forall j | 0 <= j < |Wins| ensures Complete(b, Wins[j]) <==> Owns(b, X, Wins[j]) || Owns(b, O, Wins[j]) {
      CompleteIsOwned(b, Wins[j]);
    }
  }

  lemma CompleteIsOwned(b: Board, l: Line)
    ensures Complete(b, l) <==> Owns(b, X, l) || Owns(b, O, l)
  {
    if Complete(b, l) {
      var c := b[l.0];
      assert c.Mark?;
      assert c.sym == X || c.sym == O;
      assert c == Mark(c.sym);
    }
  }

  // ---------------------------------------------------------------- generateRoomCode

  const Alphabet: string := "ABCDEFGHJKLMNPQRSTUVWXYZ23456789"

  /**
    The code drawn on attempt `n` when the `i`-th call of `Math.random()`
    picks character `draws(i) % 32`; each attempt makes four calls.
  */
  function Candidate(draws: nat -> nat, n: nat): (c: string)
    ensures |c| == 4
  {
    [Alphabet[draws(4 * n) % 32], Alphabet[draws(4 * n + 1) % 32],
     Alphabet[draws(4 * n + 2) % 32], Alphabet[draws(4 * n + 3) % 32]]
  }

  /** Every code drawn is four characters of the alphabet. */
  lemma CandidateInAlphabet(draws: nat -> nat, n: nat)
    ensures forall k :: 0 <= k < 4 ==> Candidate(draws, n)[k] in Alphabet
  {
  }

  /** The random draws eventually produce a code that is not taken. */
  ghost predicate EventuallyFree(taken: set<Code>, draws: nat -> nat)
  {
    exists n :: Candidate(draws, n) !in taken
  }

  ghost function SomeFree(taken: set<Code>, draws: nat -> nat): (n: nat)
    requires EventuallyFree(taken, draws)
    ensures Candidate(draws, n) !in taken
  {
    var n :| Candidate(draws, n) !in taken; n
  }

  /** The first attempt at or after `k` whose code `attempt` yields is outside `taken`. */
  function FirstOutside(taken: set<Code>, attempt: nat -> Code, ghost bound: nat, k: nat): (n: nat)
    requires attempt(bound) !in taken
    requires forall j :: 0 <= j < k ==> attempt(j) in taken
    ensures k <= n && attempt(n) !in taken
    ensures forall j :: 0 <= j < n ==> attempt(j) in taken
    decreases bound - k
  {
    if attempt(k) !in taken then k
    else FirstOutside(taken, attempt, bound, k + 1)
  }

  /** The attempt on which the do-while loop of `generateRoomCode` stops. */
  function FirstFree(taken: set<Code>, draws: nat -> nat): (n: nat)
    requires EventuallyFree(taken, draws)
    ensures Candidate(draws, n) !in taken
    ensures forall j :: 0 <= j < n ==> Candidate(draws, j) in taken
  {
    var attempt := (j: nat) => Candidate(draws, j);
    var n := FirstOutside(taken, attempt, SomeFree(taken, draws), 0);
    assert attempt(n) == Candidate(draws, n);
    assert forall j :: 0 <= j < n ==> attempt(j) == Candidate(draws, j);
    n
  }

  /**
    `generateRoomCode(map)`: draws four characters, and draws again while the
    code is a key of `taken`. Only the keys given are avoided.
  */
  method GenerateRoomCode(taken: set<Code>, draws: nat -> nat) returns (code: Code)
    requires EventuallyFree(taken, draws)
    ensures code == Candidate(draws, FirstFree(taken, draws))
    ensures code !in taken && |code| == 4 && forall k :: 0 <= k < 4 ==> code[k] in Alphabet
  {
    ghost var bound := SomeFree(taken, draws);
    var n := 0;
    code := Candidate(draws, n);
    while code in taken
      invariant code == Candidate(draws, n)
      invariant Exhausted(taken, draws, n)
      invariant n <= bound
      decreases bound - n
    {
      n := n + 1;
      code := Candidate(draws, n);
      ExhaustedBefore(taken, draws, n, bound);
    }
    FirstFreeIs(taken, draws, n);
    CandidateInAlphabet(draws, n);
  }

  /** Attempts `0 .. n - 1` all drew codes that were already taken. */
  ghost predicate Exhausted(taken: set<Code>, draws: nat -> nat, n: nat)
  {
    n == 0 || (Exhausted(taken, draws, n - 1) && Candidate(draws, n - 1) in taken)
  }

  lemma {:induction false} ExhaustedAll(taken: set<Code>, draws: nat -> nat, n: nat)
    requires Exhausted(taken, draws, n)
    ensures forall j :: 0 <= j < n ==> Candidate(draws, j) in taken
  {
    if n > 0 {
      ExhaustedAll(taken, draws, n - 1);
      forall j | 0 <= j < n
        ensures Candidate(draws, j) in taken
      {
        if j < n - 1 {
          assert Candidate(draws, j) in taken;
        }
      }
    }
  }

  /** A free attempt comes no earlier than the first `n` attempts, all of which failed. */
  lemma {:induction false} ExhaustedBefore(taken: set<Code>, draws: nat -> nat, n: nat, m: nat)
    requires Exhausted(taken, draws, n) && Candidate(draws, m) !in taken
    ensures n <= m
  {
    if n > 0 && m != n - 1 {
      ExhaustedBefore(taken, draws, n - 1, m);
    }
  }

  /** The first attempt whose code is free is the one every earlier attempt failed before. */
  lemma FirstFreeIs(taken: set<Code>, draws: nat -> nat, n: nat)
    requires Candidate(draws, n) !in taken && Exhausted(taken, draws, n)
    ensures EventuallyFree(taken, draws) && n == FirstFree(taken, draws)
  {
    ExhaustedAll(taken, draws, n);
    var m := FirstFree(taken, draws);
    assert !(m < n) && !(n < m);
  }

  // ---------------------------------------------------------------- validateRegistration

  const MissingFields := "Missing fields"
  const UsernameTooShort := "Username too short (min 3 chars)"
  const UsernameTooLong := "Username too long (max 16 chars)"
  const BadUsernameChars := "Letters, numbers, underscores only"
  const PasswordTooShort := "Password min 8 characters"

  datatype Registration = Registered(key: Key) | Rejected(error: string)

  /** `/^[a-z0-9_]+$/` without the non-emptiness, which the length check already gives. */
  predicate KeyChar(c: char)
  {
    ('a' <= c <= 'z') || ('0' <= c <= '9') || c == '_'
  }

  predicate AllKeyChars(k: string)
  {
    forall i :: 0 <= i < |k| ==> KeyChar(k[i])
  }

  /** `!username?.trim() || !password` (`undefined` and `null` are `None`). */
  predicate MissingInput(username: Option<string>, password: Option<string>)
  {
    username.None? || Trim(username.value) == [] || password.None? || password.value == []
  }

  /** The candidate key: trimmed, then lower-cased. */
  function NormalKey(username: string): string
  {
    ToLowerAscii(Trim(username))
  }

  /**
    `validateRegistration(username, password)`. Each error is reported exactly
    when every earlier check passed and its own failed; otherwise the key is
    the trimmed, lower-cased name of 3..16 characters in `[a-z0-9_]`.
  */
  function ValidateRegistration(username: Option<string>, password: Option<string>): (r: Registration)
    ensures r == Rejected(MissingFields) <==> MissingInput(username, password)
    ensures r == Rejected(UsernameTooShort) <==>
              !MissingInput(username, password) && JsLength(NormalKey(username.value)) < 3
    ensures r == Rejected(UsernameTooLong) <==>
              !MissingInput(username, password) && JsLength(NormalKey(username.value)) > 16
    ensures r == Rejected(BadUsernameChars) <==>
              !MissingInput(username, password) && 3 <= JsLength(NormalKey(username.value)) <= 16
              && !AllKeyChars(NormalKey(username.value))
    ensures r == Rejected(PasswordTooShort) <==>
              !MissingInput(username, password) && 3 <= JsLength(NormalKey(username.value)) <= 16
              && AllKeyChars(NormalKey(username.value)) && JsLength(password.value) < 8
    ensures r.Registered? <==>
              !MissingInput(username, password) && 3 <= JsLength(NormalKey(username.value)) <= 16
              && AllKeyChars(NormalKey(username.value)) && JsLength(password.value) >= 8
    ensures r.Registered? ==> r.key == NormalKey(username.value)
  {
    if MissingInput(username, password) then Rejected(MissingFields)
    else
      var key := NormalKey(username.value);
      if JsLength(key) < 3 then Rejected(UsernameTooShort)
      else if JsLength(key) > 16 then Rejected(UsernameTooLong)
      else if !AllKeyChars(key) then Rejected(BadUsernameChars)
      else if JsLength(password.value) < 8 then Rejected(PasswordTooShort)
      else Registered(key)
  }

  // ---------------------------------------------------------------- validateRoomJoin

  const RoomNotFound := "Room not found"
  const GameInProgress := "Game in progress"
  const RoomFull := "Room is full"
  const OwnRoom := "You created this room"

  datatype JoinCheck = JoinOk | JoinError(error: string)

  /**
    `validateRoomJoin(room, socketId)`: not found, then a game in progress,
    then two or more players, then the first seat being the caller's own.
  */
  function ValidateRoomJoin(room: Option<Room>, sid: SocketId): (r: JoinCheck)
    ensures r == JoinError(RoomNotFound) <==> room.None?
    ensures r == JoinError(GameInProgress) <==> room.Some? && room.value.status == Playing
    ensures r == JoinError(RoomFull) <==>
              room.Some? && room.value.status != Playing && |room.value.players| >= 2
    ensures r == JoinError(OwnRoom) <==>
              room.Some? && room.value.status != Playing && |room.value.players| == 1
              && room.value.players[0].socketId == sid
    ensures r == JoinOk <==>
              room.Some? && room.value.status != Playing && |room.value.players| < 2
              && (|room.value.players| == 1 ==> room.value.players[0].socketId != sid)
  {
    if room.None? then JoinError(RoomNotFound)
    else if room.value.status == Playing then JoinError(GameInProgress)
    else if |room.value.players| >= 2 then JoinError(RoomFull)
    else if |room.value.players| > 0 && room.value.players[0].socketId == sid then JoinError(OwnRoom)
    else JoinOk
  }
}
