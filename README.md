# Tic-Tac-Toe Space server core, modelled in Dafny

This project models the real-time core of the Tic-Tac-Toe Space game server:

- the socket.io event handlers for sessions, rooms, moves, rematches, chat, disconnects and four-player tournaments;
- the per-socket rate limiter that filters every incoming event;
- the shared game logic: win detection, room codes, input validation and the minimax AI.

The server keeps all of its state in memory, in the maps declared at `tictactoe/server.js:112-119`.
Here that state is one value, `State.World`. It holds:

- sessions, users and the socket/user bindings;
- rooms, tournaments, `socketRoom` and `userRoom`;
- the pending grace-period timeouts;
- socket.io's live sockets and channel membership;
- an outbox of every event emitted, with the sockets it reached;
- a flag recording that an uncaught `TypeError` has ended the process.

Rooms and tournaments are values stored in their maps. A handler that edits a room in place writes the new value back into the map.

Each handler is a function from the old `World` to the new one, with the same branches, checks, messages and error strings as the JavaScript.
Lemmas about each handler state:

- what it does on each branch;
- what it leaves alone;
- that it preserves the state invariant `State.Valid` (rooms, links, routes, timers and bracket shapes stay consistent);
- that tournament statuses only move forward (`State.StatusesAdvance`).

The class `Server.Server` holds the same state as mutable fields. Its methods update those fields in place, and each one is proved to leave them equal to the handler function applied to the old state.

`RateLimit.RateLimiter` is the limiter object, with its `clientLimits` map.

`GameLogic` has:

- `minimax` over an in-place array, whose trial marks are all undone;
- `getBestMove`, proved to choose the lowest empty cell of maximal score.

`Utils` has:

- `checkWinner`;
- the retrying room-code generator, as a loop;
- the two validators.

The inputs that make the server nondeterministic are explicit parameters:

- `Date.now()` is `now`;
- `Math.random()` is an oracle: `draws` for room codes, `swaps` for the shuffle, `coinX` for the draw coin flip, and `mistake`/`pick` for the AI;
- timers are records (`timers`, `finalSpawns`) that `Server.Server.ExpireGrace` and `Server.Server.SpawnFinal` fire.

Where `game:move` gets an out-of-range index, `room.board[index]` is `undefined`, not `null`. Such a move is therefore answered 'Cell taken', and the range guard on `tictactoe/socket/handlers/game.js:27` is never reached. The model follows the code here.

## Model

| member | source | states |
|---|---|---|
| GameLogic.FirstOwned | tictactoe/public/game-logic.js:24-29 | the first line, from a given position in `WINS` order, all of whose cells hold the player's mark, or none exactly when no later line does |
| GameLogic.CheckWin | tictactoe/public/game-logic.js:23-30 | a line is returned exactly when the player owns some line, and it is the first owned line in `WINS` order |
| GameLogic.CheckWinner | tictactoe/public/game-logic.js:40-45 | X wins whenever X has a line; O only when X has none; a tie only on a full board with no line; nothing otherwise (each as an if-and-only-if) |
| GameLogic.EmptyFrom | tictactoe/public/game-logic.js:34-36 | the empty cells from a position on, each exactly once, in ascending order |
| GameLogic.EmptyCells | tictactoe/public/game-logic.js:32-38 | exactly the empty indices of the board, ascending; empty exactly on a full board, nine long exactly on an empty board |
| GameLogic.EmptyCountMark | tictactoe/public/game-logic.js:66 | marking an empty cell lowers the number of empty cells by one, which bounds the search |
| GameLogic.Minimax | tictactoe/public/game-logic.js:53-85 | specified by `MinimaxTerminal`, `MinimaxFinite` and the method `MinimaxInPlace`: decided boards score by depth, every other board has a finite score, and the in-place search returns this value |
| GameLogic.MinimaxTerminal | tictactoe/public/game-logic.js:54-60 | a decided board scores depth-10 for an X line, 10-depth for an O line (X checked first) and 0 for a tie |
| GameLogic.MinimaxFinite | tictactoe/public/game-logic.js:53-85 | minimax never returns plus or minus infinity: every non-terminal board has an empty cell to try |
| GameLogic.Search | tictactoe/public/game-logic.js:62-84 | specified by `SearchFinite`: the max and min loops end with a finite score once they have seen an empty cell |
| GameLogic.SearchFinite | tictactoe/public/game-logic.js:62-83 | the max and min loops end with a finite score once they have seen an empty cell |
| GameLogic.MinimaxInPlace | tictactoe/public/game-logic.js:53-85 | the in-place search returns the minimax score of the board it received and leaves the array exactly as it found it, every trial mark undone |
| GameLogic.GetAvailableMoves | tictactoe/public/game-logic.js:32-38 | the loop over the array collects exactly `EmptyCells` of its contents |
| GameLogic.Scores | tictactoe/public/game-logic.js:121-124 | the score of each empty cell is the minimax value of the board with O placed there, depth 0, X to move |
| GameLogic.AboveOrder | tictactoe/public/game-logic.js:125 | the strict comparison of extended scores is irreflexive, transitive through non-improvement and total |
| GameLogic.BestFrom | tictactoe/public/game-logic.js:120-130 | the scan returns -1 only if every empty cell scored minus infinity, else the lowest empty cell of maximal score |
| GameLogic.AboveStep | tictactoe/public/game-logic.js:125-128 | a strictly better score makes its cell the new candidate and keeps the scan invariant |
| GameLogic.KeepStep | tictactoe/public/game-logic.js:121-129 | a filled cell or a score that is not strictly better keeps the candidate and the scan invariant |
| GameLogic.HardMove | tictactoe/public/game-logic.js:94-133 | -1 exactly on a full board; 4 on an empty board; otherwise the lowest empty cell of maximal minimax score |
| GameLogic.FirstIsLowest | tictactoe/public/game-logic.js:133 | the first available move is the lowest empty index |
| GameLogic.BestMoveFound | tictactoe/public/game-logic.js:132-133 | with an empty cell the scan always finds a move, so the `availMoves[0]` fallback is never taken |
| GameLogic.GetBestMove | tictactoe/public/game-logic.js:93-134 | the board is unchanged; -1 exactly when no cell is empty, else an empty cell; easy and a normal-mode mistake pick the oracle's entry of the available moves; hard and normal otherwise play `HardMove` |
| GameLogic.ScanBest | tictactoe/public/game-logic.js:114-130 | the array loop with trial marks returns the pure scan's answer and restores the board |
| Utils.FirstComplete | tictactoe/utils.js:9-14 | the index found is the first winning line at or after `k` that is complete; `None` means no line from `k` on is complete |
| Utils.CheckWinner | tictactoe/utils.js:8-17 | a win reports the first complete line of `WINS` and the owner of its cells; a draw iff the board is full with no complete line; `null` iff some cell is empty and no line is complete |
| Utils.ServerAgreesWithAi | tictactoe/utils.js:8-17 | the server's evaluator and the client AI's `checkWinner` agree on "undecided" and on "draw", and agree on the winner whenever only one symbol owns a line |
| Utils.CompleteIsOwned | tictactoe/utils.js:11 | a line whose three cells are equal and set is owned by X or by O, and conversely |
| Utils.Candidate | tictactoe/utils.js:28 | each attempt draws a four-character code |
| Utils.CandidateInAlphabet | tictactoe/utils.js:25-28 | every character drawn comes from the 32-character alphabet without I, O, 0 and 1 |
| Utils.FirstOutside | tictactoe/utils.js:27-29 | the search returns an attempt whose code is not taken, and every earlier attempt's code is taken |
| Utils.FirstFree | tictactoe/utils.js:27-29 | the attempt the do-while loop stops on: its code is free and every earlier attempt's code is taken |
| Utils.GenerateRoomCode | tictactoe/utils.js:24-31 | the loop returns the code of the first attempt that is not a key of the map: four alphabet characters, not taken |
| Utils.ExhaustedAll | tictactoe/utils.js:29 | the loop's step-by-step record of taken attempts means every attempt before `n` drew a taken code |
| Utils.ExhaustedBefore | tictactoe/utils.js:27-29 | a free attempt never comes before the attempts already known to be taken, so the loop is bounded |
| Utils.FirstFreeIs | tictactoe/utils.js:27-30 | the attempt where the loop stops is exactly the first free attempt |
| Utils.ValidateRegistration | tictactoe/utils.js:39-49 | each error message holds exactly when its check is the first to fail (missing fields, key shorter than 3, longer than 16, characters outside `[a-z0-9_]`, password shorter than 8); success iff all pass, with the trimmed lower-cased key |
| Utils.ValidateRoomJoin | tictactoe/utils.js:57-63 | each refusal holds exactly when its check is the first to fail (no room, game in progress, room full, own room); success iff none fails |
| JsStrings.LeadingSpaces | tictactoe/socket/utils.js:54 | counts the white-space prefix that `trim()` drops: every counted character is white space and the next one is not |
| JsStrings.TrailingSpaces | tictactoe/socket/utils.js:54 | the same for the white-space suffix |
| JsStrings.Trim | tictactoe/utils.js:42 | `trim()` returns a slice of the input with only white space outside it; a non-empty result starts and ends with a non-space; the result is empty iff the input is all white space |
| JsStrings.TrimBounds | tictactoe/socket/utils.js:54 | the dropped prefix and suffix do not overlap; the kept part's ends are not white space; when nothing is kept the input is all white space |
| JsStrings.ToUpperAscii | tictactoe/socket/handlers/room.js:45 | `toUpperCase()` maps the string character by character |
| JsStrings.ToLowerAscii | tictactoe/utils.js:42 | `toLowerCase()` maps the string character by character |
| JsStrings.JsLength | tictactoe/utils.js:43-46 | `length` counts UTF-16 units: between the number of code points and twice that, equal to it iff no character is outside the basic plane |
| JsStrings.DecimalString | tictactoe/socket/handlers/tournament.js:34 | a number in a template string is a non-empty run of decimal digits |
| RateLimit.Opened | tictactoe/rateLimiter.js:28-44 | a socket without an entry gets a fresh window at `now`; an entry whose window is more than 1000 ms old is reset; otherwise the entry is kept |
| RateLimit.Step | tictactoe/rateLimiter.js:26-62 | an event is admitted iff fewer than 10 events were counted in the window, its name is not one inherited from `Object.prototype` (such as `constructor` or `toString`, which line 54 always refuses), and, for a limited event, fewer than its own limit were counted; an admitted event counts once globally and once for its own limit; a refused one changes nothing beyond the window reset; the counters never exceed their limits |
| RateLimit.CheckAll | tictactoe/rateLimiter.js:26-62 | only the caller's entry is created or changed; every other socket's entry is unchanged |
| RateLimit.CheckKeepsLimits | tictactoe/rateLimiter.js:8-17 | after any check every counter in the map stays within its limit |
| RateLimit.Limit | tictactoe/rateLimiter.js:9-17 | a fresh window admits at most the global limit of 10 events of one name, and none exactly when the name is inherited from `Object.prototype` |
| RateLimit.AfterStep | tictactoe/rateLimiter.js:47-61 | inside the window, a socket that has had `k` events admitted gets the next one admitted while `k` is below the limit, and refused at the limit with nothing changed |
| RateLimit.BurstFrom | tictactoe/rateLimiter.js:47-61 | from `k` admitted events, a burst of same-instant events is admitted until the limit and refused after it |
| RateLimit.BurstFromNewSocket | tictactoe/rateLimiter.js:26-62 | a new socket sending `Limit(e) + m` events at one instant gets exactly the first `Limit(e)` admitted and the rest refused (5 of 20 for `chat:msg`; none for `constructor`) |
| RateLimit.ExpiredWindowAdmits | tictactoe/rateLimiter.js:40-44 | once more than 1000 ms have passed the counters restart; the event is admitted and counted alone, or, for an inherited name, refused with the fresh window stored |
| RateLimit.BoundaryKeepsWindow | tictactoe/rateLimiter.js:40 | at exactly 1000 ms elapsed the window is still open and nothing is reset |
| RateLimit.CleanupRestarts | tictactoe/rateLimiter.js:68-70 | after `cleanup(id)`, the next check of `id` opens a new window, and is admitted unless its name is inherited |
| RateLimit.RateLimiter.constructor | tictactoe/rateLimiter.js:4-5 | the limiter starts with no entries |
| RateLimit.RateLimiter.Check | tictactoe/rateLimiter.js:26-62 | the verdict and the new map are those of `CheckAll` on the old map |
| RateLimit.RateLimiter.Open | tictactoe/rateLimiter.js:28-44 | the caller's entry is created or reset as `Opened` says and stored back in the map |
| RateLimit.RateLimiter.Cleanup | tictactoe/rateLimiter.js:68-70 | only the socket's entry is removed |
| SocketUtils.SeatRooms | tictactoe/socket/utils.js:10-26 | only the leaver's own room can change or disappear; a socket without a seat leaves the rooms as they were |
| SocketUtils.LeaveSeat | tictactoe/socket/utils.js:12-26 | removing the seat touches only rooms, `userRoom`, channels and the outbox; the rooms become `SeatRooms`; `userRoom` only loses entries |
| SocketUtils.LeaveCurrentRoom | tictactoe/socket/utils.js:5-29 | a socket routed to a non-empty code loses its `socketRoom` entry; one with no route changes nothing; no room is created; users, sessions, tournaments and timers are untouched |
| SocketUtils.LeaveForgetsSocket | tictactoe/socket/utils.js:12-28 | afterwards the socket has no `socketRoom` entry, and a seated leaver's key has no `userRoom` entry |
| SocketUtils.LeaveRemovesOnlyOwnSeat | tictactoe/socket/utils.js:18-24 | with another player left, the room keeps the other players in order, goes back to waiting with no rematch votes, and keeps its board and scores |
| SocketUtils.LastLeaverDeletesRoom | tictactoe/socket/utils.js:19-20 | the last player to leave deletes the room |
| SocketUtils.LeaveIdempotent | tictactoe/socket/utils.js:7-8 | leaving twice is the same as leaving once |
| SocketUtils.LeaveFromTournament | tictactoe/socket/utils.js:7-28 | a socket routed to a tournament lobby only loses its route |
| SocketUtils.LeaveKeepsOtherRoom | tictactoe/socket/utils.js:10-26 | every room in which the leaver holds no seat is unchanged |
| SocketUtils.SeatRoomsValid | tictactoe/socket/utils.js:18-25 | removing a seat keeps every room well formed and every tournament link intact |
| SocketUtils.SeatPreservesValid | tictactoe/socket/utils.js:12-26 | removing a seat keeps the server state invariant |
| SocketUtils.LeavePreservesValid | tictactoe/socket/utils.js:5-29 | `leaveCurrentRoom` keeps the server state invariant |
| SocketUtils.HandlePlayerLeave | tictactoe/socket/utils.js:31-50 | an unknown room or key changes nothing; otherwise the seat goes, the key loses its `userRoom` and timeout entries, and the room is deleted when emptied or else reset to waiting without votes and told `game:opponent-left`; nothing else changes |
| SocketUtils.PlayerLeavePreservesValid | tictactoe/socket/utils.js:31-50 | `handlePlayerLeave` keeps the server state invariant |
| SocketUtils.RemoveAngles | tictactoe/socket/utils.js:55 | the result holds no `<` or `>`, and a string without them is returned unchanged |
| SocketUtils.SliceUnits | tictactoe/socket/utils.js:56 | `slice(0, n)` on whole characters: the longest prefix of whole characters that fits in `n` UTF-16 units. A surrogate pair straddling the cut is dropped, where JavaScript keeps its high half |
| SocketUtils.Sanitize | tictactoe/socket/utils.js:52-57 | the result is at most 120 units long and holds no angle bracket; empty input gives empty output; otherwise it is trim, then removal of angle brackets, then the 120-unit slice on whole characters (a straddling surrogate pair is dropped, where JavaScript keeps its high half) |
| SocketUtils.SanitizeKeepsPlainText | tictactoe/socket/utils.js:52-57 | trimmed text without angle brackets and within 120 units is returned unchanged |
| SocketUtils.SliceAll | tictactoe/socket/utils.js:56 | slicing a string that already fits returns it unchanged |
| Entities.Views | tictactoe/socket/handlers/room.js:63 | the player list sent to clients has one entry per player, in order, carrying only name and symbol |
| Entities.FindBySocket | tictactoe/socket/utils.js:12 | the first seat holding the socket id, or -1 exactly when no seat holds it |
| Entities.FindByKey | tictactoe/socket/utils.js:36 | the first seat holding the key, or -1 exactly when no seat holds it |
| Entities.SymbolIndex | tictactoe/socket/handlers/game.js:37 | the first seat playing the symbol, or -1 exactly when none does |
| Entities.OtherSymbolIndex | tictactoe/socket/handlers/game.js:38 | the first seat not playing the symbol, or -1 exactly when every seat plays it |
| Entities.FindBySymbol | tictactoe/socket/handlers/game.js:37 | the first seated player with the symbol, as `find` returns, or nothing exactly when no seat has it |
| Entities.FindNotSymbol | tictactoe/socket/handlers/game.js:38 | the first seated player with another symbol, as `find` returns, or nothing exactly when every seat has it |
| Entities.TFindByKey | tictactoe/socket/handlers/tournament.js:92 | the first bracket index holding the key, or -1 exactly when no entrant has it |
| Entities.RemoveAt | tictactoe/socket/utils.js:18 | removing one slot keeps the slots before it and shifts the ones after it down by one |
| Entities.SeatsOfRemove | tictactoe/socket/utils.js:36-38 | removing a slot lowers the key's seat count by one exactly when that slot held the key |
| Entities.FoundKeyIsSeated | tictactoe/socket/utils.js:36-37 | a key that `findIndex` finds holds at least one seat |
| State.Authed | tictactoe/socket/handlers/room.js:19-20 | a socket is authenticated exactly when it is bound to a non-empty key, and that key is the result |
| State.InitialValid | tictactoe/server.js:112-119 | the empty maps the server starts with satisfy the state invariant |
| State.Connected | tictactoe/socket/index.js:23 | a connecting socket becomes live and is added to its own-id channel; every other channel keeps its members |
| GameHandlers.Bump | tictactoe/socket/handlers/game.js:36 | the winner's score goes up by one; the other symbol's score and the draws are unchanged |
| GameHandlers.AddWin | tictactoe/socket/handlers/game.js:39 | only the winning player's record gains a win, and only if that record exists; no user is added |
| GameHandlers.AddLoss | tictactoe/socket/handlers/game.js:40 | only the losing player's record gains a loss, and only if that record exists; no user is added |
| GameHandlers.AddDraws | tictactoe/socket/handlers/game.js:47 | every existing user gains one draw per seat it holds in the room |
| GameHandlers.Settled | tictactoe/socket/handlers/game.js:29-57 | the mark is placed; an undecided board passes the turn; a win ends the game and scores the winner; a draw ends the game and scores a draw; players and votes are kept |
| GameHandlers.Credited | tictactoe/socket/handlers/game.js:35-48 | no user is added or removed; an undecided board credits nobody; a win gives the user of the first seat with the winning symbol one win and the user of the first seat without it one loss; a draw gives every known user one draw per seat held; nothing else changes |
| GameHandlers.CreditsTwoSeats | tictactoe/socket/handlers/game.js:37-47 | with two seats of different symbols and users, the winning seat gains a win and the other a loss, or each seat gains a draw, and no other record changes |
| GameHandlers.Settle | tictactoe/socket/handlers/game.js:29-57 | specified by `SettleSpec`, `SettleInSteps` and `MoveFillsOneCell`: the settled room is stored, users credited, and `game:move` then the verdict broadcast |
| GameHandlers.Verdict | tictactoe/socket/handlers/game.js:41-56 | specified through `SettleSpec`: the second message a legal move broadcasts, `game:turn` while open, `game:over` with the winner, line and scores, or the draw |
| GameHandlers.SettleSpec | tictactoe/socket/handlers/game.js:29-57 | a legal move stores the settled room, credits the users, and broadcasts `game:move` then the verdict to the room; nothing else changes |
| GameHandlers.SettleInSteps | tictactoe/socket/handlers/game.js:29-30 | placing the mark and announcing it, then storing the verdict, is the same as settling the move in one step |
| GameHandlers.MoveLeavesBracket | tictactoe/socket/handlers/game.js:32-53 | a legal move that leaves the game open, or ends a game whose room has no undecided tournament match, settles the board and leaves every tournament unchanged |
| GameHandlers.MoveRecordsMatchWinner | tictactoe/socket/handlers/game.js:41-52 | a legal move that ends a game in a tournament room whose match is undecided records as that match's winner the bracket index of the key seated with the mover's symbol, or, after a draw, with the coin's symbol; with no such seat the server throws |
| GameHandlers.Move | tictactoe/socket/handlers/game.js:17-58 | unauthenticated sockets and rooms that are missing or not playing change nothing; a socket without a seat, a move out of turn and a taken or out-of-range cell each get their `game:error`; a legal move is settled and then reported |
| GameHandlers.MoveCredits | tictactoe/socket/handlers/game.js:35-52 | after a legal move the user records are those `Credited` gives for the settled board; the bracket report touches none of them |
| GameHandlers.MoveCreditsTwoSeats | tictactoe/socket/handlers/game.js:35-48 | in a two-seat room with different symbols and users, a winning move credits the winning seat with a win and the other with a loss, a draw credits each seat once, an open board credits nobody |
| GameHandlers.MoveFillsOneCell | tictactoe/socket/handlers/game.js:29 | a legal move fills exactly the chosen empty cell with the mover's symbol |
| GameHandlers.MoverWins | tictactoe/socket/handlers/game.js:32-36 | when a move decides a game that was undecided, the winner is the mover and the winning line runs through the new mark |
| GameHandlers.MarkOffLine | tictactoe/socket/handlers/game.js:29 | a mark outside a line does not change whether that line is complete |
| GameHandlers.NoTwoMovesInARow | tictactoe/socket/handlers/game.js:25-56 | after a move that does not end the game, the same socket's next move is refused with `Not your turn` |
| GameHandlers.MovePreservesValid | tictactoe/socket/handlers/game.js:17-58 | `game:move` keeps the server state invariant and moves no tournament backwards |
| GameHandlers.SwapSymbols | tictactoe/socket/handlers/game.js:69 | every player keeps its place and gets the other symbol |
| GameHandlers.Restarted | tictactoe/socket/handlers/game.js:69-73 | a restarted room has swapped symbols, an empty board, X to move, status playing and no votes; scores are kept |
| GameHandlers.RequesterName | tictactoe/socket/handlers/game.js:81 | the name is the requester's display name, or `Opponent` when there is none |
| GameHandlers.Rematch | tictactoe/socket/handlers/game.js:61-84 | specified by `RematchIgnored`, `RematchRestarts`, `RematchWaits`, `RestartNeedsTwoVoters` and `RematchPreservesValid`: a second distinct vote restarts the room with swapped symbols; a first vote is forwarded |
| GameHandlers.RematchIgnored | tictactoe/socket/handlers/game.js:62-63 | a vote for a missing room or a room with fewer than two players changes nothing |
| GameHandlers.RematchRestarts | tictactoe/socket/handlers/game.js:64-79 | the second distinct vote restarts the room and broadcasts `game:start` with the swapped line-up |
| GameHandlers.RematchWaits | tictactoe/socket/handlers/game.js:64-83 | a first vote is recorded and the rest of the room receives `game:rematch-request` |
| GameHandlers.RestartNeedsTwoVoters | tictactoe/socket/handlers/game.js:65-67 | the room restarts iff some other socket has already voted |
| GameHandlers.OtherVoterRestarts | tictactoe/socket/handlers/game.js:67-73 | a vote after another socket's vote restarts the room |
| GameHandlers.LoneVoterWaits | tictactoe/socket/handlers/game.js:80 | without another socket's vote the room does not restart |
| GameHandlers.RepeatVoteIsIdempotent | tictactoe/socket/handlers/game.js:64-65 | a socket voting twice leaves the rooms as after its first vote |
| GameHandlers.SwapTwice | tictactoe/socket/handlers/game.js:69 | two rematches give every player its original symbol back |
| GameHandlers.RematchPreservesValid | tictactoe/socket/handlers/game.js:61-84 | `game:rematch` keeps the server state invariant |
| ChatHandler.ChatMessage | tictactoe/socket/handlers/chat.js:9-20 | a message is broadcast iff the text is a string, the socket is authenticated, the trimmed text is non-empty and the sanitized text is non-empty; a missing user record throws; otherwise nothing happens |
| ChatHandler.Chat | tictactoe/socket/handlers/chat.js:9-20 | the state changes only by the broadcast or the crash that `ChatMessage` decides |
| ChatHandler.ChatToSocketId | tictactoe/socket/handlers/chat.js:15 | a `chat:msg` whose code is a connected socket's id is delivered to that socket, through the channel socket.io gives every socket |
| ChatHandler.BroadcastIsClean | tictactoe/socket/handlers/chat.js:13-17 | every broadcast text is non-empty, at most 120 units long and free of angle brackets |
| ChatHandler.BroadcastIffVisibleText | tictactoe/socket/handlers/chat.js:12-14 | for an authenticated socket whose user exists, a message is broadcast iff the trimmed text holds a character other than an angle bracket |
| ChatHandler.ChatPreservesValid | tictactoe/socket/handlers/chat.js:9-20 | `chat:msg` keeps the server state invariant |
| ChatHandler.ChatNeverCrashes | tictactoe/socket/handlers/chat.js:16 | in a valid state, where every bound key has a user record, `chat:msg` never throws |
| AuthHandler.CancelGrace | tictactoe/socket/handlers/auth.js:31-34 | the key loses its pending timeout, the timer it named is cancelled, and nothing else changes |
| AuthHandler.Reseat | tictactoe/socket/handlers/auth.js:39-41 | the returning player's seat takes the new socket id; every other seat and the rest of the room are unchanged |
| AuthHandler.Rejoin | tictactoe/socket/handlers/auth.js:36-57 | specified by `RejoinMissing` and `RejoinSeat`: without the room or a seat for the key nothing changes; otherwise the seat takes the new socket, which is routed and joined to the room and sent `game:rejoin`, and the rest of the room hears `game:opponent-reconnected` |
| AuthHandler.RejoinMissing | tictactoe/socket/handlers/auth.js:36-40 | without the room or without a seat for the key, the reconnection changes nothing |
| AuthHandler.RejoinSeat | tictactoe/socket/handlers/auth.js:39-56 | a seated key is re-seated under the new socket, routed and joined to the room, sent `game:rejoin` with the full game, and the rest of the room hears `game:opponent-reconnected`; nothing else changes |
| AuthHandler.Auth | tictactoe/socket/handlers/auth.js:16-60 | specified by `AuthRejectChangesNothing`, `AuthBinds`, `AuthFresh`, `AuthReturns`, `AuthCancelsGrace`, `RejoinKeepsGame`, `NoRejoinWithoutSeat` and `AuthPreservesValid`: a bad token only earns `auth:error`; a good one binds socket and key both ways and answers `auth:ok`; a remembered room cancels the grace timer and rejoins the seat with the game intact |
| AuthHandler.AuthFresh | tictactoe/socket/handlers/auth.js:22-29 | a valid session without a remembered room only binds the socket and answers `auth:ok` |
| AuthHandler.AuthReturns | tictactoe/socket/handlers/auth.js:22-59 | a valid session with a remembered room binds, cancels the grace timer, then rejoins the room |
| AuthHandler.AuthRejectChangesNothing | tictactoe/socket/handlers/auth.js:17-21 | an unknown token, or one whose user is gone, only gets `auth:error` |
| AuthHandler.AuthBinds | tictactoe/socket/handlers/auth.js:22-25 | a valid session binds socket and key both ways and first answers `auth:ok` with the user's name and record; users, sessions and `userRoom` are unchanged |
| AuthHandler.AuthCancelsGrace | tictactoe/socket/handlers/auth.js:29-34 | a returning user's pending timeout is removed and its timer no longer armed |
| AuthHandler.RejoinKeepsGame | tictactoe/socket/handlers/auth.js:36-56 | the game resumes where it was: same board, turn, scores and status, only the returning seat's socket changes, other rooms are untouched, and the rejoin and reconnect messages follow `auth:ok` |
| AuthHandler.NoRejoinWithoutSeat | tictactoe/socket/handlers/auth.js:28-40 | without a seat to return to, no room, route or channel changes and only `auth:ok` is sent |
| AuthHandler.AuthPreservesValid | tictactoe/socket/handlers/auth.js:16-60 | `auth` keeps the server state invariant |
| RoomHandlers.NewRoom | tictactoe/socket/handlers/room.js:24-31 | a created room seats its creator alone as X, on an empty board, X to move, waiting, with zero scores and no tournament tag |
| RoomHandlers.CreatedCode | tictactoe/socket/handlers/room.js:21-23 | the code drawn after leaving the previous room is four alphabet characters and names no existing room |
| RoomHandlers.CreateRoom | tictactoe/socket/handlers/room.js:18-37 | specified by `CreateRoomRefuses`, `CreateRoomOpens`, `CreateRoomCrashes` and `CreatePreservesValid`: an unauthenticated socket is refused; otherwise the creator leaves its room and opens a new room under a free code; a missing user record throws |
| RoomHandlers.CreateRoomRefuses | tictactoe/socket/handlers/room.js:19-20 | an unauthenticated socket only gets `error` "Not authenticated" |
| RoomHandlers.CreateRoomOpens | tictactoe/socket/handlers/room.js:19-36 | after leaving its current room the creator is stored under a fresh code, routed and joined there, and told `room:created` with symbol X; nothing else changes |
| RoomHandlers.CreateRoomCrashes | tictactoe/socket/handlers/room.js:21-26 | a bound key whose user record is gone makes the handler throw after leaving the old room |
| RoomHandlers.CreatePreservesValid | tictactoe/socket/handlers/room.js:18-37 | `room:create` keeps the server state invariant, leaves tournaments alone and does not crash a live server |
| RoomHandlers.LeaveKeepsTarget | tictactoe/socket/handlers/room.js:48-51 | a room that passed join validation survives the joiner leaving its previous room, unchanged |
| RoomHandlers.Joined | tictactoe/socket/handlers/room.js:53-54 | the joiner is appended as O and the room starts playing; board, turn, scores and tags stay |
| RoomHandlers.JoinRoom | tictactoe/socket/handlers/room.js:40-67 | specified by `JoinRoomRejects`, `JoinRoomSpec`, `JoinSeatsTwo` and `JoinPreservesValid`: each rejection only answers the socket; a valid join seats the joiner as O beside the creator and starts the game |
| RoomHandlers.JoinRoomRejects | tictactoe/socket/handlers/room.js:41-49 | no session, a non-string code or a failed validation only answers the socket with the matching error |
| RoomHandlers.JoinRoomSpec | tictactoe/socket/handlers/room.js:45-66 | a valid join on the upper-cased, trimmed code leaves the old room, seats the joiner, routes and joins it, sends `room:joined` with symbol O and broadcasts `game:start` with both players to the room |
| RoomHandlers.JoinSeatsTwo | tictactoe/socket/handlers/room.js:48-54 | after a valid join the room has exactly two players, the creator first and unchanged, the joiner second as O, and is playing |
| RoomHandlers.JoinPreservesValid | tictactoe/socket/handlers/room.js:40-67 | `room:join` keeps the server state invariant, leaves tournaments alone and does not crash a live server |
| DisconnectHandler.Drop | tictactoe/socket/handlers/disconnect.js:16 | a closing socket stops being live and leaves every channel; nothing else changes |
| DisconnectHandler.Arm | tictactoe/socket/handlers/disconnect.js:35-39 | a new grace timer for (code, key) is armed under a fresh id and recorded as the key's pending timeout; nothing else changes |
| DisconnectHandler.Unbound | tictactoe/socket/handlers/disconnect.js:18-22 | an authenticated socket is dropped and unbound both ways, `userSocket` for its key and `socketUser` for itself |
| DisconnectHandler.Disconnect | tictactoe/socket/handlers/disconnect.js:16-43 | specified by `DisconnectUnauthed`, `DisconnectUnrouted`, `DisconnectRoomGone`, `DisconnectArms`, `DisconnectKeepsSeat`, `TimerArmedIffRoom` and `DisconnectPreservesValid`: the socket is unbound, the seat stays, and a grace timer is armed exactly when the socket was routed to an existing room |
| DisconnectHandler.DisconnectUnauthed | tictactoe/socket/handlers/disconnect.js:18-19 | a socket without a session is only dropped; no map, timer or message changes |
| DisconnectHandler.DisconnectUnrouted | tictactoe/socket/handlers/disconnect.js:24-25 | an authenticated socket with no room code is unbound, keeps its (empty) route, and arms no timer |
| DisconnectHandler.DisconnectRoomGone | tictactoe/socket/handlers/disconnect.js:24-29 | when the code names no room the route is deleted but no timer is armed and nothing is sent |
| DisconnectHandler.DisconnectArms | tictactoe/socket/handlers/disconnect.js:24-39 | when the room exists the route is deleted, the rest of the room hears `game:opponent-disconnected` with the key, and one grace timer is armed for (code, key) |
| DisconnectHandler.FireGraceTimer | tictactoe/socket/handlers/disconnect.js:35-37 | an armed timer is consumed and runs `handlePlayerLeave` on its code and key; an unknown id changes nothing |
| DisconnectHandler.DisconnectKeepsSeat | tictactoe/socket/handlers/disconnect.js:20-28 | during the grace period rooms, users and `userRoom` are unchanged, so the seat stays; the socket is unbound and leaves every channel |
| DisconnectHandler.UnauthedDisconnect | tictactoe/socket/handlers/disconnect.js:18-19 | an unauthenticated disconnect changes nothing but liveness and channels |
| DisconnectHandler.TimerArmedIffRoom | tictactoe/socket/handlers/disconnect.js:19-40 | a timer is armed exactly when the socket is authenticated and routed to a non-empty code of an existing room; otherwise timers are untouched |
| DisconnectHandler.ReplacedHandleStaysArmed | tictactoe/socket/handlers/disconnect.js:35-39 | re-arming overwrites the key's handle without cancelling the earlier timer, which stays armed |
| DisconnectHandler.FireOnce | tictactoe/socket/handlers/disconnect.js:35-37 | a grace timer fires at most once: after it has run, firing the same id again changes nothing |
| DisconnectHandler.GraceExpiryFreesSeat | tictactoe/socket/handlers/disconnect.js:35-37 | on expiry the key loses exactly one seat, its `userRoom` and its pending timeout; a room whose only player it was is deleted |
| DisconnectHandler.ReconnectKeepsSeat | tictactoe/socket/handlers/disconnect.js:20-39 | a disconnect followed by `auth` with the same user's token cancels the grace timer and returns the same seat under the new socket with board, turn and scores intact |
| DisconnectHandler.DisconnectPreservesValid | tictactoe/socket/handlers/disconnect.js:16-43 | `disconnect` keeps the server state invariant and never moves a tournament back |
| DisconnectHandler.FirePreservesValid | tictactoe/socket/handlers/disconnect.js:35-37 | a grace timer firing keeps the server state invariant and never moves a tournament back |
| Bracket.Shuffle | tictactoe/socket/handlers/tournament.js:9 | the shuffled entrants are a permutation of the original ones: same length, same multiset |
| Bracket.Names | tictactoe/socket/handlers/tournament.js:19 | the names announced at the start, one per entrant, in bracket order |
| Bracket.MatchCode | tictactoe/socket/handlers/tournament.js:34 | a match room code starts with the tournament code followed by a dash, so it never equals the tournament code |
| Bracket.MatchRoom | tictactoe/socket/handlers/tournament.js:35-47 | a match room seats p1 as X and p2 as O on an empty board, X to move, playing, zero scores, tagged with the tournament code and match id |
| Bracket.SeatFacts | tictactoe/socket/handlers/tournament.js:57-70 | a live player socket is routed to the match room, joins its channel (p1 also leaves the lobby channel) and gets `room:joined` with its symbol; a socket that is gone changes nothing |
| Bracket.CreateMatchRoom | tictactoe/socket/handlers/tournament.js:26-78 | specified by `MatchRoomCases`, `MatchRoomFrame`, `MatchRoomStored`, `MatchRoomAnnounced` and `MatchRoomValid`: an open slot changes nothing, a bad index throws, otherwise the room is stored, both keys routed to it and `game:start` broadcast |
| Bracket.MatchRoomCases | tictactoe/socket/handlers/tournament.js:28-32 | a missing match or an entrant index outside the bracket throws; an open slot leaves the state unchanged; otherwise the room opens |
| Bracket.MatchRoomFrame | tictactoe/socket/handlers/tournament.js:26-78 | opening a match room touches only rooms, routes, channels and the outbox; a match with an open slot is a no-op |
| Bracket.MatchRoomStored | tictactoe/socket/handlers/tournament.js:49-54 | the match room is stored under its code and both players' `userRoom` point to it |
| Bracket.MatchRoomAnnounced | tictactoe/socket/handlers/tournament.js:57-77 | `game:start` with the empty board and both seats is broadcast to the match channel last; live sockets are routed to and joined to the room |
| Bracket.StartTournament | tictactoe/socket/handlers/tournament.js:5-24 | specified by `StartedBracket`, `StartSeatsSemifinals` and `StartValid`: semifinals with the shuffled entrants and the three fixed matches, both semifinal rooms open, the invariant kept |
| Bracket.StartedBracket | tictactoe/socket/handlers/tournament.js:7-16 | starting sets status semifinals, shuffles the same entrants and installs the three fixed matches 1: 0 v 1, 2: 2 v 3, 3: open |
| Bracket.StartSeatsSemifinals | tictactoe/socket/handlers/tournament.js:21-23 | both semifinal rooms exist after the start, seating shuffled entrants 0 v 1 and 2 v 3 |
| Bracket.FirstSemifinalSeated | tictactoe/socket/handlers/tournament.js:22 | the first semifinal room is the only room added by the first `createMatchRoom`, and the tournament is untouched |
| Bracket.MatchIndex | tictactoe/socket/handlers/tournament.js:86 | the first match with the room's match id, or -1 exactly when none has it |
| Bracket.Decide | tictactoe/socket/handlers/tournament.js:101 | only the decided match's winner is set; its slots, the other matches, entrants, code and status are unchanged |
| Bracket.DecideKeepsOk | tictactoe/socket/handlers/tournament.js:101-136 | deciding an open match and stepping the bracket keeps the bracket's shape and never lowers its status |
| Bracket.BracketStep | tictactoe/socket/handlers/tournament.js:119-135 | with both semifinals won and the final unseeded, the final gets the two winners and status final; else a decided final completes the tournament; else nothing changes |
| Bracket.UpdateBracket | tictactoe/socket/handlers/tournament.js:111-136 | specified by `BracketTooShort`, `BracketSeedsFinal`, `BracketCrowns`, `BracketIdle`, `UpdateBracketSpec` and `BracketChampion`: the tournament becomes `BracketStep` of it, the final is seeded and its spawn queued once both semifinals are won, and the champion is announced once |
| Bracket.BracketTooShort | tictactoe/socket/handlers/tournament.js:113-119 | a bracket with fewer than three matches is announced and then throws |
| Bracket.BracketSeedsFinal | tictactoe/socket/handlers/tournament.js:119-129 | seeding the final stores it, announces the bracket twice and queues one deferred final spawn |
| Bracket.BracketCrowns | tictactoe/socket/handlers/tournament.js:131-135 | completing stores the tournament and emits `tournament:champion` with the winner's name, or throws when the index names no entrant |
| Bracket.BracketIdle | tictactoe/socket/handlers/tournament.js:111-119 | with nothing to advance only the update is announced |
| Bracket.UpdateBracketSpec | tictactoe/socket/handlers/tournament.js:111-136 | the bracket update replaces the tournament by `BracketStep` of it and queues a final spawn exactly when it seeds the final |
| Bracket.ResultSeat | tictactoe/socket/handlers/tournament.js:90-96 | the deciding seat is the room player holding the winning symbol, or the coin's symbol on a draw |
| Bracket.DecidedSpec | tictactoe/socket/handlers/tournament.js:89-101 | recording a decision changes only the tournament map, and on a draw the room hears the coin-flip chat line with the winner's name |
| Bracket.ApplyDecisionSpec | tictactoe/socket/handlers/tournament.js:89-108 | the decided tournament goes through `BracketStep`, and a final spawn is queued exactly when that seeds the final |
| Bracket.TournamentResult | tictactoe/socket/handlers/tournament.js:80-109 | specified by `ResultIgnored`, `ResultUnseated`, `ResultApplied`, `ResultRecordsWinner`, `ResultAppliedOnce` and `ResultValid`: only an undecided match takes a result, at most once, its winner being the deciding seat's bracket index; no deciding seat throws |
| Bracket.ResultIgnored | tictactoe/socket/handlers/tournament.js:82-87 | no tournament tag, an unknown tournament, no match with the id or an already decided match leaves the state unchanged |
| Bracket.ResultUnseated | tictactoe/socket/handlers/tournament.js:91-97 | when no room player holds the winning or coin symbol the handler throws |
| Bracket.ResultApplied | tictactoe/socket/handlers/tournament.js:89-108 | an undecided match with a deciding seat has its decision applied |
| Bracket.ResultRecordsWinner | tictactoe/socket/handlers/tournament.js:89-101 | the match's winner becomes the bracket index of the deciding player's key |
| Bracket.ResultKeepsUsers | tictactoe/socket/handlers/tournament.js:80-109 | a tournament result never changes a user record |
| Bracket.ResultKeepsIds | tictactoe/socket/handlers/tournament.js:80-136 | a result never removes a tournament or changes its match ids |
| Bracket.ResultAppliedOnce | tictactoe/socket/handlers/tournament.js:87 | a result is applied at most once: any later result for the same room changes nothing |
| Bracket.BracketChampion | tictactoe/socket/handlers/tournament.js:131-134 | a bracket update emits at most one champion message, and only on the step into completed |
| Bracket.ResultChampion | tictactoe/socket/handlers/tournament.js:80-136 | a game result emits at most one champion message, and only when it completes a tournament that was not completed |
| Bracket.CreateTournament | tictactoe/socket/handlers/tournament.js:151-169 | specified by `CreateTournamentRefuses`, `CreateTournamentOpens`, `CreateTournamentCrashes` and `CreateTournamentValid`: refused when unauthenticated; otherwise a waiting lobby under a new code with the creator as its only entrant |
| Bracket.CreateTournamentRefuses | tictactoe/socket/handlers/tournament.js:152-153 | an unauthenticated socket only gets `error` "Not authenticated" |
| Bracket.CreateTournamentOpens | tictactoe/socket/handlers/tournament.js:152-168 | after leaving its room the creator opens a waiting tournament under a code new to the tournament map, with itself as the only entrant and no matches, is routed and joined there, and gets `tournament:created` and the lobby update |
| Bracket.CreateTournamentCrashes | tictactoe/socket/handlers/tournament.js:154-159 | a bound key without a user record throws after leaving the old room |
| Bracket.Enrol | tictactoe/socket/handlers/tournament.js:184-188 | specified by `EnrolSpec` and `EnrolValid`: the joiner is appended, routed and joined, and the lobby hears the new list |
| Bracket.EnrolSpec | tictactoe/socket/handlers/tournament.js:184-188 | the joiner is appended to the entrants, routed and joined to the lobby, and the lobby hears the new list |
| Bracket.EnterLobby | tictactoe/socket/handlers/tournament.js:182-192 | specified by `LobbyUnknownUser`, `LobbyWaits`, `LobbyStarts` and `EnterLobbyValid`: a missing user record throws; the first three entrants wait; the fourth starts the tournament |
| Bracket.LobbyUnknownUser | tictactoe/socket/handlers/tournament.js:182-184 | a bound key without a user record throws after leaving the old room |
| Bracket.LobbyWaits | tictactoe/socket/handlers/tournament.js:182-188 | the first three entrants wait in the lobby, which hears the new list |
| Bracket.LobbyStarts | tictactoe/socket/handlers/tournament.js:190-191 | the fourth entrant starts the tournament: semifinals with the same four entrants |
| Bracket.JoinTournament | tictactoe/socket/handlers/tournament.js:172-193 | specified by `JoinTournamentRejects`, `JoinTournamentTurnedAway`, `JoinTournamentEnters` and `JoinTournamentValid`: the refusals in source order, else entry into the lobby under the upper-cased, trimmed code |
| Bracket.JoinTournamentRejects | tictactoe/socket/handlers/tournament.js:173-180 | refusals in order: no session, a non-string code (throws), not found, started, full; each leaves the state as it was but for the error |
| Bracket.JoinTournamentTurnedAway | tictactoe/socket/handlers/tournament.js:177-180 | a closed lobby only earns its error |
| Bracket.JoinTournamentEnters | tictactoe/socket/handlers/tournament.js:176-192 | an open lobby is entered under the upper-cased, trimmed code |
| Bracket.StartValid | tictactoe/socket/handlers/tournament.js:5-24 | starting a full lobby keeps the server state invariant and only moves statuses forward |
| Bracket.CreateTournamentValid | tictactoe/socket/handlers/tournament.js:151-169 | `tournament:create` keeps the server state invariant and only moves statuses forward |
| Bracket.JoinTournamentValid | tictactoe/socket/handlers/tournament.js:172-193 | `tournament:join` keeps the server state invariant and only moves statuses forward |
| Bracket.ResultValid | tictactoe/socket/handlers/tournament.js:80-109 | a game result keeps the server state invariant and only moves statuses forward |
| Bracket.FireFinalSpawn | tictactoe/socket/handlers/tournament.js:127-129 | specified by `FinalSpawnFired` and `FireFinalSpawnValid`: the deferred spawn is consumed once and opens the final's room, keeping the invariant |
| Bracket.FireFinalSpawnValid | tictactoe/socket/handlers/tournament.js:127-129 | the deferred final spawn names a known tournament and keeps the invariant |
| Bracket.FinalSpawnFired | tictactoe/socket/handlers/tournament.js:127-129 | firing a deferred final spawn consumes exactly that entry and leaves the tournaments alone |
| Server.Handle | tictactoe/socket/index.js:36-42 | once a handler has thrown the process is gone, so no later packet changes anything |
| Server.Deliver | tictactoe/socket/index.js:25-34 | the limiter sees every packet; a refused packet only earns the rate-limit error, an admitted one is handled, and the limiter's table is updated either way |
| Server.HandleValid | tictactoe/socket/index.js:36-42 | every handler keeps the server state invariant and only moves tournament statuses forward |
| Server.UnhandledSpendsBudget | tictactoe/socket/index.js:25-34 | an admitted event that no handler listens for, such as `room:leave`, is counted once against the socket's global budget and changes no game state |
| Server.RefusedPacketChangesNothing | tictactoe/socket/index.js:28-31 | a refused packet changes no game state; only the error message is added |
| Server.Server.constructor | tictactoe/server.js:112-119 | the server starts with empty maps and an empty limiter table, satisfying the invariant |
| Server.Server.Connect | tictactoe/socket/index.js:23 | a new connection makes its socket live and a member of the channel named by its own id, and changes nothing else |
| Server.Server.Receive | tictactoe/socket/index.js:25-34 | the class applies `Deliver` to its fields and its limiter, and keeps the invariant |
| Server.Server.Serve | tictactoe/socket/index.js:33-42 | an admitted packet updates the fields to `Handle` of the old state and keeps the invariant |
| Server.Server.Dispatch | tictactoe/socket/index.js:36-42 | the packet's handler method leaves the fields equal to `Handle` of the old state |
| Server.Server.Leave | tictactoe/socket/utils.js:5-29 | the in-place leave leaves the fields equal to `LeaveCurrentRoom` of the old state |
| Server.Server.VacateSeat | tictactoe/socket/utils.js:11-26 | the in-place seat removal equals `LeaveSeat` of the old state |
| Server.Server.PlayerLeave | tictactoe/socket/utils.js:31-50 | the in-place `handlePlayerLeave` equals `HandlePlayerLeave` of the old state |
| Server.Server.HandleAuth | tictactoe/socket/handlers/auth.js:16-60 | the in-place `auth` handler equals `Auth` of the old state |
| Server.Server.Bind | tictactoe/socket/handlers/auth.js:22-23 | socket and key are bound both ways and nothing else changes |
| Server.Server.ClearGrace | tictactoe/socket/handlers/auth.js:31-34 | the pending timeout is cleared as `CancelGrace` says |
| Server.Server.SeatRejoin | tictactoe/socket/handlers/auth.js:36-57 | the in-place rejoin equals `Rejoin` of the old state |
| Server.Server.HandleCreateRoom | tictactoe/socket/handlers/room.js:18-37 | the in-place `room:create` handler equals `CreateRoom` of the old state |
| Server.Server.OpenRoom | tictactoe/socket/handlers/room.js:24-36 | the new room is stored, the creator routed, tracked in `userRoom` and joined, and `room:created` sent; nothing else changes |
| Server.Server.HandleJoinRoom | tictactoe/socket/handlers/room.js:40-67 | the in-place `room:join` handler equals `JoinRoom` of the old state |
| Server.Server.HandleMove | tictactoe/socket/handlers/game.js:17-58 | the in-place `game:move` handler equals `Move` of the old state |
| Server.Server.PlaceMark | tictactoe/socket/handlers/game.js:29-57 | placing the mark and settling the game in place equals `Settle` of the old state |
| Server.Server.Outcome | tictactoe/socket/handlers/game.js:29-55 | the settled room, the credited user records and the verdict message are those of `Settled`, `Credited` and `Verdict` |
| Server.Server.CreditDraws | tictactoe/socket/handlers/game.js:47 | the loop over the players adds one draw to each known player, as `AddDraws` |
| Server.Server.HandleRematch | tictactoe/socket/handlers/game.js:61-84 | the in-place `game:rematch` handler equals `Rematch` of the old state |
| Server.Server.SwapAll | tictactoe/socket/handlers/game.js:69 | the loop over the players swaps every symbol, as `SwapSymbols` |
| Server.Server.HandleChat | tictactoe/socket/handlers/chat.js:9-20 | the in-place `chat:msg` handler equals `Chat` of the old state |
| Server.Server.HandleCreateTournament | tictactoe/socket/handlers/tournament.js:151-169 | the in-place `tournament:create` handler equals `CreateTournament` of the old state |
| Server.Server.OpenLobby | tictactoe/socket/handlers/tournament.js:157-168 | the new waiting tournament is stored, the creator routed and joined, and `tournament:created` and the lobby update sent; nothing else changes |
| Server.Server.HandleJoinTournament | tictactoe/socket/handlers/tournament.js:172-193 | the in-place `tournament:join` handler equals `JoinTournament` of the old state |
| Server.Server.Enlist | tictactoe/socket/handlers/tournament.js:184-188 | appending the entrant in place equals `Enrol` of the old state |
| Server.Server.HandleDisconnect | tictactoe/socket/handlers/disconnect.js:16-43 | the limiter entry is removed and the fields become `Disconnect` of the old state; the invariant is kept |
| Server.Server.Unbind | tictactoe/socket/handlers/disconnect.js:18-42 | the in-place disconnect equals `Disconnect` of the old state |
| Server.Server.ExpireGrace | tictactoe/socket/handlers/disconnect.js:35-37 | a grace timer firing applies `FireGraceTimer` and keeps the invariant |
| Server.Server.SpawnFinal | tictactoe/socket/handlers/tournament.js:127-129 | the deferred final spawn applies `FireFinalSpawn` and keeps the invariant |

## Left out

- `tictactoe/server.js` beyond its state maps is not part of this model: the Express REST endpoints, bcrypt hashing, MongoDB and file persistence (`saveUsers`), OAuth calls and the leaderboard cache are I/O and foreign libraries.
- `tictactoe/auth-utils.js` is not part of this model; it does database and HTTP-response work.
- socket.io itself is not modelled: transport, acknowledgements and delivery order.
  - An emit is recorded in the outbox with the set of sockets it reaches at that moment.
  - `Server.Server.Connect` stands for a new connection.
  - Every socket is a member of the channel named by its own id, as in socket.io. A `chat:msg` whose code is another socket's id therefore reaches that socket; the full room that `game:rejoin` sends (`tictactoe/socket/handlers/auth.js:53`) shows a client its opponent's socket id.
- The `disconnect` event does not pass through the limiter in the model. `tictactoe/socket/index.js:29` lets a refused `disconnect` through anyway, and the handler then deletes the socket's limiter entry, so the outcome is the same.
- `room:leave` has no server handler. `Server.UnhandledPacket` carries it, and any other event name no handler listens for, through the rate limiter; once admitted it spends the socket's global budget and changes nothing else.
- A packet whose payload is missing entirely is not modelled. Destructuring `undefined` would throw before any handler logic.
- Payload fields that the handlers type-check are `Option`s, `None` standing for a value that is not a string: `roomCode` of `room:join`, `tournamentCode` of `tournament:join`, and `text` of `chat:msg`.
- The `code` of `game:move`, `game:rematch` and `chat:msg` is modelled as a string.
  - For `game:move` and `game:rematch` a missing or non-string code finds no room, as a string naming no room does.
  - For `chat:msg`, `io.to(code)` at `tictactoe/socket/handlers/chat.js:15` is not checked. An array code would broadcast to every channel it lists; an empty array, in socket.io's default adapter, to every socket. The model does not capture this.
- Time:
  - The 30 s grace delay and the 2 s delay before the final's room opens are not modelled.
  - Armed timers fire in whatever order the caller chooses, through `Server.Server.ExpireGrace` and `Server.Server.SpawnFinal`.
- After an uncaught `TypeError` the process is modelled as stopped (`crashed`): no later event changes anything. A restart by a supervisor is not modelled.
- Concurrency: Node runs one handler at a time, so each handler is one atomic step.
- User records keep the display name and the win/loss/draw counters; the password hash, creation time and guest flag are not modelled.
- The browser client (`tictactoe/public/app.js` and the 3D, audio and UI scripts) is not part of this model; it only uses `game-logic.js` for single-player play.
- Utils.GenerateRoomCode: the method requires `EventuallyFree`, that some draw of the `Math.random()` oracle gives a free code. The do-while at `tictactoe/utils.js:27-29` never ends once all 32^4 codes are taken; the model does not include that non-terminating run.
- Bracket.Shuffle: `sort` with a random comparator becomes an arbitrary sequence of swaps. The model keeps the permutation property; the engine's sort algorithm and the resulting distribution are not modelled.
- SocketUtils.SliceUnits: `slice(0, n)` counts UTF-16 code units. Where the cut falls inside a surrogate pair, JavaScript keeps the lone high surrogate; the model drops the whole character, since a Dafny `char` cannot hold a lone surrogate. For example, on `a` followed by U+1F600 with `n == 2`, JavaScript gives `a` followed by the lone unit `0xD83D`, and the model gives `"a"`.
- SocketUtils.Sanitize: inherits that difference from `SliceUnits`. A message whose 120th unit is the first half of a surrogate pair loses that pair entirely instead of ending in a lone surrogate.
- JsStrings.ToUpperAscii: `toUpperCase` is modelled on the ASCII letters only; other characters are left as they are, whereas JavaScript also maps non-ASCII letters.
- JsStrings.ToLowerAscii: `toLowerCase` is modelled on the ASCII letters only, for the same reason.
- GameLogic.GetBestMove: `Math.random()` is the pair `mistake`/`pick`; the 30 % probability of a mistake in normal mode is not modelled.
- `game:move` indexes are integers. Non-numeric or fractional indexes are not modelled.
