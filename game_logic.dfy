/**
  The 3x3 game rules shared by the server and the single-player AI
  (tictactoe/public/game-logic.js): the eight winning lines, a per-player win
  search, the available cells, the winner/tie verdict, the depth-adjusted
  minimax searched in place on the board array, and the AI's move choice.
*/
module GameLogic {
  import opened Wrappers

  datatype Sym = X | O

  function Other(s: Sym): Sym
  {
    if s == X then O else X
  }

  /** One cell of the board: `null` or a player's symbol. */
  datatype Cell = Empty | Mark(sym: Sym)

  type Index = i: nat | i < 9

  /** A board is always `Array(9)`. */
  type Board = b: seq<Cell> | |b| == 9
    witness [Empty, Empty, Empty, Empty, Empty, Empty, Empty, Empty, Empty]

  const EmptyBoard: Board := [Empty, Empty, Empty, Empty, Empty, Empty, Empty, Empty, Empty]

  type Line = (Index, Index, Index)

  /** `WINS`: rows, then columns, then the two diagonals. */
  const Wins: seq<Line> :=
    [(0, 1, 2), (3, 4, 5), (6, 7, 8), (0, 3, 6), (1, 4, 7), (2, 5, 8), (0, 4, 8), (2, 4, 6)]

  /** All three cells of `l` hold `p`. */
  predicate Owns(b: Board, p: Sym, l: Line)
  {
    b[l.0] == Mark(p) && b[l.1] == Mark(p) && b[l.2] == Mark(p)
  }

  predicate HasLine(b: Board, p: Sym)
  {
    exists j :: 0 <= j < |Wins| && Owns(b, p, Wins[j])
  }

  predicate Full(b: Board)
  {
    forall i :: 0 <= i < 9 ==> b[i] != Empty
  }

  /** Position in `Wins`, from `k` on, of the first line owned by `p`. */
  function FirstOwned(b: Board, p: Sym, k: nat): (r: Option<nat>)
    requires k <= |Wins|
    ensures r.Some? ==> k <= r.value < |Wins| && Owns(b, p, Wins[r.value])
                        && forall j :: k <= j < r.value ==> !Owns(b, p, Wins[j])
    ensures r.None? ==> forall j :: k <= j < |Wins| ==> !Owns(b, p, Wins[j])
    decreases |Wins| - k
  {
    if k == |Wins| then None
    else if Owns(b, p, Wins[k]) then Some(k)
    else FirstOwned(b, p, k + 1)
  }

  /** `checkWin(board, player)`: the first line of `WINS` owned by `p`, or `null`. */
  function CheckWin(b: Board, p: Sym): (r: Option<Line>)
    ensures r.None? <==> !HasLine(b, p)
    ensures r.Some? ==> exists j :: 0 <= j < |Wins| && r.value == Wins[j] && Owns(b, p, Wins[j])
                                    && forall i :: 0 <= i < j ==> !Owns(b, p, Wins[i])
  {
    match FirstOwned(b, p, 0)
    case None => None
    case Some(j) => Some(Wins[j])
  }

  /** The AI's verdict: `'X'`, `'O'` or `'tie'` (`null` is `None`). */
  datatype Verdict = XWon | OWon | Tie

  /** `checkWinner`: X is checked before O; a tie needs a full board. */
  function CheckWinner(b: Board): (r: Option<Verdict>)
    ensures r == Some(XWon) <==> HasLine(b, X)
    ensures r == Some(OWon) <==> !HasLine(b, X) && HasLine(b, O)
    ensures r == Some(Tie) <==> !HasLine(b, X) && !HasLine(b, O) && Full(b)
    ensures r == None <==> !HasLine(b, X) && !HasLine(b, O) && !Full(b)
  {
    if CheckWin(b, X).Some? then Some(XWon)
    else if CheckWin(b, O).Some? then Some(OWon)
    else if Full(b) then Some(Tie)
    else None
  }

  /** The cells from `i` on that are `null`, in ascending order. */
  function EmptyFrom(b: Board, i: nat): (r: seq<Index>)
    requires i <= 9
    ensures forall k :: 0 <= k < |r| ==> i <= r[k] && b[r[k]] == Empty
    ensures forall j :: i <= j < 9 && b[j] == Empty ==> j in r
    ensures forall k, l :: 0 <= k < l < |r| ==> r[k] < r[l]
    ensures |r| <= 9 - i
    ensures |r| == 9 - i <==> forall j :: i <= j < 9 ==> b[j] == Empty
    decreases 9 - i
  {
    if i == 9 then []
    else if b[i] == Empty then [i as Index] + EmptyFrom(b, i + 1)
    else EmptyFrom(b, i + 1)
  }

  /** What `getAvailableMoves` returns: exactly the empty cells, ascending. */
  function EmptyCells(b: Board): (r: seq<Index>)
    ensures forall j :: 0 <= j < 9 ==> (j in r <==> b[j] == Empty)
    ensures forall k, l :: 0 <= k < l < |r| ==> r[k] < r[l]
    ensures r == [] <==> forall j :: 0 <= j < 9 ==> b[j] != Empty
    ensures |r| == 9 <==> forall j :: 0 <= j < 9 ==> b[j] == Empty
  {
    EmptyFrom(b, 0)
  }

  function EmptyCount(b: seq<Cell>): nat
  {
    if b == [] then 0 else (if b[0] == Empty then 1 else 0) + EmptyCount(b[1..])
  }

  /** A trial write into an empty cell leaves one empty cell fewer: minimax's recursion measure. */
  lemma {:induction false} EmptyCountMark(b: seq<Cell>, i: nat, m: Sym)
    requires i < |b| && b[i] == Empty
    ensures EmptyCount(b[i := Mark(m)]) == EmptyCount(b) - 1
  {
    if i == 0 {
      assert b[i := Mark(m)][1..] == b[1..];
    } else {
      EmptyCountMark(b[1..], i - 1, m);
      assert b[i := Mark(m)][1..] == b[1..][i - 1 := Mark(m)];
    }
  }

  /** A minimax value: a number, or the loops' initial `-Infinity`/`Infinity`. */
  datatype Score = NegInf | Fin(v: int) | PosInf

  /** `a > b` on numbers extended with the two infinities. */
  predicate Above(a: Score, b: Score)
  {
    match a
    case NegInf => false
    case Fin(x) => b.NegInf? || (b.Fin? && x > b.v)
    case PosInf => !b.PosInf?
  }

  /** `Math.max`. */
  function Max(a: Score, b: Score): Score
  {
    if Above(b, a) then b else a
  }

  /** `Math.min`. */
  function Min(a: Score, b: Score): Score
  {
    if Above(a, b) then b else a
  }

  /** The `scores` table, adjusted by depth: quicker wins, slower losses. */
  function TerminalScore(r: Verdict, depth: nat): int
  {
    match r
    case OWon => 10 - depth
    case XWon => -10 + depth
    case Tie => 0
  }

  /** `minimax(board, depth, isMaximizing)`: O maximises, X minimises. */
  function Minimax(b: Board, depth: nat, isMax: bool): Score
    decreases EmptyCount(b), 1
  {
    match CheckWinner(b)
    case Some(r) => Fin(TerminalScore(r, depth))
    case None => Search(b, depth, isMax, 0, if isMax then NegInf else PosInf)
  }

  /** The loop of one minimax level over cells `i`..8, `best` being its running `bestScore`. */
  function Search(b: Board, depth: nat, isMax: bool, i: nat, best: Score): Score
    requires i <= 9
    decreases EmptyCount(b), 0, 9 - i
  {
    if i == 9 then best
    else if b[i] == Empty then
      var m := if isMax then O else X;
      EmptyCountMark(b, i, m);
      var score := Minimax(b[i := Mark(m)], depth + 1, !isMax);
      Search(b, depth, isMax, i + 1, if isMax then Max(score, best) else Min(score, best))
    else Search(b, depth, isMax, i + 1, best)
  }

  /** A terminal board scores 10-depth for O, -10+depth for X and 0 for a tie. */
  lemma MinimaxTerminal(b: Board, depth: nat, isMax: bool)
    requires CheckWinner(b).Some?
    ensures HasLine(b, X) ==> Minimax(b, depth, isMax) == Fin(depth - 10)
    ensures !HasLine(b, X) && HasLine(b, O) ==> Minimax(b, depth, isMax) == Fin(10 - depth)
    ensures !HasLine(b, X) && !HasLine(b, O) ==> Minimax(b, depth, isMax) == Fin(0)
  {
  }

  /** Minimax never returns an infinity: a board without a verdict has an empty cell to try. */
  lemma {:induction false} MinimaxFinite(b: Board, depth: nat, isMax: bool)
    ensures Minimax(b, depth, isMax).Fin?
    decreases EmptyCount(b), 1
  {
    if CheckWinner(b).None? {
      var j :| 0 <= j < 9 && b[j] == Empty;
      SearchFinite(b, depth, isMax, 0, if isMax then NegInf else PosInf, j);
    }
  }

  lemma {:induction false} SearchFinite(b: Board, depth: nat, isMax: bool, i: nat, best: Score, j: nat)
    requires i <= 9
    requires isMax ==> !best.PosInf?
    requires !isMax ==> !best.NegInf?
    requires best.Fin? || (i <= j < 9 && b[j] == Empty)
    ensures Search(b, depth, isMax, i, best).Fin?
    decreases EmptyCount(b), 0, 9 - i
  {
    if i < 9 {
      if b[i] == Empty {
        var m := if isMax then O else X;
        EmptyCountMark(b, i, m);
        MinimaxFinite(b[i := Mark(m)], depth + 1, !isMax);
        var score := Minimax(b[i := Mark(m)], depth + 1, !isMax);
        SearchFinite(b, depth, isMax, i + 1, if isMax then Max(score, best) else Min(score, best), j);
      } else {
        SearchFinite(b, depth, isMax, i + 1, best, j);
      }
    }
  }

  /**
    Minimax evaluated in place, as the source does: every trial write
    `board[i] = ...` is undone, so the array is returned as it came, and the
    value is that of the functional `Minimax`.
  */
  method MinimaxInPlace(board: array<Cell>, depth: nat, isMax: bool) returns (score: Score)
    requires board.Length == 9
    modifies board
    ensures board[..] == old(board[..])
    ensures score == Minimax(old(board[..]), depth, isMax)
    decreases EmptyCount(board[..])
  {
    var result := CheckWinner(board[..]);
    if result.Some? {
      return Fin(TerminalScore(result.value, depth));
    }
    ghost var b: Board := board[..];
    // the maximising and minimising loops differ only in the symbol tried and in max/min
    var best := if isMax then NegInf else PosInf;
    var i := 0;
    while i < 9
      invariant 0 <= i <= 9
      invariant board[..] == b
      invariant Search(b, depth, isMax, i, best) == Minimax(b, depth, isMax)
    {
      if board[i] == Empty {
        var m := if isMax then O else X;
        board[i] := Mark(m);
        EmptyCountMark(b, i, m);
        assert board[..] == b[i := Mark(m)];
        var s := MinimaxInPlace(board, depth + 1, !isMax);
        board[i] := Empty;
        assert board[..] == b;
        best := if isMax then Max(s, best) else Min(s, best);
      }
      i := i + 1;
    }
    score := best;
  }

  /** `getAvailableMoves`: pushes every `null` cell in ascending order. */
  method GetAvailableMoves(board: array<Cell>) returns (moves: seq<Index>)
    requires board.Length == 9
    ensures moves == EmptyCells(board[..])
  {
    ghost var b: Board := board[..];
    moves := [];
    var i := 0;
    while i < 9
      invariant 0 <= i <= 9
      invariant moves + EmptyFrom(b, i) == EmptyFrom(b, 0)
    {
      if board[i] == Empty {
        assert EmptyFrom(b, i) == [i as Index] + EmptyFrom(b, i + 1);
        moves := moves + [i];
      }
      i := i + 1;
    }
  }

  /** The score `getBestMove` gives the trial move of O into `i`: `minimax(board, 0, false)`. */
  function MoveScore(b: Board, i: Index): Score
    requires b[i] == Empty
  {
    Minimax(b[i := Mark(O)], 0, false)
  }

  /** The trial scores of all nine cells (-Infinity for a taken cell, which the scan skips anyway). */
  function Scores(b: Board): (sc: seq<Score>)
    ensures |sc| == 9
    ensures forall j :: 0 <= j < 9 && b[j] == Empty ==> sc[j] == MoveScore(b, j)
  {
    seq(9, j requires 0 <= j < 9 => if b[j] == Empty then MoveScore(b, j) else NegInf)
  }

  /** `r` is an empty cell of maximal score, and the lowest such (the scan keeps only strict improvements). */
  predicate IsBest(b: Board, sc: seq<Score>, r: int)
    requires |sc| == 9
  {
    0 <= r < 9 && b[r] == Empty
    && (forall j :: 0 <= j < 9 && b[j] == Empty ==> !Above(sc[j], sc[r]))
    && (forall j :: 0 <= j < r && b[j] == Empty ==> Above(sc[r], sc[j]))
  }

  /** What the scan of `getBestMove` knows after cells 0..i-1, `move` being -1 while nothing beat `-Infinity`. */
  predicate ScanInv(b: Board, sc: seq<Score>, i: nat, best: Score, move: int)
    requires |sc| == 9
  {
    i <= 9 &&
    if move == -1 then
      best == NegInf && forall j :: 0 <= j < i && b[j] == Empty ==> sc[j] == NegInf
    else
      0 <= move < i && b[move] == Empty && best == sc[move]
      && (forall j :: 0 <= j < i && b[j] == Empty ==> !Above(sc[j], best))
      && (forall j :: 0 <= j < move && b[j] == Empty ==> Above(best, sc[j]))
  }

  /** `Above` is a strict total order. */
  lemma AboveOrder(a: Score, b: Score, c: Score)
    ensures !Above(a, a)
    ensures !Above(a, b) && Above(c, b) ==> Above(c, a)
    ensures !Above(a, b) && !Above(b, a) ==> a == b
    ensures !Above(a, NegInf) ==> a == NegInf
  {
  }

  /** The scan over cells `i`..8 with its running `bestScore` and `move`. */
  function BestFrom(b: Board, sc: seq<Score>, i: nat, best: Score, move: int): (r: int)
    requires |sc| == 9 && ScanInv(b, sc, i, best, move)
    ensures r == -1 ==> forall j :: 0 <= j < 9 && b[j] == Empty ==> sc[j] == NegInf
    ensures r != -1 ==> IsBest(b, sc, r)
    decreases 9 - i
  {
    if i == 9 then move
    else if b[i] == Empty && Above(sc[i], best) then
      AboveStep(b, sc, i, best, move);
      BestFrom(b, sc, i + 1, sc[i], i)
    else
      KeepStep(b, sc, i, best, move);
      BestFrom(b, sc, i + 1, best, move)
  }

  lemma AboveStep(b: Board, sc: seq<Score>, i: nat, best: Score, move: int)
    requires |sc| == 9 && ScanInv(b, sc, i, best, move) && i < 9 && b[i] == Empty && Above(sc[i], best)
    ensures ScanInv(b, sc, i + 1, sc[i], i)
  {
    forall j | 0 <= j < i + 1 && b[j] == Empty
      ensures !Above(sc[j], sc[i]) && (j < i ==> Above(sc[i], sc[j]))
    {
      AboveOrder(sc[j], best, sc[i]);
      AboveOrder(sc[i], sc[i], sc[i]);
    }
  }

  lemma KeepStep(b: Board, sc: seq<Score>, i: nat, best: Score, move: int)
    requires |sc| == 9 && ScanInv(b, sc, i, best, move) && i < 9
    requires !(b[i] == Empty && Above(sc[i], best))
    ensures ScanInv(b, sc, i + 1, best, move)
  {
    if b[i] == Empty {
      AboveOrder(sc[i], best, best);
    }
  }

  /**
    The `'hard'` choice (also `'normal'` when no mistake is drawn): -1 on a
    full board, the centre on an empty one, otherwise the lowest empty cell of
    maximal `minimax(board, 0, false)`.
  */
  function HardMove(b: Board): (r: int)
    ensures r == -1 <==> forall j :: 0 <= j < 9 ==> b[j] != Empty
    ensures (forall j :: 0 <= j < 9 ==> b[j] == Empty) ==> r == 4
    ensures (exists j :: 0 <= j < 9 && b[j] != Empty) && r != -1 ==> IsBest(b, Scores(b), r)
    ensures r != -1 ==> 0 <= r < 9 && b[r] == Empty
  {
    var avail := EmptyCells(b);
    if |avail| == 0 then -1
    else if |avail| == 9 then 4
    else
      var m := BestFrom(b, Scores(b), 0, NegInf, -1);
      if m != -1 then m
      else
        FirstIsLowest(b, avail);
        avail[0]
  }

  lemma FirstIsLowest(b: Board, avail: seq<Index>)
    requires avail == EmptyCells(b) && avail != []
    ensures forall j :: 0 <= j < avail[0] ==> b[j] != Empty
  {
  }

  /** The `availMoves[0]` fallback is never taken: every trial move has a finite score, which beats `-Infinity`. */
  lemma BestMoveFound(b: Board)
    requires exists j :: 0 <= j < 9 && b[j] == Empty
    ensures BestFrom(b, Scores(b), 0, NegInf, -1) != -1
  {
    var j :| 0 <= j < 9 && b[j] == Empty;
    MinimaxFinite(b[j := Mark(O)], 0, false);
  }

  datatype Difficulty = Easy | Normal | Hard

  /**
    `getBestMove(board, difficulty)`, with its two uses of `Math.random()` as
    parameters: `mistake` is the draw `Math.random() < 0.3` of `'normal'`, and a
    random pick is `availMoves[pick % availMoves.length]`. The trial moves are
    written into the array and undone.
  */
  method GetBestMove(board: array<Cell>, difficulty: Difficulty, mistake: bool, pick: nat) returns (move: int)
    requires board.Length == 9
    modifies board
    ensures board[..] == old(board[..])
    ensures move == -1 <==> Empty !in old(board[..])
    ensures move != -1 ==> 0 <= move < 9 && old(board[..])[move] == Empty
    ensures difficulty == Easy || (difficulty == Normal && mistake) ==>
              move == -1 || move == EmptyCells(old(board[..]))[pick % |EmptyCells(old(board[..]))|]
    ensures difficulty == Hard || (difficulty == Normal && !mistake) ==> move == HardMove(old(board[..]))
  {
    ghost var b: Board := board[..];
    var avail := GetAvailableMoves(board);
    if |avail| == 0 {
      return -1;
    }
    if difficulty == Easy {
      return avail[pick % |avail|];
    }
    if difficulty == Normal && mistake {
      return avail[pick % |avail|];
    }
    if |avail| == 9 {
      return 4;
    }
    move := ScanBest(board);
    if move == -1 {
      move := avail[0];
    }
  }

  /** The loop of `getBestMove` over the nine cells, trying O in each empty one. */
  method ScanBest(board: array<Cell>) returns (move: int)
    requires board.Length == 9
    modifies board
    ensures board[..] == old(board[..])
    ensures move == BestFrom(old(board[..]), Scores(old(board[..])), 0, NegInf, -1)
  {
    ghost var b: Board := board[..];
    ghost var sc := Scores(b);
    var bestScore := NegInf;
    move := -1;
    var i := 0;
    while i < 9
      invariant 0 <= i <= 9
      invariant board[..] == b
      invariant ScanInv(b, sc, i, bestScore, move)
      invariant BestFrom(b, sc, i, bestScore, move) == BestFrom(b, sc, 0, NegInf, -1)
    {
      if board[i] == Empty {
        board[i] := Mark(O);
        var score := MinimaxInPlace(board, 0, false);
        board[i] := Empty;
        assert board[..] == b;
        assert score == sc[i];
        if Above(score, bestScore) {
          AboveStep(b, sc, i, bestScore, move);
          bestScore := score;
          move := i;
        } else {
          KeepStep(b, sc, i, bestScore, move);
        }
      } else {
        KeepStep(b, sc, i, bestScore, move);
      }
      i := i + 1;
    }
  }
}
