/** A model of the board logic of a 3x3 tic-tac-toe player: the initial
    board, whose turn it is, the legal actions, the move transition (which
    writes into the caller's board), the winner scan, the terminal test and
    the utility of a board. */
module TicTacToe {

  /** The content of one square. `Empty` also stands for "no winner". */
  datatype Cell = Empty | X | O

  /** A row or column number. */
  type Index = i: int | 0 <= i < 3

  /** The value of a board at one moment: three rows of three cells. */
  type Grid = g: seq<seq<Cell>> | |g| == 3 && forall i :: 0 <= i < 3 ==> |g[i]| == 3
    witness [[Empty, Empty, Empty], [Empty, Empty, Empty], [Empty, Empty, Empty]]

  const EmptyGrid: Grid := [[Empty, Empty, Empty], [Empty, Empty, Empty], [Empty, Empty, Empty]]

  /** A board object, shared by reference between the caller and `Result`. */
  predicate IsBoard(board: array2<Cell>)
  {
    board.Length0 == 3 && board.Length1 == 3
  }

  /** The current contents of a board object. */
  function View(board: array2<Cell>): (g: Grid)
    reads board
    requires IsBoard(board)
    ensures forall i, j :: 0 <= i < 3 && 0 <= j < 3 ==> g[i][j] == board[i, j]
  {
    [[board[0, 0], board[0, 1], board[0, 2]],
     [board[1, 0], board[1, 1], board[1, 2]],
     [board[2, 0], board[2, 1], board[2, 2]]]
  }

  /** `g` with cell (i, j) replaced by `c`. */
  function Put(g: Grid, i: Index, j: Index, c: Cell): (h: Grid)
    ensures h[i][j] == c
    ensures forall a, b :: 0 <= a < 3 && 0 <= b < 3 && (a != i || b != j) ==> h[a][b] == g[a][b]
  {
    g[i := g[i][j := c]]
  }

  // ---------------------------------------------------------------------
  // initial_state

  /** A fresh board with every cell empty. */
  method InitialState() returns (board: array2<Cell>)
    ensures fresh(board) && IsBoard(board)
    ensures View(board) == EmptyGrid
  {
    board := new Cell[3, 3]((i, j) => Empty);
  }

  // ---------------------------------------------------------------------
  // player

  /** The number of times `c` occurs in `row` (a list's `count`). */
  function Occurrences(row: seq<Cell>, c: Cell): (n: nat)
    ensures n <= |row|
    ensures n == 0 <==> c !in row
  {
    if row == [] then 0 else (if row[0] == c then 1 else 0) + Occurrences(row[1..], c)
  }

  /** The number of times `c` occurs in all of `rows`. */
  function Tally(rows: seq<seq<Cell>>, c: Cell): nat
  {
    if rows == [] then 0 else Tally(rows[..|rows| - 1], c) + Occurrences(rows[|rows| - 1], c)
  }

  /** The mark of the player to move: X when the two counts agree, O otherwise. */
  function ToMove(g: Grid): Cell
  {
    if Tally(g, O) == Tally(g, X) then X else O
  }

  /** Counts the X and O marks row by row and names the player to move. */
  method Player(board: array2<Cell>) returns (p: Cell)
    requires IsBoard(board)
    ensures p == ToMove(View(board))
    ensures p == X <==> Tally(View(board), X) == Tally(View(board), O)
    ensures p == O <==> Tally(View(board), X) != Tally(View(board), O)
  {
    var rows := View(board);
    var countX, countO := 0, 0;
    var i := 0;
    while i < 3
      invariant 0 <= i <= 3
      invariant countX == Tally(rows[..i], X)
      invariant countO == Tally(rows[..i], O)
    {
      assert rows[..i + 1][..i] == rows[..i];
      countX := countX + Occurrences(rows[i], X);
      countO := countO + Occurrences(rows[i], O);
      i := i + 1;
    }
    assert rows[..3] == rows;
    p := if countO == countX then X else O;
  }

  // ---------------------------------------------------------------------
  // actions

  /** Whether `a` names a cell of the board that is empty. */
  predicate IsMove(g: Grid, a: (int, int))
  {
    0 <= a.0 < 3 && 0 <= a.1 < 3 && g[a.0][a.1] == Empty
  }

  /** The actions of a board: every pair that is a move on it, and no other. */
  function Moves(g: Grid): (s: set<(int, int)>)
    ensures forall a :: a in s <==> IsMove(g, a)
  {
    var s := set i, j | 0 <= i < 3 && 0 <= j < 3 && IsMove(g, (i, j)) :: (i, j);
    assert forall a | IsMove(g, a) :: (a.0, a.1) in s;
    s
  }

  /** Collects the empty cells in two nested loops over rows and columns. */
  method Actions(board: array2<Cell>) returns (acts: set<(int, int)>)
    requires IsBoard(board)
    ensures acts == Moves(View(board))
  {
    acts := {};
    for i := 0 to 3
      invariant forall a :: a in acts <==> 0 <= a.0 < i && 0 <= a.1 < 3 && board[a.0, a.1] == Empty
    {
      for j := 0 to 3
        invariant forall a :: a in acts <==>
          ((0 <= a.0 < i && 0 <= a.1 < 3) || (a.0 == i && 0 <= a.1 < j)) && board[a.0, a.1] == Empty
      {
        if board[i, j] == Empty {
          acts := acts + {(i, j)};
        }
      }
    }
  }

  /** There is no legal action exactly when every cell is taken. */
  lemma MovesEmptyIffFull(g: Grid)
    ensures Moves(g) == {} <==> forall i, j :: 0 <= i < 3 && 0 <= j < 3 ==> g[i][j] != Empty
  {
    if exists i, j :: 0 <= i < 3 && 0 <= j < 3 && g[i][j] == Empty {
      var i, j :| 0 <= i < 3 && 0 <= j < 3 && g[i][j] == Empty;
      assert (i, j) in Moves(g);
    }
  }

  /** On the initial board every one of the nine cells is an action, X is to
      move, nobody has won and the game is not over. */
  lemma InitialStateFacts()
    ensures Moves(EmptyGrid) == {(0, 0), (0, 1), (0, 2), (1, 0), (1, 1), (1, 2), (2, 0), (2, 1), (2, 2)}
    ensures |Moves(EmptyGrid)| == 9
    ensures ToMove(EmptyGrid) == X
    ensures Winner(EmptyGrid) == Empty && !Terminal(EmptyGrid)
  {
    assert Tally(EmptyGrid, X) == 0 by { TallyRows(EmptyGrid, X); }
    assert Tally(EmptyGrid, O) == 0 by { TallyRows(EmptyGrid, O); }
  }

  // ---------------------------------------------------------------------
  // result

  /** What `Result` does: the move was made in the caller's board, which is
      handed back, or the action was refused. */
  datatype Outcome = Played(board: array2<Cell>) | NotAValidAction

  /** Refuses an action that is not among the board's actions; otherwise
      writes the mark of the player to move into the caller's own board and
      returns that same board. */
  method Result(board: array2<Cell>, action: (int, int)) returns (r: Outcome)
    requires IsBoard(board)
    modifies board
    ensures r.NotAValidAction? <==> !IsMove(old(View(board)), action)
    ensures r.NotAValidAction? ==> View(board) == old(View(board))
    ensures r.Played? ==>
      r.board == board && IsMove(old(View(board)), action) &&
      View(board) == Put(old(View(board)), action.0, action.1, ToMove(old(View(board))))
  {
    var possibleActions := Actions(board);
    if action !in possibleActions {
      return NotAValidAction;
    }
    var toPlay := Player(board);
    var newBoard := board;
    ghost var before := View(board);
    newBoard[action.0, action.1] := toPlay;
    SameCellsSameGrid(View(board), Put(before, action.0, action.1, toPlay));
    r := Played(newBoard);
  }

  /** Two grids with the same cells are the same grid. */
  lemma SameCellsSameGrid(g: Grid, h: Grid)
    requires forall i, j :: 0 <= i < 3 && 0 <= j < 3 ==> g[i][j] == h[i][j]
    ensures g == h
  {
    forall i | 0 <= i < 3
      ensures g[i] == h[i]
    {
      assert forall j :: 0 <= j < 3 ==> g[i][j] == h[i][j];
    }
  }

  /** `Tally` of a board is the sum of its three rows' counts. */
  lemma TallyRows(g: Grid, c: Cell)
    ensures Tally(g, c) == Occurrences(g[0], c) + Occurrences(g[1], c) + Occurrences(g[2], c)
  {
    assert g[..2][..1] == g[..1];
    assert g[..1][..0] == [];
    assert Tally(g[..1], c) == Occurrences(g[0], c);
    assert Tally(g[..2], c) == Occurrences(g[0], c) + Occurrences(g[1], c);
    assert g[..3] == g;
  }

  /** Overwriting one element of a row moves one unit of count from the old
      content to the new one. */
  lemma {:induction false} OccurrencesUpdate(row: seq<Cell>, j: nat, c: Cell, d: Cell)
    requires j < |row|
    ensures Occurrences(row[j := c], d) + (if row[j] == d then 1 else 0)
         == Occurrences(row, d) + (if c == d then 1 else 0)
  {
    if j == 0 {
      assert row[j := c][1..] == row[1..];
    } else {
      assert row[j := c][1..] == row[1..][j - 1 := c];
      OccurrencesUpdate(row[1..], j - 1, c, d);
    }
  }

  /** The same on a whole board. */
  lemma TallyPut(g: Grid, i: Index, j: Index, c: Cell, d: Cell)
    ensures Tally(Put(g, i, j, c), d) + (if g[i][j] == d then 1 else 0)
         == Tally(g, d) + (if c == d then 1 else 0)
  {
    TallyRows(g, d);
    TallyRows(Put(g, i, j, c), d);
    OccurrencesUpdate(g[i], j, c, d);
  }

  /** A board on which X has as many marks as O, or one more. */
  predicate Balanced(g: Grid)
  {
    Tally(g, X) == Tally(g, O) || Tally(g, X) == Tally(g, O) + 1
  }

  /** A valid move made on a balanced board keeps it balanced and hands the
      turn to the other player. */
  lemma TurnPasses(g: Grid, i: Index, j: Index)
    requires g[i][j] == Empty
    requires Balanced(g)
    ensures Balanced(Put(g, i, j, ToMove(g)))
    ensures ToMove(Put(g, i, j, ToMove(g))) != ToMove(g)
  {
    TallyPut(g, i, j, ToMove(g), X);
    TallyPut(g, i, j, ToMove(g), O);
  }

  // ---------------------------------------------------------------------
  // winner

  /** The eight lines of three cells. */
  datatype Line = Row(i: Index) | Column(j: Index) | MainDiagonal | AntiDiagonal

  /** The order in which the winner scan looks at the lines. */
  const CheckOrder: seq<Line> :=
    [Row(0), Row(1), Row(2), MainDiagonal, Column(0), Column(1), AntiDiagonal, Column(2)]

  /** The three cells of a line, in board order. */
  function LineCells(g: Grid, l: Line): seq<Cell>
  {
    match l
    case Row(i) => [g[i][0], g[i][1], g[i][2]]
    case Column(j) => [g[0][j], g[1][j], g[2][j]]
    case MainDiagonal => [g[0][0], g[1][1], g[2][2]]
    case AntiDiagonal => [g[0][2], g[1][1], g[2][0]]
  }

  /** Player `p` holds all three cells of line `l`. */
  predicate Holds(g: Grid, l: Line, p: Cell)
  {
    p != Empty && LineCells(g, l) == [p, p, p]
  }

  /** The player holding line `l`, or `Empty` when nobody does. */
  function LineOwner(g: Grid, l: Line): (w: Cell)
    ensures w != Empty ==> Holds(g, l, w)
    ensures forall p :: Holds(g, l, p) ==> w == p
  {
    var s := LineCells(g, l);
    if s[0] != Empty && s[0] == s[1] == s[2] then s[0] else Empty
  }

  /** The row test of the scan, which has no `Empty` guard. */
  predicate RowMatches(g: Grid, i: Index)
  {
    g[i][0] == g[i][1] == g[i][2]
  }

  /** The winner scan as the program writes it: the first row whose three
      cells are equal decides, even when they are all empty; then the main
      diagonal, the left column, the middle column, the anti-diagonal and the
      right column, each only when its first cell is taken. */
  function Winner(g: Grid): (w: Cell)
  {
    if RowMatches(g, 0) then g[0][0]
    else if RowMatches(g, 1) then g[1][0]
    else if RowMatches(g, 2) then g[2][0]
    else if g[0][0] != Empty && g[0][0] == g[1][1] == g[2][2] then g[0][0]
    else if g[0][0] != Empty && g[0][0] == g[1][0] == g[2][0] then g[0][0]
    else if g[0][1] != Empty && g[0][1] == g[1][1] == g[2][1] then g[0][1]
    else if g[0][2] != Empty && g[0][2] == g[1][1] == g[2][0] then g[0][2]
    else if g[0][2] != Empty && g[0][2] == g[1][2] == g[2][2] then g[0][2]
    else Empty
  }

  /** Every row, column and diagonal is among the eight lines scanned. */
  lemma CheckOrderCoversAllLines(l: Line)
    ensures l in CheckOrder
  {
    match l
    case Row(i) =>
      if i == 0 { assert CheckOrder[0] == l; }
      else if i == 1 { assert CheckOrder[1] == l; }
      else { assert CheckOrder[2] == l; }
    case Column(j) =>
      if j == 0 { assert CheckOrder[4] == l; }
      else if j == 1 { assert CheckOrder[5] == l; }
      else { assert CheckOrder[7] == l; }
    case MainDiagonal => assert CheckOrder[3] == l;
    case AntiDiagonal => assert CheckOrder[6] == l;
  }

  /** Soundness: a reported winner holds some row, column or diagonal. */
  lemma WinnerSound(g: Grid)
    ensures Winner(g) != Empty ==> exists l :: Holds(g, l, Winner(g))
  {
    var w := Winner(g);
    if w != Empty {
      if RowMatches(g, 0) { assert Holds(g, Row(0), w); }
      else if RowMatches(g, 1) { assert Holds(g, Row(1), w); }
      else if RowMatches(g, 2) { assert Holds(g, Row(2), w); }
      else if g[0][0] != Empty && g[0][0] == g[1][1] == g[2][2] { assert Holds(g, MainDiagonal, w); }
      else if g[0][0] != Empty && g[0][0] == g[1][0] == g[2][0] { assert Holds(g, Column(0), w); }
      else if g[0][1] != Empty && g[0][1] == g[1][1] == g[2][1] { assert Holds(g, Column(1), w); }
      else if g[0][2] != Empty && g[0][2] == g[1][1] == g[2][0] { assert Holds(g, AntiDiagonal, w); }
      else { assert Holds(g, Column(2), w); }
    }
  }

  /** Short-circuit: when the first row scanned with three equal cells is an
      all-empty one, no winner is reported, whatever the later lines hold. */
  lemma EmptyRowStopsScan(g: Grid, r: Index)
    requires g[r] == [Empty, Empty, Empty]
    requires forall k :: 0 <= k < r ==> LineOwner(g, Row(k)) == Empty
    ensures Winner(g) == Empty
  {
    if r == 1 {
      assert LineOwner(g, Row(0)) == Empty;
    } else if r == 2 {
      assert LineOwner(g, Row(0)) == Empty;
      assert LineOwner(g, Row(1)) == Empty;
    }
  }

  /** A board X can reach (X has three marks, O two) on which X holds the
      middle row yet no winner is reported, because the empty top row ends the
      scan. */
  lemma EmptyRowMasksWin()
    ensures var g: Grid := [[Empty, Empty, Empty], [X, X, X], [O, O, Empty]];
      Balanced(g) && Holds(g, Row(1), X) && Winner(g) == Empty && IntendedWinner(g) == X
  {
    var g: Grid := [[Empty, Empty, Empty], [X, X, X], [O, O, Empty]];
    TallyRows(g, X);
    TallyRows(g, O);
    FirstHeldFinds(g, 0, 1, X);
  }

  /** The player holding the first held line of `CheckOrder` at position `k`
      or later, or `Empty` when none is held. */
  function FirstHeld(g: Grid, k: nat): Cell
    requires k <= |CheckOrder|
    decreases |CheckOrder| - k
  {
    if k == |CheckOrder| then Empty
    else if LineOwner(g, CheckOrder[k]) != Empty then LineOwner(g, CheckOrder[k])
    else FirstHeld(g, k + 1)
  }

  /** Line number `m` of the scan is the first held one, and `p` holds it. */
  predicate FirstHeldAt(g: Grid, m: nat, p: Cell)
  {
    m < |CheckOrder| && Holds(g, CheckOrder[m], p) &&
    forall k :: 0 <= k < m ==> LineOwner(g, CheckOrder[k]) == Empty
  }

  /** The scan the program evidently intends: the player holding the first
      held line in the order of `CheckOrder`, with no all-empty-row stop. */
  function IntendedWinner(g: Grid): (w: Cell)
    ensures w != Empty <==> exists l :: Holds(g, l, w)
    ensures w == Empty ==> forall l, p :: !Holds(g, l, p)
  {
    FirstHeldSound(g, 0);
    FirstHeldComplete(g, 0);
    FirstHeld(g, 0)
  }

  /** `FirstHeld` from `k` finds the first held line at `k` or later. */
  lemma {:induction false} FirstHeldFinds(g: Grid, k: nat, m: nat, p: Cell)
    requires k <= m < |CheckOrder|
    requires Holds(g, CheckOrder[m], p)
    requires forall k' :: k <= k' < m ==> LineOwner(g, CheckOrder[k']) == Empty
    ensures FirstHeld(g, k) == p
    decreases m - k
  {
    if k < m {
      FirstHeldFinds(g, k + 1, m, p);
    }
  }

  /** What `FirstHeld` reports is held by that player. */
  lemma {:induction false} FirstHeldSound(g: Grid, k: nat)
    requires k <= |CheckOrder|
    ensures FirstHeld(g, k) != Empty ==> exists m :: k <= m < |CheckOrder| && Holds(g, CheckOrder[m], FirstHeld(g, k))
    decreases |CheckOrder| - k
  {
    if k < |CheckOrder| && LineOwner(g, CheckOrder[k]) == Empty {
      FirstHeldSound(g, k + 1);
    }
  }

  /** When some line is held, `FirstHeld` from the start reports a player. */
  lemma {:induction false} FirstHeldComplete(g: Grid, k: nat)
    requires k <= |CheckOrder|
    ensures (exists m, p :: k <= m < |CheckOrder| && Holds(g, CheckOrder[m], p)) ==> FirstHeld(g, k) != Empty
    ensures k == 0 ==> forall l, p :: Holds(g, l, p) ==> FirstHeld(g, k) != Empty
    decreases |CheckOrder| - k
  {
    if k < |CheckOrder| && LineOwner(g, CheckOrder[k]) == Empty {
      FirstHeldComplete(g, k + 1);
    }
    if k == 0 {
      forall l, p | Holds(g, l, p)
        ensures FirstHeld(g, k) != Empty
      {
        CheckOrderCoversAllLines(l);
        var m :| 0 <= m < |CheckOrder| && CheckOrder[m] == l;
        assert Holds(g, CheckOrder[m], p);
      }
    }
  }

  /** The scan stops at an all-empty row: row `r` is all empty and no row
      above it is held by a player. */
  predicate StopsAtEmptyRow(g: Grid)
  {
    exists r: Index :: g[r] == [Empty, Empty, Empty] &&
      forall k: Index :: k < r ==> LineOwner(g, Row(k)) == Empty
  }

  /** The program's scan exactly: it reports nobody when it stops at an
      all-empty row, and otherwise the player of the first held line. */
  lemma WinnerExact(g: Grid)
    ensures Winner(g) == if StopsAtEmptyRow(g) then Empty else IntendedWinner(g)
  {
    if StopsAtEmptyRow(g) {
      var r: Index :| g[r] == [Empty, Empty, Empty] &&
        forall k: Index :: k < r ==> LineOwner(g, Row(k)) == Empty;
      EmptyRowStopsScan(g, r);
    }
  }

  /** Unless an all-empty row comes before it, the first held line in the
      scan order decides the winner reported. */
  lemma WinnerIsFirstHeldLine(g: Grid, m: nat, p: Cell)
    requires forall r: Index :: r < m ==> g[r] != [Empty, Empty, Empty]
    requires FirstHeldAt(g, m, p)
    ensures Winner(g) == p
  {
    FirstHeldFinds(g, 0, m, p);
  }

  // ---------------------------------------------------------------------
  // terminal

  /** The game is over when a winner is reported or no row has an empty cell. */
  function Terminal(g: Grid): (t: bool)
    ensures t <==> Winner(g) != Empty || forall i, j :: 0 <= i < 3 && 0 <= j < 3 ==> g[i][j] != Empty
  {
    if Winner(g) != Empty then true
    else !exists i :: 0 <= i < 3 && Empty in g[i]
  }

  /** The game is over exactly when a winner is reported or no action is left. */
  lemma TerminalIffNoMoves(g: Grid)
    ensures Terminal(g) <==> Winner(g) != Empty || Moves(g) == {}
  {
    MovesEmptyIffFull(g);
  }

  // ---------------------------------------------------------------------
  // utility

  /** +1 when X is reported as winner, -1 when O is, 0 otherwise. */
  function Utility(g: Grid): (u: int)
    ensures -1 <= u <= 1
    ensures u == 1 <==> Winner(g) == X
    ensures u == -1 <==> Winner(g) == O
    ensures u == 0 <==> Winner(g) == Empty
  {
    var winPlayer := Winner(g);
    if winPlayer == X then 1
    else if winPlayer == O then -1
    else 0
  }

  /** A non-zero utility is only given to a finished game, and the player it
      favours holds a line. */
  lemma UtilityDecided(g: Grid)
    ensures Utility(g) != 0 ==> Terminal(g)
    ensures Utility(g) == 1 ==> exists l :: Holds(g, l, X)
    ensures Utility(g) == -1 ==> exists l :: Holds(g, l, O)
  {
    WinnerSound(g);
  }
}
