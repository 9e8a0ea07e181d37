/**
 * Check detection, as `ChessAI.is_in_check` does it (chessai.py:345-413):
 * find the side's king, then look for an enemy knight a knight's jump away,
 * an enemy rook or queen first on a file or rank, an enemy bishop or queen
 * first on a diagonal, and an enemy pawn diagonally in front of the king.
 */
module Check {
  import opened Wrappers
  import opened Board
  import opened Rays
  import opened MoveGen

  // ---------------------------------------------------------------- the king

  function KingOf(white: bool): Cell
  {
    Piece(King, ColorOf(white))
  }

  lemma SquareIndexUnique(r1: int, c1: int, r2: int, c2: int)
    requires InBounds(r1, c1) && InBounds(r2, c2) && 8 * r1 + c1 == 8 * r2 + c2
    ensures r1 == r2 && c1 == c2
  {
  }

  /** The square of index n in row-major order. */
  function SquareAt(n: int): (p: (int, int))
    requires 0 <= n < 64
    ensures InBounds(p.0, p.1) && 8 * p.0 + p.1 == n
  {
    (n / 8, n % 8)
  }

  /** The first square, from index n on in row-major order, that holds `king`. */
  function FindFrom(b: Board, king: Cell, n: int): (r: Option<(int, int)>)
    requires 0 <= n <= 64
    ensures r.Some? ==> InBounds(r.value.0, r.value.1)
    decreases 64 - n
  {
    if n == 64 then None
    else if b[n / 8][n % 8] == king then Some(SquareAt(n))
    else FindFrom(b, king, n + 1)
  }

  /** The king's square: the first one in row-major order, as the source's scan finds it. */
  function FindKing(b: Board, white: bool): (r: Option<(int, int)>)
    ensures r.Some? ==> InBounds(r.value.0, r.value.1)
  {
    FindFrom(b, KingOf(white), 0)
  }

  lemma {:induction false} FindFromSpec(b: Board, king: Cell, n: int)
    requires 0 <= n <= 64
    ensures match FindFrom(b, king, n)
      case None => forall i, j | InBounds(i, j) && 8 * i + j >= n :: b[i][j] != king
      case Some(p) => (InBounds(p.0, p.1) && b[p.0][p.1] == king && 8 * p.0 + p.1 >= n &&
        forall i, j | InBounds(i, j) && n <= 8 * i + j < 8 * p.0 + p.1 :: b[i][j] != king)
    decreases 64 - n
  {
    if n < 64 {
      FindFromSpec(b, king, n + 1);
      forall i, j | InBounds(i, j) && 8 * i + j == n ensures i == n / 8 && j == n % 8 {
        SquareIndexUnique(i, j, n / 8, n % 8);
      }
    }
  }

  /**
   * FindKing finds the first king square in row-major order, and finds none
   * exactly when the side has no king on the board.
   */
  lemma FindKingSpec(b: Board, white: bool)
    ensures match FindKing(b, white)
      case None => forall i, j | InBounds(i, j) :: b[i][j] != KingOf(white)
      case Some(p) => (InBounds(p.0, p.1) && b[p.0][p.1] == KingOf(white) &&
        forall i, j | InBounds(i, j) && 8 * i + j < 8 * p.0 + p.1 :: b[i][j] != KingOf(white))
  {
    FindFromSpec(b, KingOf(white), 0);
  }

  /** No square of index m..n-1 holds `king`. */
  ghost predicate NoneIn(b: Board, king: Cell, m: int, n: int)
  {
    forall i, j | InBounds(i, j) && m <= 8 * i + j < n :: b[i][j] != king
  }

  lemma NoneInStep(b: Board, king: Cell, i: int, j: int)
    requires InBounds(i, j) && NoneIn(b, king, 0, 8 * i + j) && b[i][j] != king
    ensures NoneIn(b, king, 0, 8 * i + j + 1)
  {
    forall x, y | InBounds(x, y) && 8 * x + y == 8 * i + j ensures b[x][y] != king {
      SquareIndexUnique(x, y, i, j);
    }
  }

  /** Squares before n that do not hold the king do not change the result. */
  lemma {:induction false} FindFromSkip(b: Board, king: Cell, m: int, n: int)
    requires 0 <= m <= n <= 64
    requires NoneIn(b, king, m, n)
    ensures FindFrom(b, king, m) == FindFrom(b, king, n)
    decreases n - m
  {
    if m < n {
      var p := SquareAt(m);
      assert b[p.0][p.1] != king;
      FindFromSkip(b, king, m + 1, n);
    }
  }

  /** The first square holding `king` is the one the search returns. */
  lemma FindFromFound(b: Board, king: Cell, i: int, j: int)
    requires InBounds(i, j) && b[i][j] == king && NoneIn(b, king, 0, 8 * i + j)
    ensures FindFrom(b, king, 0) == Some((i, j))
  {
    var n := 8 * i + j;
    FindFromSkip(b, king, 0, n);
    var p := SquareAt(n);
    SquareIndexUnique(p.0, p.1, i, j);
  }

  // ---------------------------------------------------------------- attacks

  /** An enemy knight a jump of o away. */
  predicate KnightHit(b: Board, kr: int, kc: int, white: bool, o: (int, int))
  {
    Sq(b, kr + o.0, kc + o.1) == Some(Piece(Knight, EnemyColor(white)))
  }

  predicate KnightCheck(b: Board, kr: int, kc: int, white: bool)
  {
    exists k | 0 <= k < |KnightJumps| :: KnightHit(b, kr, kc, white, KnightJumps[k])
  }

  /** An enemy piece that attacks along the lines of a `kind` piece: that piece or a queen. */
  predicate Slider(x: Cell, white: bool, kind: Kind)
  {
    IsEnemy(x, white) && (x.kind == kind || x.kind == Queen)
  }

  /** The first piece met along d is such an enemy. */
  predicate RayHit(b: Board, kr: int, kc: int, white: bool, d: (int, int), kind: Kind)
    requires InBounds(kr, kc) && IsDir(d)
  {
    var x := FirstOnRay(b, kr, kc, d);
    x.Some? && Slider(x.value, white, kind)
  }

  predicate RayCheck(b: Board, kr: int, kc: int, white: bool, dirs: seq<(int, int)>, kind: Kind)
    requires InBounds(kr, kc) && AllDirs(dirs)
  {
    exists k | 0 <= k < |dirs| :: RayHit(b, kr, kc, white, dirs[k], kind)
  }

  /** An enemy pawn on the row in front of the king (towards the enemy), one column to the side by dc. */
  predicate PawnHit(b: Board, kr: int, kc: int, white: bool, dc: int)
  {
    Sq(b, kr + PawnDir(white), kc + dc) == Some(Piece(Pawn, EnemyColor(white)))
  }

  predicate PawnCheck(b: Board, kr: int, kc: int, white: bool)
  {
    PawnHit(b, kr, kc, white, -1) || PawnHit(b, kr, kc, white, 1)
  }

  /** The four kinds of attack `is_in_check` looks for; an adjacent enemy king is not one of them. */
  predicate Attacked(b: Board, kr: int, kc: int, white: bool)
    requires InBounds(kr, kc)
  {
    KnightCheck(b, kr, kc, white) ||
    RayCheck(b, kr, kc, white, RookDirs, Rook) ||
    RayCheck(b, kr, kc, white, BishopDirs, Bishop) ||
    PawnCheck(b, kr, kc, white)
  }

  /** The side's king is attacked; a board without that king is never in check. */
  predicate InCheck(b: Board, white: bool)
  {
    match FindKing(b, white)
    case None => false
    case Some(p) => Attacked(b, p.0, p.1, white)
  }

  /** A side without its king on the board is never in check. */
  lemma NoKingNoCheck(b: Board, white: bool)
    requires forall i, j | InBounds(i, j) :: b[i][j] != KingOf(white)
    ensures !InCheck(b, white)
  {
    FindKingSpec(b, white);
  }

  // ---------------------------------------------------------------- the method

  /** `is_in_check` (chessai.py:345-413). */
  method IsInCheck(b: Board, white: bool) returns (r: bool)
    ensures r == InCheck(b, white)
  {
    var kingPos := FindKingSquare(b, white);
    if kingPos == None {
      return false;
    }
    var (xk, yk) := kingPos.value;
    var knight := KnightChecks(b, xk, yk, white);
    if knight {
      return true;
    }
    var rook := RayChecks(b, xk, yk, white, RookDirs, Rook);
    if rook {
      return true;
    }
    var bishop := RayChecks(b, xk, yk, white, BishopDirs, Bishop);
    if bishop {
      return true;
    }
    var pawn := PawnChecks(b, xk, yk, white);
    if pawn {
      return true;
    }
    return false;
  }

  /** The king search of `is_in_check` (chessai.py:347-358): row by row, stopping at the first king. */
  method FindKingSquare(b: Board, white: bool) returns (kingPos: Option<(int, int)>)
    ensures kingPos == FindKing(b, white)
  {
    var kingSymbol := KingOf(white);
    kingPos := None;
    for i := 0 to 8
      invariant kingPos == None && NoneIn(b, kingSymbol, 0, 8 * i)
    {
      var col := FindInRow(b, kingSymbol, i);
      if col.Some? {
        var j := col.value;
        FindFromFound(b, kingSymbol, i, j);
        kingPos := Some((i, j));
        break;
      }
    }
    if kingPos == None {
      FindFromSkip(b, kingSymbol, 0, 64);
    }
  }

  /** The inner loop of the king search (chessai.py:349-356): the first column of row i holding the king. */
  method FindInRow(b: Board, king: Cell, i: int) returns (col: Option<int>)
    requires 0 <= i < 8 && NoneIn(b, king, 0, 8 * i)
    ensures col.None? ==> NoneIn(b, king, 0, 8 * i + 8)
    ensures col.Some? ==> 0 <= col.value < 8 && b[i][col.value] == king && NoneIn(b, king, 0, 8 * i + col.value)
  {
    for j := 0 to 8
      invariant NoneIn(b, king, 0, 8 * i + j)
    {
      if b[i][j] == king {
        return Some(j);
      }
      NoneInStep(b, king, i, j);
    }
    return None;
  }

  /** The knight part of `is_in_check` (chessai.py:372-378). */
  method KnightChecks(b: Board, xk: int, yk: int, white: bool) returns (hit: bool)
    ensures hit == KnightCheck(b, xk, yk, white)
  {
    var jumps := KnightJumps;
    for k := 0 to |jumps|
      invariant forall k' | 0 <= k' < k :: !KnightHit(b, xk, yk, white, jumps[k'])
    {
      var (dx, dy) := jumps[k];
      var nx, ny := xk + dx, yk + dy;
      if 0 <= nx < 8 && 0 <= ny < 8 {
        var piece := b[nx][ny];
        if piece == Piece(Knight, EnemyColor(white)) {
          assert KnightHit(b, xk, yk, white, jumps[k]);
          return true;
        }
      }
    }
    return false;
  }

  /** `x + d * k` is the linear offset along a unit direction. */
  lemma OffIsProduct(x: int, d: int, k: int)
    requires -1 <= d <= 1
    ensures x + d * k == Off(x, d, k)
  {
  }

  /** The two straight-line parts of `is_in_check` (chessai.py:380-403): the first piece on each line. */
  method RayChecks(b: Board, xk: int, yk: int, white: bool, dirs: seq<(int, int)>, kind: Kind) returns (hit: bool)
    requires InBounds(xk, yk) && AllDirs(dirs)
    ensures hit == RayCheck(b, xk, yk, white, dirs, kind)
  {
    for k := 0 to |dirs|
      invariant forall k' | 0 <= k' < k :: !RayHit(b, xk, yk, white, dirs[k'], kind)
    {
      var (dx, dy) := dirs[k];
      var found := LineCheck(b, xk, yk, white, dx, dy, kind);
      if found {
        return true;
      }
    }
    return false;
  }

  /** The walk along one line of `is_in_check` (chessai.py:383-391, 394-402): is its first piece an attacker? */
  method LineCheck(b: Board, xk: int, yk: int, white: bool, dx: int, dy: int, kind: Kind) returns (hit: bool)
    requires InBounds(xk, yk) && IsDir((dx, dy))
    ensures hit == RayHit(b, xk, yk, white, (dx, dy), kind)
  {
    ghost var d := (dx, dy);
    ghost var stop := 8;
    for dist := 1 to 8
      invariant EmptyUpTo(b, xk, yk, d, dist - 1)
    {
      OffIsProduct(xk, dx, dist);
      OffIsProduct(yk, dy, dist);
      var nx, ny := xk + dx * dist, yk + dy * dist;
      assert RayCell(b, xk, yk, d, dist) == Sq(b, nx, ny);
      if !(0 <= nx < 8 && 0 <= ny < 8) {
        stop := dist;
        break;
      }
      var piece := b[nx][ny];
      if piece == Empty {
        EmptyUpToStep(b, xk, yk, d, dist - 1);
        continue;
      }
      if IsEnemy(piece, white) && (piece.kind == kind || piece.kind == Queen) {
        RayLengthUnique(b, xk, yk, d, dist - 1);
        return true;
      }
      stop := dist;
      break;
    }
    if stop == 8 {
      RayLeavesBoard(b, xk, yk, d, 8);
    }
    RayLengthUnique(b, xk, yk, d, stop - 1);
    return false;
  }

  /** The pawn part of `is_in_check` (chessai.py:405-411). */
  method PawnChecks(b: Board, xk: int, yk: int, white: bool) returns (hit: bool)
    ensures hit == PawnCheck(b, xk, yk, white)
  {
    var pawnDir := if white then -1 else 1;
    var dxs := [-1, 1];
    for i := 0 to |dxs|
      invariant forall i' | 0 <= i' < i :: !PawnHit(b, xk, yk, white, dxs[i'])
    {
      var px, py := xk + pawnDir, yk + dxs[i];
      if 0 <= px < 8 && 0 <= py < 8 {
        if b[px][py] == Piece(Pawn, EnemyColor(white)) {
          assert PawnHit(b, xk, yk, white, dxs[i]);
          return true;
        }
      }
    }
    assert !PawnHit(b, xk, yk, white, dxs[0]) && !PawnHit(b, xk, yk, white, dxs[1]);
    return false;
  }
}
