/**
 * Straight lines of squares from an origin, as the sliding generators
 * (chessai.py:169-187, 224-242, 257-275) and the check detector
 * (chessai.py:380-403) walk them: distance 1, 2, ... in a direction
 * (dr, dc) with each component in {-1, 0, 1}.
 */
module Rays {
  import opened Wrappers
  import opened Board

  predicate IsDir(d: (int, int))
  {
    -1 <= d.0 <= 1 && -1 <= d.1 <= 1 && d != (0, 0)
  }

  predicate AllDirs(dirs: seq<(int, int)>)
  {
    forall i | 0 <= i < |dirs| :: IsDir(dirs[i])
  }

  /** The coordinate `x + k * d` for a unit step d, kept linear. */
  function Off(x: int, d: int, k: int): int
  {
    if d > 0 then x + k else if d < 0 then x - k else x
  }

  /** One more step along a unit direction moves the coordinate by d. */
  lemma OffStep(x: int, d: int, k: int)
    requires -1 <= d <= 1
    ensures Off(x, d, k + 1) == Off(x, d, k) + d
  {
  }

  /** The cell at distance k along direction d from (r, c); None once off the board. */
  function RayCell(b: Board, r: int, c: int, d: (int, int), k: int): Option<Cell>
  {
    Sq(b, Off(r, d.0, k), Off(c, d.1, k))
  }

  /** From an on-board origin every ray leaves the board by distance 8. */
  lemma RayLeavesBoard(b: Board, r: int, c: int, d: (int, int), k: int)
    requires InBounds(r, c) && IsDir(d) && k >= 8
    ensures RayCell(b, r, c, d, k) == None
  {
  }

  /** The squares at distances 1..n along d are all empty. */
  predicate EmptyUpTo(b: Board, r: int, c: int, d: (int, int), n: int)
  {
    forall j | 1 <= j <= n :: RayCell(b, r, c, d, j) == Some(Empty)
  }

  lemma EmptyUpToStep(b: Board, r: int, c: int, d: (int, int), n: int)
    requires EmptyUpTo(b, r, c, d, n) && RayCell(b, r, c, d, n + 1) == Some(Empty)
    ensures EmptyUpTo(b, r, c, d, n + 1)
  {
  }

  /** The last distance, from k - 1 on, up to which the ray is empty. */
  function EmptyRun(b: Board, r: int, c: int, d: (int, int), k: int): int
    requires InBounds(r, c) && IsDir(d) && 1 <= k <= 8
    decreases 8 - k
  {
    if RayCell(b, r, c, d, k) == Some(Empty) then
      RayLeavesBoard(b, r, c, d, 8);
      EmptyRun(b, r, c, d, k + 1)
    else
      k - 1
  }

  /** The number of empty squares before the ray meets a piece or the edge. */
  function RayLength(b: Board, r: int, c: int, d: (int, int)): int
    requires InBounds(r, c) && IsDir(d)
  {
    EmptyRun(b, r, c, d, 1)
  }

  /** The first piece on a ray, or None when the ray runs off the board first. */
  function FirstOnRay(b: Board, r: int, c: int, d: (int, int)): Option<Cell>
    requires InBounds(r, c) && IsDir(d)
  {
    RayCell(b, r, c, d, RayLength(b, r, c, d) + 1)
  }

  lemma {:induction false} EmptyRunSpec(b: Board, r: int, c: int, d: (int, int), k: int)
    requires InBounds(r, c) && IsDir(d) && 1 <= k <= 8
    requires forall j | 1 <= j < k :: RayCell(b, r, c, d, j) == Some(Empty)
    ensures var n := EmptyRun(b, r, c, d, k);
      k - 1 <= n <= 7 &&
      (forall j | 1 <= j <= n :: RayCell(b, r, c, d, j) == Some(Empty)) &&
      RayCell(b, r, c, d, n + 1) != Some(Empty)
    decreases 8 - k
  {
    RayLeavesBoard(b, r, c, d, 8);
    if RayCell(b, r, c, d, k) == Some(Empty) {
      EmptyRunSpec(b, r, c, d, k + 1);
    }
  }

  /**
   * RayLength is the number n of empty squares at distances 1..n, the square
   * at distance n + 1 being off the board or occupied.
   */
  lemma RayLengthSpec(b: Board, r: int, c: int, d: (int, int))
    requires InBounds(r, c) && IsDir(d)
    ensures var n := RayLength(b, r, c, d);
      0 <= n <= 7 &&
      (forall j | 1 <= j <= n :: RayCell(b, r, c, d, j) == Some(Empty)) &&
      RayCell(b, r, c, d, n + 1) != Some(Empty)
  {
    EmptyRunSpec(b, r, c, d, 1);
  }

  /** Those two facts determine RayLength. */
  lemma RayLengthUnique(b: Board, r: int, c: int, d: (int, int), n: int)
    requires InBounds(r, c) && IsDir(d) && n >= 0
    requires EmptyUpTo(b, r, c, d, n)
    requires RayCell(b, r, c, d, n + 1) != Some(Empty)
    ensures RayLength(b, r, c, d) == n
  {
    RayLengthSpec(b, r, c, d);
  }
}
