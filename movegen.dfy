/**
 * Pseudo-legal move generation, as `ChessAI.generate_*_moves` do it
 * (chessai.py:128-300): each generator turns a board and an origin square
 * into a list of (successor board, notation) pairs.
 *
 * Each generator is specified by a function that lists the moves it makes
 * as `Move` values (piece, source, destination, capture); `MovesOf` turns
 * those into the pairs the source appends.
 */
module MoveGen {
  import opened Wrappers
  import opened Board
  import opened Rays
  import opened Notation

  /** One move of one piece: the logical edge behind a (board, notation) pair. */
  datatype Move = Move(kind: Kind, fromRow: int, fromCol: int, toRow: int, toCol: int, capture: bool)

  predicate OnBoard(m: Move)
  {
    InBounds(m.fromRow, m.fromCol) && InBounds(m.toRow, m.toCol)
  }

  /** The letter each generator passes to `to_notation`. */
  function Letter(k: Kind): char
  {
    match k
    case Pawn => 'p'
    case Knight => 'N'
    case Bishop => 'B'
    case Rook => 'R'
    case Queen => 'Q'
    case King => 'K'
  }

  /**
   * The pair the source appends for a move: the copied and updated board, and
   * the notation. No generator makes an off-board move (see TargetOk); such a
   * move is given the board unchanged and an empty notation.
   */
  function MoveOf(b: Board, m: Move): (Board, string)
  {
    if OnBoard(m) then
      (Apply(b, m.fromRow, m.fromCol, m.toRow, m.toCol),
       ToNotation(Letter(m.kind), m.capture, m.toRow, m.toCol, m.fromRow, m.fromCol))
    else (b, "")
  }

  function MovesOf(b: Board, ms: seq<Move>): (r: seq<(Board, string)>)
    ensures |r| == |ms|
  {
    if |ms| == 0 then [] else MovesOf(b, ms[..|ms| - 1]) + [MoveOf(b, ms[|ms| - 1])]
  }

  /** The pairs are the moves' pairs, in the same order. */
  lemma {:induction false} MovesOfAt(b: Board, ms: seq<Move>)
    ensures forall i | 0 <= i < |ms| :: MovesOf(b, ms)[i] == MoveOf(b, ms[i])
  {
    if |ms| > 0 {
      MovesOfAt(b, ms[..|ms| - 1]);
    }
  }

  lemma {:induction false} MovesOfAppend(b: Board, xs: seq<Move>, ys: seq<Move>)
    ensures MovesOf(b, xs + ys) == MovesOf(b, xs) + MovesOf(b, ys)
  {
    if |ys| > 0 {
      var init := ys[..|ys| - 1];
      assert (xs + ys)[..|xs + ys| - 1] == xs + init;
      assert (xs + ys)[|xs + ys| - 1] == ys[|ys| - 1];
      MovesOfAppend(b, xs, init);
    } else {
      assert xs + ys == xs;
    }
  }

  lemma MovesOfSnoc(b: Board, xs: seq<Move>, m: Move)
    ensures MovesOf(b, xs + [m]) == MovesOf(b, xs) + [MoveOf(b, m)]
  {
    MovesOfAppend(b, xs, [m]);
  }

  /**
   * A move of a `kind` piece from (r, c): it lands on another on-board square,
   * never on a friendly piece, and captures exactly when that square holds an
   * enemy piece.
   */
  predicate TargetOk(b: Board, white: bool, kind: Kind, r: int, c: int, m: Move)
  {
    OnBoard(m) && m.kind == kind && m.fromRow == r && m.fromCol == c &&
    (m.toRow, m.toCol) != (r, c) &&
    !IsFriendly(b[m.toRow][m.toCol], white) &&
    m.capture == IsEnemy(b[m.toRow][m.toCol], white)
  }

  predicate AllOk(b: Board, white: bool, kind: Kind, r: int, c: int, ms: seq<Move>)
  {
    forall i | 0 <= i < |ms| :: TargetOk(b, white, kind, r, c, ms[i])
  }

  lemma AllOkAppend(b: Board, white: bool, kind: Kind, r: int, c: int, xs: seq<Move>, ys: seq<Move>)
    requires AllOk(b, white, kind, r, c, xs) && AllOk(b, white, kind, r, c, ys)
    ensures AllOk(b, white, kind, r, c, xs + ys)
  {
    forall i | 0 <= i < |xs + ys| ensures TargetOk(b, white, kind, r, c, (xs + ys)[i]) {
      if i >= |xs| { assert (xs + ys)[i] == ys[i - |xs|]; }
    }
  }

  // ---------------------------------------------------------------- pawns

  /** White pawns move up the board (towards row 0), black pawns down. */
  function PawnDir(white: bool): int
  {
    if white then -1 else 1
  }

  function PawnStartRow(white: bool): int
  {
    if white then 6 else 1
  }

  /** The single step onto an empty square and, from the start row, the double step. */
  function PawnPushes(b: Board, r: int, c: int, white: bool): (ms: seq<Move>)
    requires InBounds(r, c)
  {
    var dir := PawnDir(white);
    if 0 <= r + dir < 8 && b[r + dir][c] == Empty then
      [Move(Pawn, r, c, r + dir, c, false)] +
      (if r == PawnStartRow(white) && b[r + 2 * dir][c] == Empty
       then [Move(Pawn, r, c, r + 2 * dir, c, false)] else [])
    else []
  }

  /** The diagonal step by dc, made only onto an enemy piece. */
  function PawnCapture(b: Board, r: int, c: int, white: bool, dc: int): (ms: seq<Move>)
    requires InBounds(r, c)
  {
    var nr, nc := r + PawnDir(white), c + dc;
    if InBounds(nr, nc) && IsEnemy(b[nr][nc], white) then [Move(Pawn, r, c, nr, nc, true)] else []
  }

  function PawnCaptures(b: Board, r: int, c: int, white: bool, dcs: seq<int>): (ms: seq<Move>)
    requires InBounds(r, c)
  {
    if |dcs| == 0 then []
    else PawnCaptures(b, r, c, white, dcs[..|dcs| - 1]) + PawnCapture(b, r, c, white, dcs[|dcs| - 1])
  }

  const PawnCaptureCols: seq<int> := [-1, 1]

  function PawnTargets(b: Board, r: int, c: int, white: bool): (ms: seq<Move>)
    requires InBounds(r, c)
  {
    PawnPushes(b, r, c, white) + PawnCaptures(b, r, c, white, PawnCaptureCols)
  }

  /** The pawn rules, stated move by move. */
  predicate PawnRule(b: Board, r: int, c: int, white: bool, m: Move)
  {
    PushRule(b, r, c, white, m) || CaptureRule(b, r, c, white, m)
  }

  /** A single step onto an empty square, or a double step from the start row over two empty squares. */
  predicate PushRule(b: Board, r: int, c: int, white: bool, m: Move)
  {
    var dir := PawnDir(white);
    (m == Move(Pawn, r, c, r + dir, c, false) && Sq(b, r + dir, c) == Some(Empty)) ||
    (m == Move(Pawn, r, c, r + 2 * dir, c, false) && r == PawnStartRow(white) &&
     Sq(b, r + dir, c) == Some(Empty) && Sq(b, r + 2 * dir, c) == Some(Empty))
  }

  /** A diagonal step onto an enemy piece. */
  predicate CaptureRule(b: Board, r: int, c: int, white: bool, m: Move)
  {
    m.kind == Pawn && m.fromRow == r && m.fromCol == c && m.toRow == r + PawnDir(white) &&
    (m.toCol == c - 1 || m.toCol == c + 1) && m.capture &&
    Sq(b, m.toRow, m.toCol).Some? && IsEnemy(Sq(b, m.toRow, m.toCol).value, white)
  }

  lemma PawnPushesExact(b: Board, r: int, c: int, white: bool, m: Move)
    requires InBounds(r, c)
    ensures m in PawnPushes(b, r, c, white) <==> PushRule(b, r, c, white, m)
  {
  }

  lemma PawnCapturesExact(b: Board, r: int, c: int, white: bool, m: Move)
    requires InBounds(r, c)
    ensures m in PawnCaptures(b, r, c, white, PawnCaptureCols) <==> CaptureRule(b, r, c, white, m)
  {
    PawnCapturesBoth(b, r, c, white);
  }

  /** The two diagonals, left then right. */
  lemma PawnCapturesBoth(b: Board, r: int, c: int, white: bool)
    requires InBounds(r, c)
    ensures PawnCaptures(b, r, c, white, PawnCaptureCols)
         == PawnCapture(b, r, c, white, -1) + PawnCapture(b, r, c, white, 1)
  {
    assert PawnCaptureCols[..1] == [-1] && [-1][..0] == [];
    assert PawnCaptures(b, r, c, white, [-1]) == PawnCapture(b, r, c, white, -1);
  }

  /** Every pawn move lands on another square, not on a friendly piece, and captures what it lands on. */
  lemma PawnTargetsOk(b: Board, r: int, c: int, white: bool)
    requires InBounds(r, c)
    ensures AllOk(b, white, Pawn, r, c, PawnTargets(b, r, c, white))
  {
    PawnCapturesBoth(b, r, c, white);
    var left, right := PawnCapture(b, r, c, white, -1), PawnCapture(b, r, c, white, 1);
    PawnPushesOk(b, r, c, white);
    PawnCaptureOk(b, r, c, white, -1);
    PawnCaptureOk(b, r, c, white, 1);
    AllOkAppend(b, white, Pawn, r, c, left, right);
    AllOkAppend(b, white, Pawn, r, c, PawnPushes(b, r, c, white), left + right);
  }

  lemma PawnPushesOk(b: Board, r: int, c: int, white: bool)
    requires InBounds(r, c)
    ensures AllOk(b, white, Pawn, r, c, PawnPushes(b, r, c, white))
  {
  }

  lemma PawnCaptureOk(b: Board, r: int, c: int, white: bool, dc: int)
    requires InBounds(r, c)
    ensures AllOk(b, white, Pawn, r, c, PawnCapture(b, r, c, white, dc))
  {
  }

  /**
   * A pawn makes exactly the moves of the rules: a single step onto an empty
   * square, a double step from its start row over two empty squares, and a
   * diagonal step onto an enemy piece.
   */
  lemma PawnTargetsExact(b: Board, r: int, c: int, white: bool)
    requires InBounds(r, c)
    ensures forall m :: m in PawnTargets(b, r, c, white) <==> PawnRule(b, r, c, white, m)
  {
    forall m ensures m in PawnTargets(b, r, c, white) <==> PawnRule(b, r, c, white, m) {
      PawnPushesExact(b, r, c, white, m);
      PawnCapturesExact(b, r, c, white, m);
    }
  }

  // ---------------------------------------------------------------- knights and kings

  const KnightJumps: seq<(int, int)> := [(-2, -1), (-2, 1), (-1, -2), (-1, 2), (1, -2), (1, 2), (2, -1), (2, 1)]

  const KingSteps: seq<(int, int)> := [(-1, -1), (-1, 0), (-1, 1), (0, -1), (0, 1), (1, -1), (1, 0), (1, 1)]

  predicate NonZero(offs: seq<(int, int)>)
  {
    forall i | 0 <= i < |offs| :: offs[i] != (0, 0)
  }

  /** The jump by o lands on the board and not on a friendly piece. */
  predicate CanJump(b: Board, r: int, c: int, white: bool, o: (int, int))
  {
    InBounds(r + o.0, c + o.1) && !IsFriendly(b[r + o.0][c + o.1], white)
  }

  function JumpMove(b: Board, r: int, c: int, white: bool, kind: Kind, o: (int, int)): Move
    requires CanJump(b, r, c, white, o)
  {
    Move(kind, r, c, r + o.0, c + o.1, IsEnemy(b[r + o.0][c + o.1], white))
  }

  /** The move, if any, that the jump by o gives. */
  function JumpStep(b: Board, r: int, c: int, white: bool, kind: Kind, o: (int, int)): (ms: seq<Move>)
    requires InBounds(r, c) && o != (0, 0)
  {
    if CanJump(b, r, c, white, o) then [JumpMove(b, r, c, white, kind, o)] else []
  }

  /** The single-step moves of a knight or king, in the order of its offset table. */
  function JumpTargets(b: Board, r: int, c: int, white: bool, kind: Kind, offs: seq<(int, int)>): (ms: seq<Move>)
    requires InBounds(r, c) && NonZero(offs)
  {
    if |offs| == 0 then []
    else JumpTargets(b, r, c, white, kind, offs[..|offs| - 1]) + JumpStep(b, r, c, white, kind, offs[|offs| - 1])
  }

  /** Every knight or king move lands on another square, not on a friendly piece, and captures what it lands on. */
  lemma {:induction false} JumpTargetsOk(b: Board, r: int, c: int, white: bool, kind: Kind, offs: seq<(int, int)>)
    requires InBounds(r, c) && NonZero(offs)
    ensures AllOk(b, white, kind, r, c, JumpTargets(b, r, c, white, kind, offs))
  {
    if |offs| > 0 {
      JumpTargetsOk(b, r, c, white, kind, offs[..|offs| - 1]);
      AllOkAppend(b, white, kind, r, c, JumpTargets(b, r, c, white, kind, offs[..|offs| - 1]),
        JumpStep(b, r, c, white, kind, offs[|offs| - 1]));
    }
  }

  /** Some offset of offs allows the jump that makes m. */
  predicate JumpAllows(b: Board, r: int, c: int, white: bool, kind: Kind, offs: seq<(int, int)>, m: Move)
  {
    exists i | 0 <= i < |offs| :: CanJump(b, r, c, white, offs[i]) && m == JumpMove(b, r, c, white, kind, offs[i])
  }

  /** A knight or king move is in the list exactly when one of the offsets allows it. */
  lemma {:induction false} JumpTargetsExact(b: Board, r: int, c: int, white: bool, kind: Kind, offs: seq<(int, int)>)
    requires InBounds(r, c) && NonZero(offs)
    ensures forall m :: m in JumpTargets(b, r, c, white, kind, offs) <==> JumpAllows(b, r, c, white, kind, offs, m)
  {
    if |offs| > 0 {
      JumpTargetsExact(b, r, c, white, kind, offs[..|offs| - 1]);
      forall m ensures m in JumpTargets(b, r, c, white, kind, offs) <==> JumpAllows(b, r, c, white, kind, offs, m) {
        JumpTargetsLast(b, r, c, white, kind, offs, m);
      }
    }
  }

  /** The step of JumpTargetsExact: the last offset adds its own jump. */
  lemma JumpTargetsLast(b: Board, r: int, c: int, white: bool, kind: Kind, offs: seq<(int, int)>, m: Move)
    requires InBounds(r, c) && NonZero(offs) && |offs| > 0
    requires m in JumpTargets(b, r, c, white, kind, offs[..|offs| - 1]) <==>
      JumpAllows(b, r, c, white, kind, offs[..|offs| - 1], m)
    ensures m in JumpTargets(b, r, c, white, kind, offs) <==> JumpAllows(b, r, c, white, kind, offs, m)
  {
    var init := offs[..|offs| - 1];
    if JumpAllows(b, r, c, white, kind, init, m) {
      var i :| 0 <= i < |init| && CanJump(b, r, c, white, init[i]) && m == JumpMove(b, r, c, white, kind, init[i]);
      assert offs[i] == init[i];
    }
    if JumpAllows(b, r, c, white, kind, offs, m) {
      var i :| 0 <= i < |offs| && CanJump(b, r, c, white, offs[i]) && m == JumpMove(b, r, c, white, kind, offs[i]);
      if i < |init| {
        assert init[i] == offs[i];
      }
    }
  }

  // ---------------------------------------------------------------- sliding pieces

  const RookDirs: seq<(int, int)> := [(-1, 0), (1, 0), (0, -1), (0, 1)]

  const BishopDirs: seq<(int, int)> := [(-1, -1), (-1, 1), (1, -1), (1, 1)]

  const QueenDirs: seq<(int, int)> := RookDirs + BishopDirs

  /** The move to the square at distance k along d; it captures when that square is occupied. */
  function RayMove(b: Board, r: int, c: int, kind: Kind, d: (int, int), k: int): Move
  {
    Move(kind, r, c, Off(r, d.0, k), Off(c, d.1, k), RayCell(b, r, c, d, k) != Some(Empty))
  }

  /** How far a slide along d goes: over the empty squares, and onto the first piece if it is an enemy. */
  function Reach(b: Board, r: int, c: int, white: bool, d: (int, int)): int
    requires InBounds(r, c) && IsDir(d)
  {
    var n := RayLength(b, r, c, d);
    var stop := RayCell(b, r, c, d, n + 1);
    if stop.Some? && IsEnemy(stop.value, white) then n + 1 else n
  }

  /** The moves of a sliding piece along one direction, nearest square first. */
  function RayTargets(b: Board, r: int, c: int, white: bool, kind: Kind, d: (int, int)): (ms: seq<Move>)
    requires InBounds(r, c) && IsDir(d)
  {
    RayPrefix(b, r, c, kind, d, Reach(b, r, c, white, d))
  }

  lemma RayTargetsOk(b: Board, r: int, c: int, white: bool, kind: Kind, d: (int, int))
    requires InBounds(r, c) && IsDir(d)
    ensures AllOk(b, white, kind, r, c, RayPrefix(b, r, c, kind, d, Reach(b, r, c, white, d)))
  {
    RayLengthSpec(b, r, c, d);
    var n := RayLength(b, r, c, d);
    var ms := RayPrefix(b, r, c, kind, d, Reach(b, r, c, white, d));
    forall j | 0 <= j < |ms| ensures TargetOk(b, white, kind, r, c, ms[j]) {
      assert ms[j] == RayMove(b, r, c, kind, d, j + 1);
      if j < n {
        assert RayCell(b, r, c, d, j + 1) == Some(Empty);
      } else {
        assert j == n;
      }
    }
  }

  /** The moves to distances 1..n along d, nearest first. */
  function RayPrefix(b: Board, r: int, c: int, kind: Kind, d: (int, int), n: nat): (ms: seq<Move>)
  {
    seq(n, j requires 0 <= j < n => RayMove(b, r, c, kind, d, j + 1))
  }

  /** The square at distance k is one a slide along d may move to. */
  predicate SlideReaches(b: Board, r: int, c: int, white: bool, d: (int, int), k: int)
  {
    RayCell(b, r, c, d, k).Some? && !IsFriendly(RayCell(b, r, c, d, k).value, white) &&
    forall j | 1 <= j < k :: RayCell(b, r, c, d, j) == Some(Empty)
  }

  /**
   * A slide stops at the first occupied square: it reaches distance k exactly
   * when every nearer square is empty and square k is on the board and not
   * friendly, so an enemy piece is captured and ends the slide, a friendly
   * piece ends it with no move, and only on-board squares are produced.
   */
  lemma RayTargetsExact(b: Board, r: int, c: int, white: bool, kind: Kind, d: (int, int))
    requires InBounds(r, c) && IsDir(d)
    ensures var ms := RayTargets(b, r, c, white, kind, d);
      (forall k | k >= 1 :: k <= |ms| <==> SlideReaches(b, r, c, white, d, k)) &&
      (forall j | 0 <= j < |ms| :: ms[j] == RayMove(b, r, c, kind, d, j + 1))
  {
    RayLengthSpec(b, r, c, d);
    var n := RayLength(b, r, c, d);
    forall k | k >= 1 ensures k <= Reach(b, r, c, white, d) <==> SlideReaches(b, r, c, white, d, k) {
      if k > n + 1 {
        assert RayCell(b, r, c, d, n + 1) != Some(Empty);
      }
    }
  }

  function SlideTargets(b: Board, r: int, c: int, white: bool, kind: Kind, dirs: seq<(int, int)>): (ms: seq<Move>)
    requires InBounds(r, c) && AllDirs(dirs)
  {
    if |dirs| == 0 then []
    else SlideTargets(b, r, c, white, kind, dirs[..|dirs| - 1]) + RayTargets(b, r, c, white, kind, dirs[|dirs| - 1])
  }

  /** Every rook, bishop or queen move lands on another square, not on a friendly piece, and captures what it lands on. */
  lemma {:induction false} SlideTargetsOk(b: Board, r: int, c: int, white: bool, kind: Kind, dirs: seq<(int, int)>)
    requires InBounds(r, c) && AllDirs(dirs)
    ensures AllOk(b, white, kind, r, c, SlideTargets(b, r, c, white, kind, dirs))
  {
    if |dirs| > 0 {
      SlideTargetsOk(b, r, c, white, kind, dirs[..|dirs| - 1]);
      RayTargetsOk(b, r, c, white, kind, dirs[|dirs| - 1]);
      AllOkAppend(b, white, kind, r, c, SlideTargets(b, r, c, white, kind, dirs[..|dirs| - 1]),
        RayTargets(b, r, c, white, kind, dirs[|dirs| - 1]));
    }
  }

  /** A slide along d reaches some distance k (a ray has at most 7 squares) and moves there. */
  predicate RayAllows(b: Board, r: int, c: int, white: bool, kind: Kind, d: (int, int), m: Move)
  {
    exists k | 1 <= k < 8 :: SlideReaches(b, r, c, white, d, k) && m == RayMove(b, r, c, kind, d, k)
  }

  /** A move is on the ray's list exactly when the slide along d allows it. */
  lemma RayTargetsMember(b: Board, r: int, c: int, white: bool, kind: Kind, d: (int, int), m: Move)
    requires InBounds(r, c) && IsDir(d)
    ensures m in RayTargets(b, r, c, white, kind, d) <==> RayAllows(b, r, c, white, kind, d, m)
  {
    var ms := RayTargets(b, r, c, white, kind, d);
    RayTargetsExact(b, r, c, white, kind, d);
    if m in ms {
      var j :| 0 <= j < |ms| && ms[j] == m;
      assert SlideReaches(b, r, c, white, d, j + 1) && m == RayMove(b, r, c, kind, d, j + 1);
    }
    if RayAllows(b, r, c, white, kind, d, m) {
      var k :| 1 <= k < 8 && SlideReaches(b, r, c, white, d, k) && m == RayMove(b, r, c, kind, d, k);
      assert ms[k - 1] == m;
    }
  }

  /** The move lists of the rays along dirs, one per direction. */
  function RayLists(b: Board, r: int, c: int, white: bool, kind: Kind, dirs: seq<(int, int)>): (ls: seq<seq<Move>>)
    requires InBounds(r, c) && AllDirs(dirs)
    ensures |ls| == |dirs|
  {
    if |dirs| == 0 then []
    else RayLists(b, r, c, white, kind, dirs[..|dirs| - 1]) + [RayTargets(b, r, c, white, kind, dirs[|dirs| - 1])]
  }

  lemma {:induction false} RayListsAt(b: Board, r: int, c: int, white: bool, kind: Kind, dirs: seq<(int, int)>, k: int)
    requires InBounds(r, c) && AllDirs(dirs) && 0 <= k < |dirs|
    ensures RayLists(b, r, c, white, kind, dirs)[k] == RayTargets(b, r, c, white, kind, dirs[k])
  {
    if k < |dirs| - 1 {
      RayListsAt(b, r, c, white, kind, dirs[..|dirs| - 1], k);
    }
  }

  /** m is on one of the lists. */
  predicate InSome(ls: seq<seq<Move>>, m: Move)
  {
    exists i | 0 <= i < |ls| :: m in ls[i]
  }

  lemma InSomeSnoc(ls: seq<seq<Move>>, m: Move)
    requires |ls| > 0
    ensures InSome(ls, m) <==> InSome(ls[..|ls| - 1], m) || m in ls[|ls| - 1]
  {
    var init := ls[..|ls| - 1];
    if InSome(init, m) {
      var i :| 0 <= i < |init| && m in init[i];
      assert ls[i] == init[i];
    }
  }

  /** The moves of a rook, bishop or queen are exactly those of its rays. */
  lemma {:induction false} SlideTargetsExact(b: Board, r: int, c: int, white: bool, kind: Kind, dirs: seq<(int, int)>)
    requires InBounds(r, c) && AllDirs(dirs)
    ensures forall m :: m in SlideTargets(b, r, c, white, kind, dirs) <==> InSome(RayLists(b, r, c, white, kind, dirs), m)
  {
    if |dirs| > 0 {
      var init := dirs[..|dirs| - 1];
      SlideTargetsExact(b, r, c, white, kind, init);
      var ls := RayLists(b, r, c, white, kind, dirs);
      assert ls[..|ls| - 1] == RayLists(b, r, c, white, kind, init);
      forall m ensures m in SlideTargets(b, r, c, white, kind, dirs) <==> InSome(ls, m) {
        InSomeSnoc(ls, m);
      }
    }
  }

  /** Some direction of dirs allows the slide that makes m. */
  predicate SlideAllows(b: Board, r: int, c: int, white: bool, kind: Kind, dirs: seq<(int, int)>, m: Move)
  {
    exists i | 0 <= i < |dirs| :: RayAllows(b, r, c, white, kind, dirs[i], m)
  }

  /**
   * A rook, bishop or queen makes exactly the moves of its rules: along one
   * of its directions, every nearer square empty and the destination on the
   * board and not friendly.
   */
  lemma SlideRules(b: Board, r: int, c: int, white: bool, kind: Kind, dirs: seq<(int, int)>, m: Move)
    requires InBounds(r, c) && AllDirs(dirs)
    ensures m in SlideTargets(b, r, c, white, kind, dirs) <==> SlideAllows(b, r, c, white, kind, dirs, m)
  {
    SlideTargetsExact(b, r, c, white, kind, dirs);
    var ls := RayLists(b, r, c, white, kind, dirs);
    if m in SlideTargets(b, r, c, white, kind, dirs) {
      var i :| 0 <= i < |ls| && m in ls[i];
      RayListsAt(b, r, c, white, kind, dirs, i);
      RayTargetsMember(b, r, c, white, kind, dirs[i], m);
    }
    if SlideAllows(b, r, c, white, kind, dirs, m) {
      var i :| 0 <= i < |dirs| && RayAllows(b, r, c, white, kind, dirs[i], m);
      RayListsAt(b, r, c, white, kind, dirs, i);
      RayTargetsMember(b, r, c, white, kind, dirs[i], m);
    }
  }

  // ---------------------------------------------------------------- the whole board

  /** A move of the piece standing on its source square, of the side to move, by that piece's rules. */
  predicate PieceMoveOk(b: Board, white: bool, m: Move)
  {
    InBounds(m.fromRow, m.fromCol) && b[m.fromRow][m.fromCol] == Piece(m.kind, ColorOf(white)) &&
    TargetOk(b, white, m.kind, m.fromRow, m.fromCol, m)
  }

  predicate AllPieceMovesOk(b: Board, white: bool, ms: seq<Move>)
  {
    forall i | 0 <= i < |ms| :: PieceMoveOk(b, white, ms[i])
  }

  lemma AllPieceMovesOkAppend(b: Board, white: bool, xs: seq<Move>, ys: seq<Move>)
    requires AllPieceMovesOk(b, white, xs) && AllPieceMovesOk(b, white, ys)
    ensures AllPieceMovesOk(b, white, xs + ys)
  {
    forall i | 0 <= i < |xs + ys| ensures PieceMoveOk(b, white, (xs + ys)[i]) {
      if i >= |xs| { assert (xs + ys)[i] == ys[i - |xs|]; }
    }
  }

  /** The moves of the piece on (r, c) when it belongs to the side to move, by the generator its letter selects. */
  function PieceTargets(b: Board, r: int, c: int, white: bool): (ms: seq<Move>)
    requires InBounds(r, c)
  {
    var x := b[r][c];
    if !IsFriendly(x, white) then []
    else
      match x.kind
      case Pawn => PawnTargets(b, r, c, white)
      case Rook => SlideTargets(b, r, c, white, Rook, RookDirs)
      case Knight => JumpTargets(b, r, c, white, Knight, KnightJumps)
      case Bishop => SlideTargets(b, r, c, white, Bishop, BishopDirs)
      case Queen => SlideTargets(b, r, c, white, Queen, QueenDirs)
      case King => JumpTargets(b, r, c, white, King, KingSteps)
  }

  /** The piece on (r, c) makes only moves of its own kind, by its own rules. */
  lemma PieceTargetsOk(b: Board, r: int, c: int, white: bool)
    requires InBounds(r, c)
    ensures IsFriendly(b[r][c], white) ==> AllOk(b, white, b[r][c].kind, r, c, PieceTargets(b, r, c, white))
    ensures AllPieceMovesOk(b, white, PieceTargets(b, r, c, white))
  {
    var x := b[r][c];
    if IsFriendly(x, white) {
      match x.kind
      case Pawn => PawnTargetsOk(b, r, c, white);
      case Rook => SlideTargetsOk(b, r, c, white, Rook, RookDirs);
      case Knight => JumpTargetsOk(b, r, c, white, Knight, KnightJumps);
      case Bishop => SlideTargetsOk(b, r, c, white, Bishop, BishopDirs);
      case Queen => SlideTargetsOk(b, r, c, white, Queen, QueenDirs);
      case King => JumpTargetsOk(b, r, c, white, King, KingSteps);
    }
  }

  /** The moves of the first j squares of row i, left to right. */
  function RowTargets(b: Board, white: bool, i: int, j: int): (ms: seq<Move>)
    requires 0 <= i < 8 && 0 <= j <= 8
  {
    if j == 0 then [] else RowTargets(b, white, i, j - 1) + PieceTargets(b, i, j - 1, white)
  }

  lemma {:induction false} RowTargetsOk(b: Board, white: bool, i: int, j: int)
    requires 0 <= i < 8 && 0 <= j <= 8
    ensures AllPieceMovesOk(b, white, RowTargets(b, white, i, j))
  {
    if j > 0 {
      RowTargetsOk(b, white, i, j - 1);
      PieceTargetsOk(b, i, j - 1, white);
      AllPieceMovesOkAppend(b, white, RowTargets(b, white, i, j - 1), PieceTargets(b, i, j - 1, white));
    }
  }

  /** The moves of the first i rows: the order `get_succs` scans the board in. */
  function BoardTargets(b: Board, white: bool, i: int): (ms: seq<Move>)
    requires 0 <= i <= 8
  {
    if i == 0 then [] else BoardTargets(b, white, i - 1) + RowTargets(b, white, i - 1, 8)
  }

  lemma {:induction false} BoardTargetsOk(b: Board, white: bool, i: int)
    requires 0 <= i <= 8
    ensures AllPieceMovesOk(b, white, BoardTargets(b, white, i))
  {
    if i > 0 {
      BoardTargetsOk(b, white, i - 1);
      RowTargetsOk(b, white, i - 1, 8);
      AllPieceMovesOkAppend(b, white, BoardTargets(b, white, i - 1), RowTargets(b, white, i - 1, 8));
    }
  }

  /** Every pseudo-legal move of the side to move. */
  function PseudoTargets(b: Board, white: bool): seq<Move>
  {
    BoardTargets(b, white, 8)
  }

  /**
   * Every pseudo-legal move is made by a piece of the side to move from its
   * own square, by that piece's rules: onto another on-board square that
   * does not hold a friendly piece, capturing exactly when it holds an enemy.
   */
  lemma PseudoTargetsOk(b: Board, white: bool)
    ensures AllPieceMovesOk(b, white, PseudoTargets(b, white))
  {
    BoardTargetsOk(b, white, 8);
  }

  /** What `get_succs` collects before filtering. */
  function PseudoMoves(b: Board, white: bool): seq<(Board, string)>
  {
    MovesOf(b, PseudoTargets(b, white))
  }

  /**
   * Every pair `get_succs` collects before filtering is a piece of the side
   * to move making a move by its rules: the board with that piece moved onto
   * another square, and the move's notation.
   */
  lemma PseudoMovesAt(b: Board, white: bool, i: int)
    requires 0 <= i < |PseudoMoves(b, white)|
    ensures var m := PseudoTargets(b, white)[i];
      PieceMoveOk(b, white, m) &&
      PseudoMoves(b, white)[i] == (Apply(b, m.fromRow, m.fromCol, m.toRow, m.toCol),
        ToNotation(Letter(m.kind), m.capture, m.toRow, m.toCol, m.fromRow, m.fromCol))
  {
    PseudoTargetsOk(b, white);
    MovesOfAt(b, PseudoTargets(b, white));
  }

  lemma PieceTargetsFrom(b: Board, r: int, c: int, white: bool, m: Move)
    requires InBounds(r, c)
    ensures m in PieceTargets(b, r, c, white) ==> m.fromRow == r && m.fromCol == c
  {
    PieceTargetsOk(b, r, c, white);
    var ms := PieceTargets(b, r, c, white);
    if m in ms {
      var i :| 0 <= i < |ms| && ms[i] == m;
      assert TargetOk(b, white, b[r][c].kind, r, c, ms[i]);
    }
  }

  lemma {:induction false} RowTargetsExact(b: Board, white: bool, i: int, j: int, m: Move)
    requires 0 <= i < 8 && 0 <= j <= 8
    ensures m in RowTargets(b, white, i, j) <==>
      m.fromRow == i && 0 <= m.fromCol < j && m in PieceTargets(b, i, m.fromCol, white)
  {
    if j > 0 {
      RowTargetsExact(b, white, i, j - 1, m);
      PieceTargetsFrom(b, i, j - 1, white, m);
    }
  }

  lemma {:induction false} BoardTargetsExact(b: Board, white: bool, i: int, m: Move)
    requires 0 <= i <= 8
    ensures m in BoardTargets(b, white, i) <==>
      0 <= m.fromRow < i && 0 <= m.fromCol < 8 && m in PieceTargets(b, m.fromRow, m.fromCol, white)
  {
    if i > 0 {
      BoardTargetsExact(b, white, i - 1, m);
      RowTargetsExact(b, white, i - 1, 8, m);
    }
  }

  /**
   * The pseudo-legal moves are exactly the moves each piece of the side to
   * move makes from its own square.
   */
  lemma PseudoTargetsExact(b: Board, white: bool, m: Move)
    ensures m in PseudoTargets(b, white) <==>
      InBounds(m.fromRow, m.fromCol) && m in PieceTargets(b, m.fromRow, m.fromCol, white)
  {
    BoardTargetsExact(b, white, 8, m);
  }

  // ---------------------------------------------------------------- generator methods

  /**
   * What every generator does for one move: `copy.deepcopy(board)`, the two
   * cell writes, and the pair with its notation.
   */
  method MovePair(b: Board, m: Move) returns (p: (Board, string))
    requires OnBoard(m)
    ensures p == MoveOf(b, m)
  {
    var newBoard := b;
    newBoard := SetCell(newBoard, m.toRow, m.toCol, b[m.fromRow][m.fromCol]);
    newBoard := SetCell(newBoard, m.fromRow, m.fromCol, Empty);
    p := (newBoard, ToNotation(Letter(m.kind), m.capture, m.toRow, m.toCol, m.fromRow, m.fromCol));
  }

  /** `generate_pawn_moves` (chessai.py:128-160): the forward steps, then the captures. */
  method GeneratePawnMoves(b: Board, row: int, col: int, white: bool) returns (moves: seq<(Board, string)>)
    requires InBounds(row, col)
    ensures moves == MovesOf(b, PawnTargets(b, row, col, white))
  {
    var pushes := PawnPushMoves(b, row, col, white);
    var captures := PawnCaptureMoves(b, row, col, white);
    moves := pushes + captures;
    MovesOfAppend(b, PawnPushes(b, row, col, white), PawnCaptures(b, row, col, white, PawnCaptureCols));
  }

  /** The one-step and two-step part of `generate_pawn_moves` (chessai.py:134-146). */
  method PawnPushMoves(b: Board, row: int, col: int, white: bool) returns (moves: seq<(Board, string)>)
    requires InBounds(row, col)
    ensures moves == MovesOf(b, PawnPushes(b, row, col, white))
  {
    moves := [];
    var direction := if white then -1 else 1;
    var startRow := if white then 6 else 1;
    assert direction == PawnDir(white) && startRow == PawnStartRow(white);
    if 0 <= row + direction < 8 && b[row + direction][col] == Empty {
      var m1 := Move(Pawn, row, col, row + direction, col, false);
      var p1 := MovePair(b, m1);
      moves := [p1];
      assert moves == MovesOf(b, [m1]);
      if row == startRow && b[row + 2 * direction][col] == Empty {
        var m2 := Move(Pawn, row, col, row + 2 * direction, col, false);
        var p2 := MovePair(b, m2);
        moves := moves + [p2];
        assert PawnPushes(b, row, col, white) == [m1, m2];
        assert [m1, m2][..1] == [m1];
      } else {
        assert PawnPushes(b, row, col, white) == [m1];
      }
    } else {
      assert PawnPushes(b, row, col, white) == [];
    }
  }

  /** The diagonal part of `generate_pawn_moves` (chessai.py:148-158). */
  method PawnCaptureMoves(b: Board, row: int, col: int, white: bool) returns (moves: seq<(Board, string)>)
    requires InBounds(row, col)
    ensures moves == MovesOf(b, PawnCaptures(b, row, col, white, PawnCaptureCols))
  {
    moves := [];
    var dcs := PawnCaptureCols;
    for i := 0 to |dcs|
      invariant moves == MovesOf(b, PawnCaptures(b, row, col, white, dcs[..i]))
    {
      var step := PawnCaptureMove(b, row, col, white, dcs[i]);
      PawnCapturesSnoc(b, row, col, white, dcs, i);
      moves := moves + step;
    }
    assert dcs[..|dcs|] == dcs;
  }

  lemma PawnCapturesSnoc(b: Board, r: int, c: int, white: bool, dcs: seq<int>, i: int)
    requires InBounds(r, c) && 0 <= i < |dcs|
    ensures MovesOf(b, PawnCaptures(b, r, c, white, dcs[..i + 1]))
      == MovesOf(b, PawnCaptures(b, r, c, white, dcs[..i])) + MovesOf(b, PawnCapture(b, r, c, white, dcs[i]))
  {
    assert dcs[..i + 1][..i] == dcs[..i];
    MovesOfAppend(b, PawnCaptures(b, r, c, white, dcs[..i]), PawnCapture(b, r, c, white, dcs[i]));
  }

  /** One diagonal of `generate_pawn_moves` (chessai.py:150-158). */
  method PawnCaptureMove(b: Board, row: int, col: int, white: bool, dc: int) returns (step: seq<(Board, string)>)
    requires InBounds(row, col)
    ensures step == MovesOf(b, PawnCapture(b, row, col, white, dc))
  {
    step := [];
    var direction := if white then -1 else 1;
    var newRow, newCol := row + direction, col + dc;
    if 0 <= newRow < 8 && 0 <= newCol < 8 {
      var target := b[newRow][newCol];
      if target.Piece? && target.color == EnemyColor(white) {
        var p := MovePair(b, Move(Pawn, row, col, newRow, newCol, true));
        step := [p];
      }
    }
  }

  /** The loop over directions shared by the rook, bishop and queen generators (chessai.py:169-187). */
  method SlideMoves(b: Board, row: int, col: int, white: bool, kind: Kind, directions: seq<(int, int)>)
    returns (moves: seq<(Board, string)>)
    requires InBounds(row, col) && AllDirs(directions)
    ensures moves == MovesOf(b, SlideTargets(b, row, col, white, kind, directions))
  {
    moves := [];
    for i := 0 to |directions|
      invariant moves == MovesOf(b, SlideTargets(b, row, col, white, kind, directions[..i]))
    {
      var (dr, dc) := directions[i];
      var ray := RayMoves(b, row, col, white, kind, dr, dc);
      assert directions[..i + 1][..i] == directions[..i];
      MovesOfAppend(b, SlideTargets(b, row, col, white, kind, directions[..i]), RayTargets(b, row, col, white, kind, directions[i]));
      moves := moves + ray;
    }
    assert directions[..|directions|] == directions;
  }

  lemma RayPrefixSnoc(b: Board, r: int, c: int, kind: Kind, d: (int, int), k: nat)
    requires k >= 1
    ensures MovesOf(b, RayPrefix(b, r, c, kind, d, k))
      == MovesOf(b, RayPrefix(b, r, c, kind, d, k - 1)) + [MoveOf(b, RayMove(b, r, c, kind, d, k))]
  {
    assert RayPrefix(b, r, c, kind, d, k) == RayPrefix(b, r, c, kind, d, k - 1) + [RayMove(b, r, c, kind, d, k)];
    MovesOfSnoc(b, RayPrefix(b, r, c, kind, d, k - 1), RayMove(b, r, c, kind, d, k));
  }

  /** The walk along one direction (chessai.py:171-187): empty squares, then an enemy piece, then stop. */
  method RayMoves(b: Board, row: int, col: int, white: bool, kind: Kind, dr: int, dc: int)
    returns (moves: seq<(Board, string)>)
    requires InBounds(row, col) && IsDir((dr, dc))
    ensures moves == MovesOf(b, RayTargets(b, row, col, white, kind, (dr, dc)))
  {
    ghost var d := (dr, dc);
    moves := [];
    var r, c := row + dr, col + dc;
    ghost var k := 1;
    ghost var stopped := false;
    while 0 <= r < 8 && 0 <= c < 8
      invariant 1 <= k <= 8 && r == Off(row, dr, k) && c == Off(col, dc, k)
      invariant EmptyUpTo(b, row, col, d, k - 1)
      invariant !stopped && moves == MovesOf(b, RayPrefix(b, row, col, kind, d, k - 1))
      decreases 8 - k
    {
      var step, stop := RaySquare(b, row, col, white, kind, dr, dc, r, c, k);
      moves := moves + step;
      if stop {
        stopped := true;
        break;
      }
      r, c := r + dr, c + dc;
      k := k + 1;
    }
    if !stopped {
      RayTargetsStop(b, row, col, white, kind, d, k - 1);
    }
  }

  /**
   * One square (r, c), at distance k, of the walk along a direction
   * (chessai.py:174-187): an empty square adds a quiet move and the walk goes
   * on; an enemy piece adds the capture and ends it; a friendly piece ends it.
   */
  method RaySquare(b: Board, row: int, col: int, white: bool, kind: Kind, dr: int, dc: int, r: int, c: int, ghost k: int)
    returns (step: seq<(Board, string)>, stop: bool)
    requires InBounds(row, col) && IsDir((dr, dc)) && 1 <= k && InBounds(r, c)
    requires r == Off(row, dr, k) && c == Off(col, dc, k) && EmptyUpTo(b, row, col, (dr, dc), k - 1)
    ensures !stop ==> k < 8 && Off(row, dr, k + 1) == r + dr && Off(col, dc, k + 1) == c + dc
    ensures !stop ==> EmptyUpTo(b, row, col, (dr, dc), k)
    ensures !stop ==>
      MovesOf(b, RayPrefix(b, row, col, kind, (dr, dc), k)) == MovesOf(b, RayPrefix(b, row, col, kind, (dr, dc), k - 1)) + step
    ensures stop ==>
      MovesOf(b, RayTargets(b, row, col, white, kind, (dr, dc))) == MovesOf(b, RayPrefix(b, row, col, kind, (dr, dc), k - 1)) + step
  {
    ghost var d := (dr, dc);
    var target := b[r][c];
    assert RayCell(b, row, col, d, k) == Some(target);
    if target == Empty {
      if k >= 8 {
        RayLeavesBoard(b, row, col, d, k);
      }
      OffStep(row, dr, k);
      OffStep(col, dc, k);
      RayPrefixSnoc(b, row, col, kind, d, k);
      EmptyUpToStep(b, row, col, d, k - 1);
      var p := MovePair(b, Move(kind, row, col, r, c, false));
      return [p], false;
    }
    RayTargetsStop(b, row, col, white, kind, d, k - 1);
    if target.color == EnemyColor(white) {
      RayPrefixSnoc(b, row, col, kind, d, k);
      var p := MovePair(b, Move(kind, row, col, r, c, true));
      return [p], true;
    }
    return [], true;
  }

  /** A ray whose first n squares are empty and whose next square is not: its moves are those n, and the capture if any. */
  lemma RayTargetsStop(b: Board, r: int, c: int, white: bool, kind: Kind, d: (int, int), n: int)
    requires InBounds(r, c) && IsDir(d) && n >= 0
    requires EmptyUpTo(b, r, c, d, n) && RayCell(b, r, c, d, n + 1) != Some(Empty)
    ensures var stop := RayCell(b, r, c, d, n + 1);
      RayTargets(b, r, c, white, kind, d) ==
      RayPrefix(b, r, c, kind, d, if stop.Some? && IsEnemy(stop.value, white) then n + 1 else n)
  {
    RayLengthUnique(b, r, c, d, n);
  }

  /** The loop shared by the knight and king generators (chessai.py:205-213, 290-298). */
  method JumpMoves(b: Board, row: int, col: int, white: bool, kind: Kind, offsets: seq<(int, int)>)
    returns (moves: seq<(Board, string)>)
    requires InBounds(row, col) && NonZero(offsets)
    ensures moves == MovesOf(b, JumpTargets(b, row, col, white, kind, offsets))
  {
    moves := [];
    for i := 0 to |offsets|
      invariant moves == MovesOf(b, JumpTargets(b, row, col, white, kind, offsets[..i]))
    {
      var (dr, dc) := offsets[i];
      var step := JumpMove1(b, row, col, white, kind, dr, dc);
      assert offsets[..i + 1][..i] == offsets[..i];
      MovesOfAppend(b, JumpTargets(b, row, col, white, kind, offsets[..i]), JumpStep(b, row, col, white, kind, offsets[i]));
      moves := moves + step;
    }
    assert offsets[..|offsets|] == offsets;
  }

  /** One offset of the knight or king loop (chessai.py:206-213, 291-298). */
  method JumpMove1(b: Board, row: int, col: int, white: bool, kind: Kind, dr: int, dc: int)
    returns (step: seq<(Board, string)>)
    requires InBounds(row, col) && (dr, dc) != (0, 0)
    ensures step == MovesOf(b, JumpStep(b, row, col, white, kind, (dr, dc)))
  {
    step := [];
    var r, c := row + dr, col + dc;
    if 0 <= r < 8 && 0 <= c < 8 {
      var target := b[r][c];
      if target == Empty || target.color == EnemyColor(white) {
        var capture := target != Empty && target.color == EnemyColor(white);
        var p := MovePair(b, Move(kind, row, col, r, c, capture));
        step := [p];
      }
    }
  }

  /** `generate_rook_moves` (chessai.py:162-189). */
  method GenerateRookMoves(b: Board, row: int, col: int, white: bool) returns (moves: seq<(Board, string)>)
    requires InBounds(row, col)
    ensures moves == MovesOf(b, SlideTargets(b, row, col, white, Rook, RookDirs))
  {
    moves := SlideMoves(b, row, col, white, Rook, RookDirs);
  }

  /** `generate_knight_moves` (chessai.py:192-215). */
  method GenerateKnightMoves(b: Board, row: int, col: int, white: bool) returns (moves: seq<(Board, string)>)
    requires InBounds(row, col)
    ensures moves == MovesOf(b, JumpTargets(b, row, col, white, Knight, KnightJumps))
  {
    moves := JumpMoves(b, row, col, white, Knight, KnightJumps);
  }

  /** `generate_bishop_moves` (chessai.py:217-244). */
  method GenerateBishopMoves(b: Board, row: int, col: int, white: bool) returns (moves: seq<(Board, string)>)
    requires InBounds(row, col)
    ensures moves == MovesOf(b, SlideTargets(b, row, col, white, Bishop, BishopDirs))
  {
    moves := SlideMoves(b, row, col, white, Bishop, BishopDirs);
  }

  /** `generate_queen_moves` (chessai.py:246-277): the rook directions, then the bishop ones. */
  method GenerateQueenMoves(b: Board, row: int, col: int, white: bool) returns (moves: seq<(Board, string)>)
    requires InBounds(row, col)
    ensures moves == MovesOf(b, SlideTargets(b, row, col, white, Queen, QueenDirs))
  {
    moves := SlideMoves(b, row, col, white, Queen, QueenDirs);
  }

  /** `generate_king_moves` (chessai.py:279-300); no castling. */
  method GenerateKingMoves(b: Board, row: int, col: int, white: bool) returns (moves: seq<(Board, string)>)
    requires InBounds(row, col)
    ensures moves == MovesOf(b, JumpTargets(b, row, col, white, King, KingSteps))
  {
    moves := JumpMoves(b, row, col, white, King, KingSteps);
  }
}
