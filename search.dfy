/**
 * The game-tree search of `ChessAI` (chessai.py:20-77): a depth-limited
 * minimax with alpha-beta pruning. White maximises and Black minimises the
 * static evaluation; a side with no legal move is mated (score -inf for
 * White, +inf for Black) when in check and stalemated (score 0, move "$")
 * otherwise.
 *
 * The search sees the game only through its successor function, its
 * evaluation and its check test, so it is stated here for any game with
 * those three; the chess engine instantiates it with get_succs, evaluate
 * and is_in_check.
 *
 * AlphaBeta is the search as the source runs it, pruning included; Minimax
 * is the same search without pruning. The theorems are that the pruned
 * search keeps within the fail-soft bounds of the unpruned one, that from
 * the full window it returns the very same score, move and successor, that
 * Minimax picks the first best successor, and that a search of depth at
 * least 1 finds no move exactly when the side to move is lost.
 */
module Search {
  import opened Wrappers

  /** A score: a finite evaluation or one of the two infinities standing for mate. */
  datatype Score = NegInf | Fin(n: int) | PosInf

  predicate LessEq(a: Score, b: Score)
  {
    a.NegInf? || b.PosInf? || (a.Fin? && b.Fin? && a.n <= b.n)
  }

  predicate Less(a: Score, b: Score)
  {
    !LessEq(b, a)
  }

  /** Python's max on two scores. */
  function Max(a: Score, b: Score): (r: Score)
    ensures LessEq(a, r) && LessEq(b, r) && (r == a || r == b)
  {
    if LessEq(a, b) then b else a
  }

  /** Python's min on two scores. */
  function Min(a: Score, b: Score): (r: Score)
    ensures LessEq(r, a) && LessEq(r, b) && (r == a || r == b)
  {
    if LessEq(a, b) then a else b
  }

  /**
   * What the search needs of the game: the legal successors of a position
   * for a side, each with the move's notation; the static evaluation; and
   * whether a side's king is in check.
   */
  datatype Game<!P> = Game(moves: (P, bool) -> seq<(P, string)>, value: P -> int, inCheck: (P, bool) -> bool)

  /** What a search returns: the score, the chosen move's notation and the position it leads to. */
  datatype SearchResult<P> = SearchResult(eval: Score, move: Option<string>, succ: Option<P>)

  /** The score a side's loop starts from, and its score when mated: -inf for White, +inf for Black. */
  function Worst(white: bool): Score
  {
    if white then NegInf else PosInf
  }

  /** The score no successor can improve on: +inf for White, -inf for Black. */
  function Top(white: bool): Score
  {
    if white then PosInf else NegInf
  }

  /** v is strictly better than cur for the side to move. */
  predicate Better(white: bool, v: Score, cur: Score)
  {
    if white then Less(cur, v) else Less(v, cur)
  }

  /** The best so far after looking at successor s of score v: s replaces best only when strictly better. */
  function Pick<P>(white: bool, v: Score, s: (P, string), best: SearchResult<P>): (r: SearchResult<P>)
    ensures !Better(white, v, r.eval) && !Better(white, best.eval, r.eval)
    ensures Better(white, v, best.eval) ==> r == SearchResult(v, Some(s.1), Some(s.0))
    ensures !Better(white, v, best.eval) ==> r == best
  {
    if Better(white, v, best.eval) then SearchResult(v, Some(s.1), Some(s.0)) else best
  }

  /** What a node returns without looking at successors: the leaf evaluation, mate, or stalemate. */
  function Terminal<P>(g: Game<P>, b: P, depth: nat, white: bool): (r: SearchResult<P>)
    ensures r.succ.None?
    ensures depth == 0 ==> r.move.None? && r.eval == Fin(g.value(b))
    ensures depth > 0 ==> (r.move.None? <==> g.inCheck(b, white))
    ensures depth > 0 && g.inCheck(b, white) ==> r.eval == Worst(white)
    ensures depth > 0 && !g.inCheck(b, white) ==> r.eval == Fin(0) && r.move == Some("$")
  {
    if depth == 0 then SearchResult(Fin(g.value(b)), None, None)
    else if g.inCheck(b, white) then SearchResult(Worst(white), None, None)
    else SearchResult(Fin(0), Some("$"), None)
  }

  /** The best-so-far a node's loop starts from. */
  function Start<P>(white: bool): SearchResult<P>
  {
    SearchResult(Worst(white), None, None)
  }

  // ---------------------------------------------------------------- alpha-beta

  /** `max_value` (white) and `min_value` (black) with window (alpha, beta). */
  function AlphaBeta<P>(g: Game<P>, b: P, depth: nat, white: bool, alpha: Score, beta: Score): (r: SearchResult<P>)
    ensures r.succ.Some? ==> (r.move.Some? &&
      exists k | 0 <= k < |g.moves(b, white)| :: g.moves(b, white)[k] == (r.succ.value, r.move.value))
    decreases depth, 1
  {
    if depth == 0 || |g.moves(b, white)| == 0 then Terminal(g, b, depth, white)
    else ABLoop(g, g.moves(b, white), 0, depth, white, alpha, beta, Start(white))
  }

  /**
   * The loop over the successors from index i, with the current window and
   * the best result so far: a successor replaces the best only when strictly
   * better, the side's bound moves to the best score, and the loop stops once
   * the window is empty.
   */
  function ABLoop<P>(g: Game<P>, succs: seq<(P, string)>, i: nat, depth: nat, white: bool,
                     alpha: Score, beta: Score, best: SearchResult<P>): (r: SearchResult<P>)
    requires depth >= 1 && i <= |succs|
    ensures r == best || (r.succ.Some? && r.move.Some? &&
      exists k | i <= k < |succs| :: succs[k] == (r.succ.value, r.move.value))
    decreases depth, 0, |succs| - i
  {
    if i == |succs| then best
    else
      var v := AlphaBeta(g, succs[i].0, depth - 1, !white, alpha, beta).eval;
      var best' := Pick(white, v, succs[i], best);
      var alpha' := if white then Max(alpha, best'.eval) else alpha;
      var beta' := if white then beta else Min(beta, best'.eval);
      if LessEq(beta', alpha') then best'
      else ABLoop(g, succs, i + 1, depth, white, alpha', beta', best')
  }

  // ---------------------------------------------------------------- minimax

  /** The same search without pruning. */
  function Minimax<P>(g: Game<P>, b: P, depth: nat, white: bool): SearchResult<P>
    decreases depth, 1
  {
    if depth == 0 || |g.moves(b, white)| == 0 then Terminal(g, b, depth, white)
    else MMLoop(g, g.moves(b, white), 0, depth, white, Start(white))
  }

  function MMLoop<P>(g: Game<P>, succs: seq<(P, string)>, i: nat, depth: nat, white: bool,
                     best: SearchResult<P>): SearchResult<P>
    requires depth >= 1 && i <= |succs|
    decreases depth, 0, |succs| - i
  {
    if i == |succs| then best
    else MMLoop(g, succs, i + 1, depth, white, Pick(white, ChildValue(g, succs, i, depth, white), succs[i], best))
  }

  /** The unpruned score of the i-th successor. */
  function ChildValue<P>(g: Game<P>, succs: seq<(P, string)>, i: nat, depth: nat, white: bool): Score
    requires depth >= 1 && i < |succs|
    decreases depth, 0, 0
  {
    Minimax(g, succs[i].0, depth - 1, !white).eval
  }

  // ---------------------------------------------------------------- fail-soft bounds

  /**
   * v is a fail-soft answer for the true score m in window (alpha, beta): at
   * most alpha when m is, at least beta when m is, and m itself in between.
   */
  predicate Window(alpha: Score, beta: Score, m: Score, v: Score)
  {
    (LessEq(m, alpha) ==> LessEq(v, alpha)) &&
    (LessEq(beta, m) ==> LessEq(beta, v)) &&
    (Less(alpha, m) && Less(m, beta) ==> v == m)
  }

  /** The unpruned loop never ends worse for the side to move than where it started. */
  lemma {:induction false} MMLoopMonotone<P>(g: Game<P>, succs: seq<(P, string)>, i: nat, depth: nat, white: bool,
                                             best: SearchResult<P>)
    requires depth >= 1 && i <= |succs|
    ensures !Better(white, best.eval, MMLoop(g, succs, i, depth, white, best).eval)
    decreases |succs| - i
  {
    if i < |succs| {
      MMLoopMonotone(g, succs, i + 1, depth, white, Pick(white, ChildValue(g, succs, i, depth, white), succs[i], best));
    }
  }

  /** Pruning keeps the fail-soft bounds of the unpruned score, for every window that is not empty. */
  lemma {:induction false} FailSoft<P>(g: Game<P>, b: P, depth: nat, white: bool, alpha: Score, beta: Score)
    requires Less(alpha, beta)
    ensures Window(alpha, beta, Minimax(g, b, depth, white).eval, AlphaBeta(g, b, depth, white, alpha, beta).eval)
    decreases depth, 1
  {
    if depth > 0 && |g.moves(b, white)| > 0 {
      if white {
        MaxLoopBounds(g, g.moves(b, white), 0, depth, alpha, alpha, beta, Start(white), Start(white));
      } else {
        MinLoopBounds(g, g.moves(b, white), 0, depth, alpha, beta, beta, Start(white), Start(white));
      }
    }
  }

  /**
   * White's loop: alpha0 is the window's lower end on entry and alpha the one
   * the loop has raised it to; ab is the pruned best so far and mm the
   * unpruned one, which agree whenever mm is above alpha0.
   */
  lemma {:induction false} MaxLoopBounds<P>(g: Game<P>, succs: seq<(P, string)>, i: nat, depth: nat,
                                            alpha0: Score, alpha: Score, beta: Score,
                                            ab: SearchResult<P>, mm: SearchResult<P>)
    requires depth >= 1 && i <= |succs|
    requires Less(alpha0, beta) && Less(alpha, beta)
    requires alpha == Max(alpha0, ab.eval)
    requires Less(mm.eval, beta)
    requires Less(alpha0, mm.eval) ==> ab.eval == mm.eval
    requires LessEq(mm.eval, alpha0) ==> LessEq(ab.eval, alpha0)
    ensures Window(alpha0, beta, MMLoop(g, succs, i, depth, true, mm).eval,
                   ABLoop(g, succs, i, depth, true, alpha, beta, ab).eval)
    decreases depth, 0, |succs| - i
  {
    if i < |succs| {
      var m := ChildValue(g, succs, i, depth, true);
      var v := AlphaBeta(g, succs[i].0, depth - 1, false, alpha, beta).eval;
      FailSoft(g, succs[i].0, depth - 1, false, alpha, beta);
      var ab' := Pick(true, v, succs[i], ab);
      var mm' := Pick(true, m, succs[i], mm);
      var alpha' := Max(alpha, ab'.eval);
      if LessEq(beta, alpha') {
        MMLoopMonotone(g, succs, i + 1, depth, true, mm');
      } else {
        MaxLoopBounds(g, succs, i + 1, depth, alpha0, alpha', beta, ab', mm');
      }
    }
  }

  /** Black's loop, the mirror image: beta0 is the window's upper end on entry. */
  lemma {:induction false} MinLoopBounds<P>(g: Game<P>, succs: seq<(P, string)>, i: nat, depth: nat,
                                            alpha: Score, beta0: Score, beta: Score,
                                            ab: SearchResult<P>, mm: SearchResult<P>)
    requires depth >= 1 && i <= |succs|
    requires Less(alpha, beta0) && Less(alpha, beta)
    requires beta == Min(beta0, ab.eval)
    requires Less(alpha, mm.eval)
    requires Less(mm.eval, beta0) ==> ab.eval == mm.eval
    requires LessEq(beta0, mm.eval) ==> LessEq(beta0, ab.eval)
    ensures Window(alpha, beta0, MMLoop(g, succs, i, depth, false, mm).eval,
                   ABLoop(g, succs, i, depth, false, alpha, beta, ab).eval)
    decreases depth, 0, |succs| - i
  {
    if i < |succs| {
      var m := ChildValue(g, succs, i, depth, false);
      var v := AlphaBeta(g, succs[i].0, depth - 1, true, alpha, beta).eval;
      FailSoft(g, succs[i].0, depth - 1, true, alpha, beta);
      var ab' := Pick(false, v, succs[i], ab);
      var mm' := Pick(false, m, succs[i], mm);
      var beta' := Min(beta, ab'.eval);
      if LessEq(beta', alpha) {
        MMLoopMonotone(g, succs, i + 1, depth, false, mm');
      } else {
        MinLoopBounds(g, succs, i + 1, depth, alpha, beta0, beta', ab', mm');
      }
    }
  }

  // ---------------------------------------------------------------- full window

  /** Once the best so far is unbeatable, the unpruned loop keeps it. */
  lemma {:induction false} MMLoopStuck<P>(g: Game<P>, succs: seq<(P, string)>, i: nat, depth: nat, white: bool,
                                          best: SearchResult<P>)
    requires depth >= 1 && i <= |succs|
    requires best.eval == Top(white)
    ensures MMLoop(g, succs, i, depth, white, best) == best
    decreases |succs| - i
  {
    if i < |succs| {
      MMLoopStuck(g, succs, i + 1, depth, white, best);
    }
  }

  /**
   * White's loop with the window (-inf, +inf) on entry: the bound it has
   * raised is the best score so far, and the pruned loop picks what the
   * unpruned one picks.
   */
  lemma {:induction false} RootMaxLoop<P>(g: Game<P>, succs: seq<(P, string)>, i: nat, depth: nat, best: SearchResult<P>)
    requires depth >= 1 && i <= |succs|
    requires best.eval != PosInf
    ensures ABLoop(g, succs, i, depth, true, best.eval, PosInf, best) == MMLoop(g, succs, i, depth, true, best)
    decreases |succs| - i
  {
    if i < |succs| {
      var m := ChildValue(g, succs, i, depth, true);
      FailSoft(g, succs[i].0, depth - 1, false, best.eval, PosInf);
      var best' := Pick(true, m, succs[i], best);
      assert Pick(true, AlphaBeta(g, succs[i].0, depth - 1, false, best.eval, PosInf).eval, succs[i], best) == best';
      if best'.eval == PosInf {
        MMLoopStuck(g, succs, i + 1, depth, true, best');
      } else {
        RootMaxLoop(g, succs, i + 1, depth, best');
      }
    }
  }

  /** Black's loop with the window (-inf, +inf) on entry, the mirror image. */
  lemma {:induction false} RootMinLoop<P>(g: Game<P>, succs: seq<(P, string)>, i: nat, depth: nat, best: SearchResult<P>)
    requires depth >= 1 && i <= |succs|
    requires best.eval != NegInf
    ensures ABLoop(g, succs, i, depth, false, NegInf, best.eval, best) == MMLoop(g, succs, i, depth, false, best)
    decreases |succs| - i
  {
    if i < |succs| {
      var m := ChildValue(g, succs, i, depth, false);
      FailSoft(g, succs[i].0, depth - 1, true, NegInf, best.eval);
      var best' := Pick(false, m, succs[i], best);
      assert Pick(false, AlphaBeta(g, succs[i].0, depth - 1, true, NegInf, best.eval).eval, succs[i], best) == best';
      if best'.eval == NegInf {
        MMLoopStuck(g, succs, i + 1, depth, false, best');
      } else {
        RootMinLoop(g, succs, i + 1, depth, best');
      }
    }
  }

  /**
   * From the full window (-inf, +inf), as `make_move` calls it, alpha-beta
   * returns exactly what the unpruned search returns: the score, the move and
   * the successor.
   */
  lemma RootEquality<P>(g: Game<P>, b: P, depth: nat, white: bool)
    ensures AlphaBeta(g, b, depth, white, NegInf, PosInf) == Minimax(g, b, depth, white)
  {
    if depth > 0 && |g.moves(b, white)| > 0 {
      if white {
        RootMaxLoop(g, g.moves(b, white), 0, depth, Start(white));
      } else {
        RootMinLoop(g, g.moves(b, white), 0, depth, Start(white));
      }
    }
  }

  // ---------------------------------------------------------------- what minimax picks

  /** r is the result for the k-th successor, scored strictly better than a mate and than every earlier one. */
  ghost predicate FirstBestAt<P>(g: Game<P>, succs: seq<(P, string)>, k: nat, depth: nat, white: bool, r: SearchResult<P>)
    requires depth >= 1 && k < |succs|
  {
    r == SearchResult(ChildValue(g, succs, k, depth, white), Some(succs[k].1), Some(succs[k].0)) &&
    Better(white, r.eval, Worst(white)) &&
    forall j | 0 <= j < k :: Better(white, r.eval, ChildValue(g, succs, j, depth, white))
  }

  /**
   * best after the first n successors: none of them is better; with no move
   * it is the start, and otherwise the first one of the best score.
   */
  ghost predicate BestOf<P>(g: Game<P>, succs: seq<(P, string)>, n: nat, depth: nat, white: bool, best: SearchResult<P>)
    requires depth >= 1 && n <= |succs|
  {
    (forall j | 0 <= j < n :: !Better(white, ChildValue(g, succs, j, depth, white), best.eval)) &&
    (best.move.None? ==> best == Start(white)) &&
    (best.move.Some? ==> exists k | 0 <= k < n :: FirstBestAt(g, succs, k, depth, white, best))
  }

  lemma BestOfStep<P>(g: Game<P>, succs: seq<(P, string)>, i: nat, depth: nat, white: bool, best: SearchResult<P>)
    requires depth >= 1 && i < |succs|
    requires BestOf(g, succs, i, depth, white, best)
    ensures BestOf(g, succs, i + 1, depth, white, Pick(white, ChildValue(g, succs, i, depth, white), succs[i], best))
  {
    var v := ChildValue(g, succs, i, depth, white);
    if Better(white, v, best.eval) {
      assert FirstBestAt(g, succs, i, depth, white, Pick(white, v, succs[i], best));
    } else if best.move.Some? {
      var k :| 0 <= k < i && FirstBestAt(g, succs, k, depth, white, best);
      assert FirstBestAt(g, succs, k, depth, white, best);
    }
  }

  lemma {:induction false} MMLoopBest<P>(g: Game<P>, succs: seq<(P, string)>, i: nat, depth: nat, white: bool,
                                         best: SearchResult<P>)
    requires depth >= 1 && i <= |succs|
    requires BestOf(g, succs, i, depth, white, best)
    ensures BestOf(g, succs, |succs|, depth, white, MMLoop(g, succs, i, depth, white, best))
    decreases |succs| - i
  {
    if i < |succs| {
      BestOfStep(g, succs, i, depth, white, best);
      MMLoopBest(g, succs, i + 1, depth, white, Pick(white, ChildValue(g, succs, i, depth, white), succs[i], best));
    }
  }

  /**
   * A node with successors scores the best of its successors' scores and
   * plays the first successor of that score; when every successor scores
   * as badly as a mate, it has no move and no successor.
   */
  lemma MinimaxBest<P>(g: Game<P>, b: P, depth: nat, white: bool)
    requires depth >= 1 && |g.moves(b, white)| > 0
    ensures var succs := g.moves(b, white);
      var r := Minimax(g, b, depth, white);
      (forall j | 0 <= j < |succs| :: !Better(white, ChildValue(g, succs, j, depth, white), r.eval)) &&
      (r.move.None? ==> r == Start(white)) &&
      (r.move.Some? ==> exists k | 0 <= k < |succs| :: FirstBestAt(g, succs, k, depth, white, r))
  {
    MMLoopBest(g, g.moves(b, white), 0, depth, white, Start(white));
  }

  /**
   * A search of depth at least 1 comes back without a move exactly when its
   * score is a mate against the side to move, so `make_move` always has a
   * move or a winner to report.
   */
  lemma NoMoveMeansLost<P>(g: Game<P>, b: P, depth: nat, white: bool)
    requires depth >= 1
    ensures var r := Minimax(g, b, depth, white);
      (r.move.None? <==> r.eval == Worst(white)) && (r.move.None? ==> r.succ.None?)
  {
    if |g.moves(b, white)| > 0 {
      MinimaxBest(g, b, depth, white);
    }
  }
}
