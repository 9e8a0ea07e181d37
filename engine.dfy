/**
 * The engine's entry points (chessai.py:4-77): `make_move`, `max_value` and
 * `min_value` as methods over the chess rules, each proved against the
 * search of the Search module instantiated with the legal successors, the
 * static evaluation and the check test of this model.
 */
module Engine {
  import opened Wrappers
  import opened Board
  import opened Evaluation
  import opened MoveGen
  import opened Check
  import opened Legality
  import opened Search

  /** The depth `make_move` searches to. */
  const SearchDepth: nat := 4

  /** Chess as the search sees it. */
  function Chess(): Game<Board>
  {
    Game((b: Board, white: bool) => Succs(b, white), (b: Board) => BoardValue(b), (b: Board, white: bool) => InCheck(b, white))
  }

  /**
   * g plays by this model's rules: its successors are `get_succs`, its
   * evaluation `evaluate` and its check test `is_in_check`. Each fact is
   * keyed to the model's own function, so it is used only where that
   * function is already at hand.
   */
  ghost predicate ChessRules(g: Game<Board>)
  {
    (forall b: Board, white: bool {:trigger Succs(b, white)} :: g.moves(b, white) == Succs(b, white)) &&
    (forall b: Board {:trigger BoardValue(b)} :: g.value(b) == BoardValue(b)) &&
    (forall b: Board, white: bool {:trigger InCheck(b, white)} :: g.inCheck(b, white) == InCheck(b, white))
  }

  /** The concrete game plays by this model's rules. */
  lemma ChessRulesHold()
    ensures ChessRules(Chess())
  {
  }

  /** `max_value` (chessai.py:20-47): White to move, window (alpha, beta). */
  method MaxValue(ghost g: Game<Board>, b: Board, depth: nat, alpha: Score, beta: Score)
    returns (eval: Score, move: Option<string>, succ: Option<Board>)
    requires ChessRules(g)
    ensures SearchResult(eval, move, succ) == AlphaBeta(g, b, depth, true, alpha, beta)
    decreases depth, 1
  {
    if depth == 0 {
      var e := Evaluate(b);
      return Fin(e), None, None;
    }
    var succs := GetSuccs(b, true);
    move, succ := None, None;
    eval := NegInf;
    if |succs| == 0 {
      var check := IsInCheck(b, true);
      if check {
        return NegInf, None, None;
      } else {
        return Fin(0), Some("$"), None;
      }
    }
    eval, move, succ := MaxLoop(g, succs, depth, alpha, beta);
  }

  /** The loop of `max_value` (chessai.py:35-45) over the successors, raising alpha. */
  method MaxLoop(ghost g: Game<Board>, succs: seq<(Board, string)>, depth: nat, alpha: Score, beta: Score)
    returns (eval: Score, move: Option<string>, succ: Option<Board>)
    requires ChessRules(g) && depth >= 1
    ensures SearchResult(eval, move, succ) == ABLoop(g, succs, 0, depth, true, alpha, beta, Start(true))
    decreases depth, 0
  {
    eval, move, succ := NegInf, None, None;
    var a := alpha;
    for i := 0 to |succs|
      invariant ABLoop(g, succs, i, depth, true, a, beta, SearchResult(eval, move, succ))
        == ABLoop(g, succs, 0, depth, true, alpha, beta, Start(true))
    {
      var (s, m) := succs[i];
      var e, _, _ := MinValue(g, s, depth - 1, a, beta);
      if Less(eval, e) {
        eval, move, succ := e, Some(m), Some(s);
      }
      a := Max(a, eval);
      if LessEq(beta, a) {
        break;
      }
    }
  }

  /** `min_value` (chessai.py:50-77): Black to move, window (alpha, beta). */
  method MinValue(ghost g: Game<Board>, b: Board, depth: nat, alpha: Score, beta: Score)
    returns (eval: Score, move: Option<string>, succ: Option<Board>)
    requires ChessRules(g)
    ensures SearchResult(eval, move, succ) == AlphaBeta(g, b, depth, false, alpha, beta)
    decreases depth, 1
  {
    if depth == 0 {
      var e := Evaluate(b);
      return Fin(e), None, None;
    }
    var succs := GetSuccs(b, false);
    move, succ := None, None;
    eval := PosInf;
    if |succs| == 0 {
      var check := IsInCheck(b, false);
      if check {
        return PosInf, None, None;
      } else {
        return Fin(0), Some("$"), None;
      }
    }
    eval, move, succ := MinLoop(g, succs, depth, alpha, beta);
  }

  /** The loop of `min_value` (chessai.py:65-75) over the successors, lowering beta. */
  method MinLoop(ghost g: Game<Board>, succs: seq<(Board, string)>, depth: nat, alpha: Score, beta: Score)
    returns (eval: Score, move: Option<string>, succ: Option<Board>)
    requires ChessRules(g) && depth >= 1
    ensures SearchResult(eval, move, succ) == ABLoop(g, succs, 0, depth, false, alpha, beta, Start(false))
    decreases depth, 0
  {
    eval, move, succ := PosInf, None, None;
    var bt := beta;
    for i := 0 to |succs|
      invariant ABLoop(g, succs, i, depth, false, alpha, bt, SearchResult(eval, move, succ))
        == ABLoop(g, succs, 0, depth, false, alpha, beta, Start(false))
    {
      var (s, m) := succs[i];
      var e, _, _ := MaxValue(g, s, depth - 1, alpha, bt);
      if Less(e, eval) {
        eval, move, succ := e, Some(m), Some(s);
      }
      bt := Min(bt, eval);
      if LessEq(bt, alpha) {
        break;
      }
    }
  }

  /**
   * `make_move` (chessai.py:4-18): the result of the depth-4 search, which is
   * that of the unpruned minimax; without a move it names the winner, and
   * the error case is never reached.
   */
  method MakeMove(b: Board, white: bool) returns (r: Result<(Score, string, Option<Board>), string>)
    ensures r.Ok?
    ensures var m := Minimax(Chess(), b, SearchDepth, white);
      r.value.0 == m.eval && r.value.2 == m.succ &&
      (m.move.Some? ==> r.value.1 == m.move.value) &&
      (m.move.None? ==> r.value.1 == if white then "black win" else "white win")
  {
    ChessRulesHold();
    var eval, move, succ;
    if white {
      eval, move, succ := MaxValue(Chess(), b, SearchDepth, NegInf, PosInf);
    } else {
      eval, move, succ := MinValue(Chess(), b, SearchDepth, NegInf, PosInf);
    }
    RootEquality(Chess(), b, SearchDepth, white);
    NoMoveMeansLost(Chess(), b, SearchDepth, white);
    var name: string;
    if move.None? {
      if eval == NegInf {
        name := "black win";
      } else if eval == PosInf {
        name := "white win";
      } else {
        assert false;
        return Err("No move found");
      }
    } else {
      name := move.value;
    }
    r := Ok((eval, name, succ));
  }

  /**
   * The successor the search settles on, when there is one, is the board
   * after a legal move of the side to move (a pseudo-legal move that does not
   * leave its own king in check), and the notation returned with it is that
   * move's, with '+' when it checks the other king.
   */
  lemma ChosenMoveIsLegal(b: Board, depth: nat, white: bool)
    ensures var r := Minimax(Chess(), b, depth, white);
      r.succ.Some? ==> (r.move.Some? &&
        exists m :: (m in PseudoTargets(b, white) && Safe(b, white, m) &&
                     (r.succ.value, r.move.value) == Marked(MoveOf(b, m), white)))
  {
    var r := Minimax(Chess(), b, depth, white);
    if depth > 0 && |Succs(b, white)| > 0 && r.succ.Some? {
      assert Chess().moves(b, white) == Succs(b, white);
      MinimaxBest(Chess(), b, depth, white);
      var succs := Succs(b, white);
      var k :| 0 <= k < |succs| && FirstBestAt(Chess(), succs, k, depth, white, r);
      SuccsExact(b, white);
      var m := LegalTargets(b, white)[k];
      MarkedMovesAt(b, white, LegalTargets(b, white), k);
      assert succs[k] == Marked(MoveOf(b, m), white);
      assert m in LegalTargets(b, white);
    }
  }

  /**
   * A pseudo-legal move changes the evaluation only by what it captures:
   * a quiet move keeps the score, and a capture moves it towards the side
   * that made it by the captured piece's value.
   */
  lemma MoveScore(b: Board, white: bool, m: Move)
    requires m in PseudoTargets(b, white)
    ensures PieceMoveOk(b, white, m)
    ensures var after := BoardValue(MoveOf(b, m).0);
      after == BoardValue(b) - CellValue(b[m.toRow][m.toCol]) &&
      (!m.capture ==> after == BoardValue(b)) &&
      (m.capture ==> after == BoardValue(b) + (if white then 1 else -1) * PieceValue(b[m.toRow][m.toCol].kind))
  {
    var ms := PseudoTargets(b, white);
    var i :| 0 <= i < |ms| && ms[i] == m;
    PseudoTargetsOk(b, white);
    assert PieceMoveOk(b, white, ms[i]);
    ApplyValue(b, m.fromRow, m.fromCol, m.toRow, m.toCol);
  }
}
