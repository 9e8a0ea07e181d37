# A verified model of the ChessAI engine

This project models the playing core of ChessAI, a small chess engine, and
proves properties of it. The core is the `ChessAI` class in `chessai.py` and
the initial position of `chess.py`.

- **Board.** 8 rows of 8 cells. Row 0 is rank 8 and column 0 is the a-file.
  A cell is empty or holds a piece with a colour. The board is a value, so
  `copy.deepcopy(board)` followed by two cell writes is the function `Apply`.
- **Move generation.** There is one generator per piece: pawn, rook, knight,
  bishop, queen and king. Each is a method that builds the list of
  (successor board, notation) pairs with the source's own loops. Each is proved
  equal to a list computed from a specification function. That function lists
  the piece's moves as `Move` values: piece, source, destination and capture.
  Lemmas characterise the whole list of each piece exactly: a move is on it if
  and only if the piece's rules allow it. This covers the pawn's pushes and
  captures, the knight's and king's offsets, and the rook's, bishop's and
  queen's slides over all of their directions.
- **Notation.** `to_notation` writes short algebraic notation. A decoder,
  `Decode`, reads it back. The round trip proves that the notation preserves
  the destination, the capture flag, the piece symbol and a pawn's source file.
- **Check detection.** `is_in_check` is a method proved equal to the predicate
  `InCheck`. `InCheck` finds the first king in row-major order, then tests for
  an attack by a knight, a straight-line slider, a diagonal slider or a pawn.
- **Legality.** `filter_checks` and `get_succs` are methods proved equal to
  `Succs`. `Succs` holds the moves that are pseudo-legal, meaning they follow
  the piece's rules, and that do not leave the mover's own king in check. They
  come in board-scan order, and a move's notation gets '+' when it gives check.
- **Evaluation.** `evaluate` is a method proved equal to `BoardValue`. That is
  White's material minus Black's, with pawn 1, knight 3, bishop 3, rook 5,
  queen 9 and king 0.
- **Search.** `max_value`, `min_value` and `make_move` are methods. They are
  proved equal to `AlphaBeta`, the fail-soft alpha-beta search exactly as the
  source runs it. `Search` states that search for any game given by a
  successor function, an evaluation and a check test. Its theorems:
  - the pruned search stays within the fail-soft bounds of plain minimax;
  - from the full window it returns the very same score, move and successor as
    minimax;
  - minimax picks the first successor of the best score;
  - a search of depth at least 1 finds no move exactly when the side to move
    is mated at that depth.

  The engine methods take the game as a ghost parameter, tied to the chess
  functions by `Engine.ChessRules`. `make_move` itself searches `Engine.Chess()`.
- **Starting position.** `get_starting_board` is the function
  `Start.StartingBoard`. Lemmas fix its layout, its material and its piece
  counts.

Scores are the datatype `Score`: `NegInf`, `Fin(n)` or `PosInf`. These stand
for Python's `float('-inf')`, integer evaluations and `float('inf')`.

Files: `wrappers.dfy` holds Option and Result. Each other file holds one
module: `board.dfy` (Board), `rays.dfy` (Rays, walking along a line),
`notation.dfy` (Notation), `movegen.dfy` (MoveGen), `check.dfy` (Check),
`legality.dfy` (Legality), `evaluation.dfy` (Evaluation), `start.dfy` (Start),
`search.dfy` (Search) and `engine.dfy` (Engine).

## Model

| member | source | states |
|---|---|---|
| Engine.MakeMove | chessai.py:4-18 | Never raises "No move found". The score and successor are those of depth-4 minimax from the side to move. The move is minimax's move, or the winner's name ("black win" / "white win") when there is none. |
| Engine.MaxValue | chessai.py:20-47 | White's node equals the alpha-beta function: the evaluation at depth 0, -inf when mated, (0, "$") when stalemated, else the loop over the legal successors. |
| Engine.MaxLoop | chessai.py:35-45 | White's successor loop equals the alpha-beta loop. A strictly better score replaces the best, alpha rises to the best, and the loop stops once beta <= alpha. |
| Engine.MinValue | chessai.py:50-77 | Black's node equals the alpha-beta function, with +inf when mated. |
| Engine.MinLoop | chessai.py:65-75 | Black's successor loop equals the alpha-beta loop. A strictly lower score replaces the best, beta falls to the best, and the loop stops once beta <= alpha. |
| Search.Pick | chessai.py:38-41 | A strictly better score replaces the best with that score, move and successor. Anything else, a tie included, keeps the old best. The result is never worse than either the old best or the new score. |
| Search.Terminal | chessai.py:21-33 | A node that looks at no successor returns no successor. At depth 0 it returns the static evaluation and no move. Otherwise it has no move exactly when the side to move is in check (mate, scored -inf for White and +inf for Black); if not in check it is stalemate, scored 0 with move "$". |
| Search.AlphaBeta | chessai.py:20-77 | max_value (White) and min_value (Black) as the source runs them, pruning included. A successor it returns comes, with its notation, from the side's own list of successors. |
| Search.ABLoop | chessai.py:35-45 | The successor loop with its window. It returns the best it started with, or a (successor, notation) pair taken from the successors it has still to look at. |
| Search.Max | chessai.py:43 | Python's max on scores: an upper bound of both arguments, and equal to one of them. |
| Search.Min | chessai.py:73 | Python's min on scores: a lower bound of both arguments, and equal to one of them. |
| Search.FailSoft | chessai.py:20-77 | For every non-empty window (alpha, beta), the pruned score is fail-soft for the minimax score m. It is <= alpha when m is, >= beta when m is, and m itself in between. |
| Search.MaxLoopBounds | chessai.py:35-45 | White's pruned loop keeps the fail-soft bounds of the unpruned loop, including after a cut-off. |
| Search.MinLoopBounds | chessai.py:65-75 | Black's pruned loop keeps the fail-soft bounds of the unpruned loop, including after a cut-off. |
| Search.MMLoopMonotone | chessai.py:35-45 | The unpruned loop never ends worse for the side to move than the best it started from. |
| Search.MMLoopStuck | chessai.py:38-41 | Once the best so far is a mate for the side to move, no later successor replaces it. |
| Search.RootMaxLoop | chessai.py:35-45 | With the full window on entry, White's pruned loop returns exactly what the unpruned loop returns. |
| Search.RootMinLoop | chessai.py:65-75 | With the full window on entry, Black's pruned loop returns exactly what the unpruned loop returns. |
| Search.RootEquality | chessai.py:4-7 | From the window (-inf, +inf) that make_move uses, alpha-beta returns the same score, move and successor as minimax. |
| Search.BestOfStep | chessai.py:38-41 | One loop step keeps "best is the first successor of the best score so far, or the start value if there is none". |
| Search.MMLoopBest | chessai.py:35-45 | The whole unpruned loop produces the first successor of the best score. |
| Search.MinimaxBest | chessai.py:35-47 | No successor scores better than the node's result. There are two cases. (a) Some successor scores strictly better than a mate: the result is the first successor of the best score, with its notation and board. (b) There is no such successor: the node has no move and no successor. |
| Search.NoMoveMeansLost | chessai.py:9-16 | At depth >= 1 the search has no move exactly when its score is a mate against the side to move, and then it has no successor either. |
| Engine.ChessRulesHold | chessai.py:20-33 | The concrete game uses get_succs, evaluate and is_in_check. |
| Engine.ChosenMoveIsLegal | chessai.py:35-47 | When the search picks a successor, it comes from a pseudo-legal move of the side to move that does not leave that side's king in check. Its move string is that move's notation, marked '+' when it checks the other king. |
| Engine.MoveScore | chessai.py:79-100 | A pseudo-legal move is made by a piece of the side to move. It changes the evaluation only by what it captures: a quiet move keeps the score, and a capture moves the score towards the mover by the captured piece's value. |
| Evaluation.Evaluate | chessai.py:79-100 | The double loop returns BoardValue, the sum over all cells of +value for white pieces and -value for black ones. |
| Evaluation.PieceValue | chessai.py:80-87 | Piece values lie between 0 and 9. |
| Evaluation.RowMaterial | chessai.py:89-98 | A row's material for one colour is between 0 and 9 per cell. |
| Evaluation.OwnValue | chessai.py:94 | A cell's value for one colour is between 0 and 9. |
| Evaluation.RowsMaterial | chessai.py:89-98 | The material of n rows for one colour is between 0 and 72 per row. |
| Evaluation.Material | chessai.py:89-98 | One side's material is between 0 and 576. |
| Evaluation.RowValueMaterial | chessai.py:91-98 | A row's score is White's material in it minus Black's. |
| Evaluation.RowsValueMaterial | chessai.py:90-98 | The score of the first n rows is White's material in them minus Black's. |
| Evaluation.ValueIsMaterial | chessai.py:89-100 | The evaluation is White's material minus Black's, so it lies in [-576, 576]. |
| Evaluation.RowValueUpdate | chessai.py:91-98 | Writing one cell of a row changes the row's score by the new cell's value minus the old one's. |
| Evaluation.RowsValueUpdate | chessai.py:90-98 | Writing one cell changes the score of the rows containing it by the new value minus the old. |
| Evaluation.SetCellValue | chessai.py:89-100 | Writing one cell changes the evaluation by the new cell's value minus the old one's. |
| Evaluation.ApplyValue | chessai.py:136-138 | A move from one square to another lowers the evaluation by exactly the value of the cell it lands on, and by nothing for an empty one. |
| Legality.FilterChecks | chessai.py:329-343 | The loop keeps, in order, the successors whose own king is not in check, and appends '+' exactly when the other king is. |
| Legality.Filtered | chessai.py:329-343 | The filter never lengthens the list. |
| Legality.FilteredSafe | chessai.py:333-335 | No successor that survives the filter leaves the mover's king in check. |
| Legality.FilteredAppend | chessai.py:332-341 | Filtering a concatenation is filtering each part, in order. |
| Legality.FilteredOne | chessai.py:333-341 | A single successor is dropped when it leaves its own king in check. Otherwise it is kept, with '+' exactly when it checks the other king. |
| Legality.PieceMoves | chessai.py:108-122 | The moves for the square (i, j) are those of the generator that the piece's letter selects, and none for an empty square or an enemy piece. |
| Legality.ScanRow | chessai.py:107-122 | One row of the scan gives the moves of its squares, left to right. |
| Legality.GetSuccs | chessai.py:102-125 | get_succs returns Succs, the check filter applied to all pseudo-legal moves in row-major scan order. |
| Legality.LegalExact | chessai.py:329-343 | A move is kept exactly when it is one of the candidates and does not leave its own king in check. |
| Legality.MarkedMoves | chessai.py:338-341 | Marking keeps the number of moves. |
| Legality.MarkedMovesAt | chessai.py:338-341 | The i-th marked pair is the i-th move's pair, marked. |
| Legality.MarkedMovesSnoc | chessai.py:338-341 | Marking a list with one more move adds that move's marked pair at the end. |
| Legality.FilteredMoves | chessai.py:329-343 | Filtering the pairs of some moves gives the pairs of their safe moves, in order, marked. |
| Legality.FilteredMovesLast | chessai.py:332-341 | The last move's pair survives the filter exactly when that move is safe. |
| Legality.SuccsExact | chessai.py:102-125 | The successors are the legal moves in scan order, with '+' marks. A move is legal exactly when it is pseudo-legal and does not leave the mover's king in check. |
| MoveGen.MovesOf | chessai.py:136-139 | A list of moves gives one pair per move. |
| MoveGen.MovesOfAt | chessai.py:136-139 | The i-th pair is the i-th move's pair. |
| MoveGen.MovesOfAppend | chessai.py:112-122 | The pairs of a concatenation are the concatenation of the pairs. |
| MoveGen.MovesOfSnoc | chessai.py:139 | Appending a move appends its pair. |
| MoveGen.AllOkAppend | chessai.py:112-122 | Well-formed move lists stay well formed under concatenation. |
| MoveGen.MovePair | chessai.py:136-139 | deepcopy, the two cell writes and to_notation give the move's pair: the board after the move and its notation. |
| MoveGen.GeneratePawnMoves | chessai.py:128-160 | The pawn generator returns the pairs of the pawn's pushes, then its captures. |
| MoveGen.PawnPushMoves | chessai.py:134-146 | A single step onto an empty square, then from the start row a double step when the square two ahead is empty too. |
| MoveGen.PawnCaptureMoves | chessai.py:148-158 | The diagonal captures, left then right. |
| MoveGen.PawnCapturesSnoc | chessai.py:149 | One more diagonal appends that diagonal's capture. |
| MoveGen.PawnCaptureMove | chessai.py:150-158 | One diagonal gives a capture exactly when the square is on the board and holds an enemy piece. |
| MoveGen.PawnPushesExact | chessai.py:134-146 | A move is a push exactly when it is a single step onto an empty square, or a double step from the start row over two empty squares. |
| MoveGen.PawnCapturesExact | chessai.py:148-158 | A move is a pawn capture exactly when it goes one row forward and one column aside onto an enemy piece. |
| MoveGen.PawnCapturesBoth | chessai.py:149 | The captures are the left diagonal's, then the right's. |
| MoveGen.PawnTargetsOk | chessai.py:128-160 | Every pawn move starts at the pawn and lands on another on-board square that is not friendly. It is flagged as a capture exactly when that square holds an enemy piece. |
| MoveGen.PawnPushesOk | chessai.py:134-146 | Pushes are well formed and never captures. |
| MoveGen.PawnCaptureOk | chessai.py:150-158 | A diagonal capture is well formed and lands on an enemy piece. |
| MoveGen.PawnTargetsExact | chessai.py:128-160 | A pawn makes exactly the moves of its rules, in both directions. |
| MoveGen.JumpMoves | chessai.py:205-213 | The knight or king loop returns the pairs of the moves its offset table allows, in table order. |
| MoveGen.JumpMove1 | chessai.py:206-213 | One offset gives a move exactly when it lands on the board on an empty or enemy square. The move captures exactly in the enemy case. |
| MoveGen.JumpTargetsOk | chessai.py:205-213 | Every knight or king move is well formed. |
| MoveGen.JumpTargetsExact | chessai.py:205-213 | A move is produced exactly when some offset lands on the board, not on a friendly piece, and gives that move. |
| MoveGen.JumpTargetsLast | chessai.py:205-213 | The last offset adds exactly its own jump. |
| MoveGen.GenerateKnightMoves | chessai.py:192-215 | The knight generator is the jump loop over the eight L-shaped offsets. |
| MoveGen.GenerateKingMoves | chessai.py:279-300 | The king generator is the jump loop over the eight adjacent offsets. |
| MoveGen.SlideMoves | chessai.py:169-187 | The direction loop returns the slides along each direction in turn. |
| MoveGen.RayPrefixSnoc | chessai.py:171-187 | One more square along the ray appends its move. |
| MoveGen.RayMoves | chessai.py:170-187 | The walk along one direction returns the quiet moves over the empty squares, then the capture of a first enemy piece. It stops at the edge or at the first piece. |
| MoveGen.RaySquare | chessai.py:172-185 | An empty square adds a quiet move and the walk goes on. An enemy piece adds a capture and ends it. A friendly piece ends it with no move. |
| MoveGen.RayTargetsStop | chessai.py:171-187 | When the first n squares are empty and the next is not, the ray's moves are those n, plus the capture if the next square holds an enemy. |
| MoveGen.RayTargetsOk | chessai.py:171-187 | Every slide along one ray is well formed. |
| MoveGen.RayTargetsExact | chessai.py:171-187 | A slide reaches distance k exactly when every nearer square is empty and square k is on the board and not friendly. The j-th move goes to distance j+1. |
| MoveGen.RayTargetsMember | chessai.py:171-187 | A move is on one ray's list exactly when, for some distance k, every nearer square is empty, square k is on the board and not friendly, and the move goes there. |
| MoveGen.RayListsAt | chessai.py:169 | The k-th ray list is the ray along the k-th direction. |
| MoveGen.InSomeSnoc | chessai.py:169-187 | A move is on one of n lists exactly when it is on one of the first n-1 or on the last. |
| MoveGen.SlideTargetsExact | chessai.py:169-187 | A move is in the rook, bishop or queen list exactly when it is on the ray of one of the piece's directions. |
| MoveGen.SlideRules | chessai.py:162-277 | A rook, bishop or queen makes exactly the moves of its rules: along one of its directions, every nearer square empty and the destination on the board and not friendly. |
| MoveGen.SlideTargetsOk | chessai.py:169-187 | Every rook, bishop or queen move is well formed. |
| MoveGen.GenerateRookMoves | chessai.py:162-189 | The rook slides along the four straight directions. |
| MoveGen.GenerateBishopMoves | chessai.py:217-244 | The bishop slides along the four diagonals. |
| MoveGen.GenerateQueenMoves | chessai.py:246-277 | The queen slides along the four straight directions, then the four diagonals. |
| MoveGen.PieceTargetsOk | chessai.py:108-122 | The piece on a square makes only moves of its own kind from that square, each well formed. |
| MoveGen.AllPieceMovesOkAppend | chessai.py:112-122 | Concatenating lists of rule-abiding moves keeps them rule-abiding. |
| MoveGen.RowTargetsOk | chessai.py:107-122 | Every move of a row is rule-abiding. |
| MoveGen.BoardTargetsOk | chessai.py:106-122 | Every move of the first i rows is rule-abiding. |
| MoveGen.PseudoTargetsOk | chessai.py:102-123 | Every pseudo-legal move is made by a piece of the side to move, from its own square, by that piece's rules. |
| MoveGen.PseudoMovesAt | chessai.py:102-123 | Each collected pair is the board with one piece of the side to move moved by its rules, with that move's notation. |
| MoveGen.PieceTargetsFrom | chessai.py:108-122 | The moves listed for a square all start from it. |
| MoveGen.RowTargetsExact | chessai.py:107-122 | A move is in a row's list exactly when it is a move of one of the row's first j squares. |
| MoveGen.BoardTargetsExact | chessai.py:106-122 | A move is in the first i rows' list exactly when it is a move of one of their squares. |
| MoveGen.PseudoTargetsExact | chessai.py:102-123 | The pseudo-legal moves are exactly the moves each piece of the side to move makes from its own square. |
| Board.Sq | chessai.py:152 | A cell is defined exactly on the board. |
| Board.ApplyCells | chessai.py:136-138 | After a move the source is empty, the destination holds the moving piece, and every other cell is unchanged. |
| Notation.ToNotation | chessai.py:302-327 | The notation is 2 to 4 characters long and ends with the destination's file letter and rank digit. It has an 'x' just before the square exactly when the move captures. |
| Notation.ParseSquare | chessai.py:312-313 | A parsed square is on the board. |
| Notation.SymbolIsKnown | chessai.py:303-310 | The piece symbol is empty or one of N, R, B, Q, K. |
| Notation.DecodeSuffix | chessai.py:338-339 | A trailing '+' is read as the check flag. |
| Notation.DecodeSquare | chessai.py:312-313 | The last two characters are read back as the destination square. |
| Notation.DecodePrefix | chessai.py:318-324 | The part before the square is read back as symbol, pawn file and capture flag. |
| Notation.DecodeToNotation | chessai.py:302-327 | Decoding the notation, with or without '+', gives back the destination, the capture flag, the piece symbol and, for a pawn capture, the source file. |
| Notation.NotationDeterminesMove | chessai.py:302-327 | Two moves of one piece with different destinations or capture flags never share a notation. |
| Rays.EmptyRunSpec | chessai.py:171-187 | Counting empty squares from distance k stops at the first non-empty one. |
| Rays.RayLengthSpec | chessai.py:381-390 | A line's length n is the number of empty squares at distances 1..n, the square at n+1 being off the board or occupied. |
| Rays.RayLengthUnique | chessai.py:381-390 | Those facts determine the length. |
| Check.IsInCheck | chessai.py:345-413 | is_in_check returns InCheck. It is false without a king. Otherwise it is true exactly when the first king in row-major order is attacked by an enemy knight, an enemy rook or queen first on a file or rank, an enemy bishop or queen first on a diagonal, or an enemy pawn diagonally in front. |
| Check.FindKingSquare | chessai.py:347-358 | The scan returns the first square in row-major order holding the king, or none. |
| Check.FindInRow | chessai.py:349-353 | The inner loop finds the first column of the row holding the king, or reports there is none in the row. |
| Check.SquareAt | chessai.py:349-350 | The n-th square is on the board and has index n. |
| Check.FindFrom | chessai.py:349-353 | A found square is on the board. |
| Check.FindKing | chessai.py:347-358 | A found king square is on the board. |
| Check.FindFromSpec | chessai.py:349-355 | The search from index n finds the first square at or after n holding the king, or none exists. |
| Check.FindKingSpec | chessai.py:347-358 | FindKing returns the first king square in row-major order, and none exactly when the side has no king. |
| Check.NoneInStep | chessai.py:351 | A non-king square extends the king-free prefix. |
| Check.FindFromSkip | chessai.py:349-353 | Squares without the king do not change the result. |
| Check.FindFromFound | chessai.py:351-353 | The first square holding the king is the one found. |
| Check.NoKingNoCheck | chessai.py:356-357 | A side without its king on the board is never in check. |
| Check.KnightChecks | chessai.py:372-378 | True exactly when an enemy knight stands a knight's jump from the king. |
| Check.RayChecks | chessai.py:380-403 | True exactly when, on some line, the first piece is an enemy of the given kind or a queen. |
| Check.LineCheck | chessai.py:381-390 | The walk along one line is true exactly when the first piece on it is an enemy rook or queen (files and ranks) or an enemy bishop or queen (diagonals). |
| Check.PawnChecks | chessai.py:405-411 | True exactly when an enemy pawn stands on the row in front of the king, one column to either side. |
| Start.StartingBoard | chess.py:3-22 | The side named by white plays from the bottom: its king is on row 7 and the other king on row 0, on the e-file for white = true and the d-file for white = false. |
| Start.StartingBoardLayout | chess.py:3-22 | Rows 2-5 are empty and rows 1 and 6 hold pawns. The back ranks read R N B Q K B N R with the king on e (white = true) or R N B K Q B N R with the king on d (white = false). The bottom side is White exactly when white is set. |
| Start.StartingKings | chess.py:3-22 | The king search finds each side's king on its own back rank. |
| Start.RankMaterial | chess.py:5-12 | A rank's material for a colour is the sum of its eight cells' values for that colour. |
| Start.BoardMaterial | chess.py:3-22 | The starting board's material is that of its ranks. |
| Start.RanksMaterial | chess.py:5-21 | A back rank carries 31 points for its own colour and a pawn rank 8. Neither carries any for the other colour, and an empty rank carries none. |
| Start.StartingBoardValue | chess.py:3-22 | Each side has 39 points of material, so the starting position evaluates to 0. |
| Start.RowCount | chess.py:5-21 | A row holds a piece at most once per cell. |
| Start.RowsCount | chess.py:5-21 | n rows hold a piece at most 8 times per row. |
| Start.RankCount | chess.py:5-21 | A rank's count of a piece is the sum of its cells' hits. |
| Start.BoardCount | chess.py:3-22 | The board's count is the sum of its rows' counts. |
| Start.RanksCount | chess.py:5-21 | The counts of each piece on a back rank, a pawn rank and an empty rank. |
| Start.RanksSum | chess.py:3-22 | Summed over the eight ranks, those counts give the standard census. |
| Start.StartingRows | chess.py:3-22 | The starting board's count of a cell is the sum over its back ranks, pawn ranks and four empty ranks. |
| Start.StartingCensus | chess.py:3-22 | Each colour has exactly one king, one queen, two rooks, two knights, two bishops and eight pawns. |
| Start.StartingSides | chess.py:3-22 | Each side has 16 pieces. |

## Left out

- The web front end (`server.py`, `static/script.js`) and its I/O are not part of this model.
- Board cells are strings in the source ('pw', 'kb', '') and a tagged value here. Strings of other shapes, such as an unknown letter, which `evaluate` would value at 0, are not modelled.
- Scores are Python floats and ints in the source. Here they are the datatype `Score`, because the only non-integer values the source produces are the two infinities.
- Castling, en passant and promotion are not modelled, because the source does not implement them. A pawn that reaches the last rank stays a pawn.
- The default argument `white=True` of `make_move` (chessai.py:4) and of `get_starting_board` (chess.py:3) is not modelled. Engine.MakeMove and Start.StartingBoard always take the side explicitly.
- `to_notation` is modelled only on on-board squares. Its defaults (`col=0, src_row=0, src_col=0`) are never used by the generators. Off-board coordinates, which only a direct caller could pass, are not modelled.
- MoveGen.MoveOf: it gives an off-board move the unchanged board and an empty notation. No generator makes such a move, as the `*TargetsOk` lemmas show.
- The loops inside the generators and in `is_in_check` are split into helper methods (RaySquare, JumpMove1, FindInRow, LineCheck) to keep each proof small. Their steps are the source's.
- Engine.MaxValue, Engine.MinValue, Engine.MaxLoop, Engine.MinLoop: the chess rules are passed as a ghost `Game` value, and `ChessRules` ties it to the model's functions. `make_move` instantiates it with `Chess()`.
- `copy.deepcopy` is value semantics: a board is never aliased or mutated in place.
- The search does not model recursion depth, running time or the cost of copying boards.
- Check detection does not count an adjacent enemy king as an attack. This is faithful to `is_in_check`, which tests only knights, sliders and pawns (chessai.py:371-411), so a king may step next to the enemy king.
