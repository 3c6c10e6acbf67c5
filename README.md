# bishop-forge chess backend — a Dafny model

This project models the computational core of the bishop-forge chess backend:

- **Board geometry** (`ChessUtils`): the 0..63 square numbering (a1 = 0, h8 = 63), the knight, king and pawn target generators, the sliding-ray walker, and bishop, rook and queen targets built from rays.
- **FEN conversion** (`FenUtils`): the Forsyth–Edwards Notation piece-placement and active-colour fields, as read by `fen_to_arrays`, written by `arrays_to_fen` and expanded for display by `fen_to_board_2d`. It also covers the starting-position constant.
- **The single-board CPU engine** (`EngineCpu`): three stubs that return constant results. The engine is a value with three function fields, so the batch driver and the API can be stated for any single-board engine.
- **The batch driver** (`EngineBatch`): the CPU loops that run a single-board engine over N boards.
- **The public engine API** (`EngineApi`):
  - shape checks and broadcasting of board and side-to-move inputs;
  - the single-board calls;
  - move-row conversion;
  - the backend's name.
- **The analysis cache** (`Cache`): a keyed store with a time-to-live. Time is a parameter.
- **Game sessions** (`Sessions`): a session store whose apply and undo operations change a session's board and its list of moves together.
- **The computer opponent** (`Opponent`): the profile scores, the first-maximum move selection with push and pop on a board, and the GPU toggle.

Modelling conventions:

- Integers are unbounded. Values stored in the source's int8/int16/int32 arrays are assumed to fit their dtypes (see "## Left out").
- Python's `//` and `%` are used only with the positive divisor 8, where they agree with Dafny's.
- NumPy arrays are sequences.
- An exception the code raises is an `Err` value of a `Result`.
- A python-chess board is its stack of moves. What its FEN says and whose turn it is are function parameters.
- Code that loops or mutates is modelled by methods. Each method is proved equal to a specification function, and the lemmas state what that function means.

Places where the documentation and the code disagree, and the model follows the code:

- **Malformed FEN.** The repository's documentation describes well-formed FEN only. On other input the code raises:
  - `IndexError` on an empty string;
  - `KeyError` on an unknown letter;
  - `IndexError` when the cursor leaves -64..63.

  A cursor between -64 and -1 silently writes at index + 64, because NumPy wraps negative indices. All of these are modelled (`FenUtils.ParseErrors`, `FenUtils.NegativeCursorWraps`).
- **`generate_moves_single` on a batch.** This call normalises the side to move for one board. When it is given two or more boards, the batch driver then indexes past the end of that side-to-move array. The model reports this as `Err(StmIndex(1))` (`EngineApi.MovesSingleRejectsTwoBoards`).

## Model

| member | source | states |
|---|---|---|
| ChessUtils.SquareCoordinates | backend/app/engine_core/chess_utils.py:25-45 | a square's file lies in 0..7; rank and file rebuild the square; the square is valid iff its rank is 0..7 |
| ChessUtils.MakeSquareCoordinates | backend/app/engine_core/chess_utils.py:31-45 | the rank and file of `make_square(rank, file)` are that rank and file, and the square is valid iff the rank is in 0..7 |
| ChessUtils.AbsDiff | backend/app/engine_core/chess_utils.py:49-51 | the result is non-negative and is a − b or b − a |
| ChessUtils.GetKnightAttacks | backend/app/engine_core/chess_utils.py:55-82 | the offset loop returns exactly the targets of the knight offsets that pass the wrap check, in offset order |
| ChessUtils.GetKingAttacks | backend/app/engine_core/chess_utils.py:86-109 | the offset loop returns exactly the king-offset targets that pass the file-wrap check, in offset order |
| ChessUtils.OffsetTargets | backend/app/engine_core/chess_utils.py:71-80 | there are no more targets than offsets, so at most 8 |
| ChessUtils.OffsetTargetsMembership | backend/app/engine_core/chess_utils.py:71-80 | a square is a target iff the check accepts it and its distance from sq is one of the offsets |
| ChessUtils.KnightTargetsExact | backend/app/engine_core/chess_utils.py:65-82 | t is a knight target of a valid sq iff t is a valid square at (rank, file) distance (2,1) or (1,2) |
| ChessUtils.KingTargetsExact | backend/app/engine_core/chess_utils.py:96-109 | t is a king target of a valid sq iff t is a valid square other than sq with rank and file distance at most 1 |
| ChessUtils.KnightOnE4HasEight | backend/app/engine_core/chess_utils.py:65-82 | a knight on e4 (28) attacks exactly the 8 squares 11, 13, 18, 22, 34, 38, 43, 45 |
| ChessUtils.KingOnA1HasThree | backend/app/engine_core/chess_utils.py:96-109 | a king on a1 (0) attacks exactly 1, 8 and 9 |
| ChessUtils.PawnAttacks | backend/app/engine_core/chess_utils.py:113-148 | a pawn attacks at most 2 squares |
| ChessUtils.PawnTargetsExact | backend/app/engine_core/chess_utils.py:124-148 | t is a pawn target iff it is a valid square on an adjacent file, one rank forward for white and one rank back for any other colour |
| ChessUtils.GetRayAttacks | backend/app/engine_core/chess_utils.py:152-188 | the while loop returns exactly the ray `Ray(sq, dir, pieces)` |
| ChessUtils.RayUnfold | backend/app/engine_core/chess_utils.py:166-186 | a step that leaves the board or wraps a file ends the ray; an occupied next square ends it after being included; an empty one continues it |
| ChessUtils.StepGeometry | backend/app/engine_core/chess_utils.py:168-177 | the wrap check passes iff the step stays within ranks and files 0..7, and then moves by one rank step and one file step |
| ChessUtils.RayGeometry | backend/app/engine_core/chess_utils.py:164-188 | the k-th ray square is sq + (k+1)·dir, (k+1) rank steps and (k+1) file steps away |
| ChessUtils.RayStops | backend/app/engine_core/chess_utils.py:164-188 | every ray square is valid and every one but the last is empty; the ray ends on an occupied square or the board edge; it is empty iff the first step fails |
| ChessUtils.EmptyRayLength | backend/app/engine_core/chess_utils.py:164-188 | on an empty board a ray's length is the number of steps to the edge in that direction |
| ChessUtils.CollectRays | backend/app/engine_core/chess_utils.py:192-230 | the direction loop returns the concatenation of the rays in direction order |
| ChessUtils.GetBishopAttacks | backend/app/engine_core/chess_utils.py:192-202 | the four diagonal rays, concatenated in the order −9, −7, 7, 9 |
| ChessUtils.GetRookAttacks | backend/app/engine_core/chess_utils.py:206-216 | the four orthogonal rays, concatenated in the order −8, −1, 1, 8 |
| ChessUtils.GetQueenAttacks | backend/app/engine_core/chess_utils.py:220-230 | all eight rays, concatenated in the order −9 … 9 |
| ChessUtils.RookOnA1AttacksFourteen | backend/app/engine_core/chess_utils.py:206-216 | a rook on a1 of an empty board attacks 14 squares |
| ChessUtils.QueenRays | backend/app/engine_core/chess_utils.py:220-230 | the queen's result is the eight rays concatenated in the listed order |
| ChessUtils.QueenIsBishopPlusRook | backend/app/engine_core/chess_utils.py:192-230 | the queen's squares are a permutation of the bishop's followed by the rook's |
| FenUtils.PieceOf | backend/app/engine_core/fen_utils.py:34-48 | the table maps exactly p, n, b, r, q, k, to types 1..6 in that order |
| FenUtils.LetterRoundTrip | backend/app/engine_core/fen_utils.py:44-53 | every printed letter is neither a digit, '/' nor a space, and the parser reads back its piece type and colour (white iff upper case) |
| FenUtils.FenToArrays | backend/app/engine_core/fen_utils.py:14-57 | the character loop returns exactly the specification `ParseFen`, including each error it raises |
| FenUtils.ParseKeepsConsistent | backend/app/engine_core/fen_utils.py:41-53 | a successful parse keeps "empty in both arrays or in neither" |
| FenUtils.ParsedIsConsistent | backend/app/engine_core/fen_utils.py:26-55 | every parsed position has colour −1 iff piece 0, and the side to move is white iff the second field is missing or "w" |
| FenUtils.ParseFlush | backend/app/engine_core/fen_utils.py:44-45 | a printed run digit advances the cursor by the run's length |
| FenUtils.ParseAppend | backend/app/engine_core/fen_utils.py:41-53 | parsing a + b is parsing a, then b from where a ended; a failure in a is the result |
| FenUtils.ParseSlash | backend/app/engine_core/fen_utils.py:42-43 | '/' moves the cursor back 16 squares |
| FenUtils.ParsePiece | backend/app/engine_core/fen_utils.py:47-53 | a printed letter writes its piece and colour at the cursor and advances it by one |
| FenUtils.ParseRank | backend/app/engine_core/fen_utils.py:41-53 | reading the rest of a printed rank fills exactly its remaining squares from the arrays and leaves the cursor at the next rank's start |
| FenUtils.ParseRanks | backend/app/engine_core/fen_utils.py:41-53 | reading ranks top..0 of the printed placement fills exactly those ranks from the arrays |
| FenUtils.ParsePrintedPlacement | backend/app/engine_core/fen_utils.py:40-53 | the printed placement reads back as exactly the printed arrays |
| FenUtils.RankText | backend/app/engine_core/fen_utils.py:79-98 | the inner loop builds the rank's text: letters, and one digit per run of empty squares |
| FenUtils.ArraysToFen | backend/app/engine_core/fen_utils.py:60-106 | the nested loops return the ranks 8 to 1 joined by '/', then the colour letter and " - - 0 1" |
| FenUtils.EncodeRankChars | backend/app/engine_core/fen_utils.py:82-98 | a rank's text holds only piece letters and the digits 1..8, and never two digits in a row, so each run of empty squares is one digit |
| FenUtils.PlacementIsOneField | backend/app/engine_core/fen_utils.py:100-102 | the placement is non-empty and has no space, and each rank text is made of piece letters and digits 1..8 with no two digits in a row |
| FenUtils.FenStringFields | backend/app/engine_core/fen_utils.py:102-106 | split on spaces, the printed FEN's first field is the placement and its second is "w" or "b" |
| FenUtils.PlacementRanks | backend/app/engine_core/fen_utils.py:78-102 | the placement is the rank texts from rank 8 down to rank 1, separated by '/' |
| FenUtils.RoundTrip | backend/app/engine_core/fen_utils.py:14-106 | parsing the printed FEN of consistent arrays and a side 0 or 1 gives back those arrays and that side |
| FenUtils.BlankRankText | backend/app/engine_core/fen_utils.py:85-98 | an all-empty stretch of a rank prints as the single digit of its length |
| FenUtils.FullRankText | backend/app/engine_core/fen_utils.py:85-95 | an all-occupied stretch of a rank prints one letter per square, in file order |
| FenUtils.StartingConsistent | backend/app/engine_core/fen_utils.py:140 | the starting arrays are consistent |
| FenUtils.StartingBackRanks | backend/app/engine_core/fen_utils.py:77-100 | the starting back ranks print as "rnbqkbnr" and "RNBQKBNR" |
| FenUtils.StartingPawnRanks | backend/app/engine_core/fen_utils.py:77-100 | the starting pawn ranks print as "pppppppp" and "PPPPPPPP" |
| FenUtils.StartingBlankRank | backend/app/engine_core/fen_utils.py:77-100 | each of ranks 3..6 of the start prints as "8" |
| FenUtils.StartingPlacementPrinted | backend/app/engine_core/fen_utils.py:140 | printing the starting arrays gives the placement field of `STARTING_FEN` |
| FenUtils.StartingFenFields | backend/app/engine_core/fen_utils.py:140 | `STARTING_FEN`'s first two fields are its placement and "w" |
| FenUtils.StartingFen | backend/app/engine_core/fen_utils.py:26-57 | parsing `STARTING_FEN` gives the starting arrays with white to move |
| FenUtils.StartingSquares | backend/app/engine_core/fen_utils.py:140 | rooks on 0, 7, 56, 63; kings on 4 and 60; queens on 3 and 59; pawns on 8..15 and 48..55; 16..47 empty; white on 0..15, black on 48..63 |
| FenUtils.EmptyBoardFen | backend/app/engine_core/fen_utils.py:60-106 | the empty board prints as "8/8/8/8/8/8/8/8 w - - 0 1", and that reads back as all pieces 0 and all colours −1 |
| FenUtils.ParseErrors | backend/app/engine_core/fen_utils.py:26-51 | an empty or all-space FEN has no placement field; an unknown letter fails; a cursor past h8 fails |
| FenUtils.NegativeCursorWraps | backend/app/engine_core/fen_utils.py:42-52 | "////p" drives the cursor to −8, and the pawn lands on square 56 through the negative index |
| FenUtils.Blanks | backend/app/engine_core/fen_utils.py:128-131 | a digit's expansion is that many `None` cells |
| FenUtils.ExpandRows | backend/app/engine_core/fen_utils.py:124-134 | one display row per segment, each the expansion of that segment |
| FenUtils.RowCells | backend/app/engine_core/fen_utils.py:126-133 | the character loop and its blank loop return exactly `ExpandRow` of the row: a digit d adds d empty cells, any other character one cell holding it |
| FenUtils.FenToBoard2D | backend/app/engine_core/fen_utils.py:109-136 | the row loop, with each row expanded by `RowCells`, returns exactly the specification `Board2D`, including the missing-placement error |
| FenUtils.ExpandRowAppend | backend/app/engine_core/fen_utils.py:127-133 | expanding a concatenation is concatenating the expansions |
| FenUtils.SplitJoin | backend/app/engine_core/fen_utils.py:102-122 | splitting on '/' undoes joining with '/' when no part contains '/' |
| FenUtils.RankCellsAt | backend/app/engine_core/fen_utils.py:82-95 | cell k of a rank's display row from `file` on shows square rank·8 + file + k |
| FenUtils.ExpandRank | backend/app/engine_core/fen_utils.py:127-133 | expanding a printed rank gives its pending blanks followed by one cell per square |
| FenUtils.Board2DOfPrinted | backend/app/engine_core/fen_utils.py:109-136 | the display board of a printed FEN has 8 rows, and row j is rank 8 − j of the arrays, one cell per square (every rank text therefore covers exactly 8 squares) |
| FenUtils.StartingBoardIsPrinted | backend/app/engine_core/fen_utils.py:140 | the display board of `STARTING_FEN` is that of the printed starting arrays |
| FenUtils.StartingBoard2D | backend/app/engine_core/fen_utils.py:109-140 | `STARTING_FEN` displays as 8×8 with [0][0] = 'r', [0][4] = 'k', [7][0] = 'R', [7][4] = 'K', pawn rows 1 and 6, and rows 2..5 blank |
| EngineCpu.ComputeAttackMaps | backend/app/engine_core/engine_cpu.py:14-18 | both attack maps have 64 entries, all false |
| EngineCpu.Evaluate | backend/app/engine_core/engine_cpu.py:22-24 | the evaluation is (0, 0, 0, 0) |
| EngineCpu.GeneratePseudoLegalMoves | backend/app/engine_core/engine_cpu.py:28-30 | the move table is empty |
| EngineCpu.CpuIsConstant | backend/app/engine_core/engine_cpu.py:12-30 | all three results are independent of the arguments |
| EngineBatch.ComputeAttackMapsBatch | backend/app/engine_core/engine_batch.py:16-35 | N rows of each map, row i being board i's single-board maps |
| EngineBatch.EvaluateBatch | backend/app/engine_core/engine_batch.py:42-67 | four length-N outputs, entry i being the components of board i's evaluation; identical boards give identical entries |
| EngineBatch.Block | backend/app/engine_core/engine_batch.py:97-102 | one output row per move, each (i, from, to, promo, flags) |
| EngineBatch.GenerateMovesBatch | backend/app/engine_core/engine_batch.py:74-109 | the loop returns the concatenated tagged move blocks; a short side-to-move array is the `IndexError` of `stm_batch[i]` |
| EngineBatch.BatchMovesCount | backend/app/engine_core/engine_batch.py:87-109 | the row count is the sum of the per-board move counts |
| EngineBatch.NoMovesNoRows | backend/app/engine_core/engine_batch.py:94-107 | when no board has moves the result is the empty table |
| EngineBatch.CpuBatchMovesEmpty | backend/app/engine_core/engine_batch.py:74-109 | with the CPU engine every batch's move table is empty |
| EngineBatch.BatchMovesShape | backend/app/engine_core/engine_batch.py:97-102 | every row has five columns and a board index in 0..N−1 |
| EngineBatch.BatchMovesOrdered | backend/app/engine_core/engine_batch.py:87-109 | the board-index column never decreases |
| EngineBatch.BatchMovesFromBoards | backend/app/engine_core/engine_batch.py:87-109 | every row is (i, m) for some move m of board i |
| EngineBatch.BatchRowsOfBoard | backend/app/engine_core/engine_batch.py:87-109 | the rows tagged b are exactly board b's moves, in their single-board order |
| EngineBatch.BatchRowsOfOther | backend/app/engine_core/engine_batch.py:87-109 | no row carries an index outside 0..N−1 |
| EngineBatch.UntagBlock | backend/app/engine_core/engine_batch.py:97-102 | dropping the index column of a block gives back the board's moves |
| EngineBatch.BatchMovesOfBoard | backend/app/engine_core/engine_batch.py:87-109 | board b's rows, untagged, are board b's move list |
| EngineBatch.OneBoardBatch | backend/app/engine_core/engine_batch.py:87-109 | a batch of one board is that board's moves tagged 0 |
| EngineApi.NormalizeBoardBatchSpec | backend/app/engine.py:99-133 | boards are accepted iff both inputs hold 64-square boards in equal numbers (a 1-D input is one board); the result is those boards |
| EngineApi.NormalizeRejectsShortBoard | backend/app/engine.py:114-121 | a 1-D input of a length other than 64 is refused, the piece input first |
| EngineApi.NormalizeStmBatch | backend/app/engine.py:136-162 | a scalar is broadcast to N copies; a 1-D input must have length N; anything else is refused |
| EngineApi.EvaluatePositionBatch | backend/app/engine.py:194-220 | normalisation errors are passed on; otherwise each entry is the engine's evaluation of that board |
| EngineApi.EvaluatePositionSingle | backend/app/engine.py:169-191 | returns element 0 of the batch outputs, or the error |
| EngineApi.SingleEvaluationOfBoard | backend/app/engine.py:169-191 | one 64-square board is evaluated exactly as the engine evaluates it |
| EngineApi.SingleEvaluationOk | backend/app/engine.py:169-191 | the call succeeds iff the inputs hold at least one board in matching counts, and then gives board 0's evaluation |
| EngineApi.AttackMapsBatch | backend/app/engine.py:227-242 | normalisation errors are passed on; otherwise row i is board i's attack maps |
| EngineApi.AttackMapsSingle | backend/app/engine.py:245-256 | returns row 0 of both batch grids, or the error |
| EngineApi.CpuSingleAttackMaps | backend/app/engine.py:245-256 | with the CPU engine a board's single attack maps are all false |
| EngineApi.GenerateMovesSingle | backend/app/engine.py:263-297 | the row loop returns one `SingleMove` per table row, in order, or the error |
| EngineApi.GenerateMovesBatch | backend/app/engine.py:300-343 | the row loop returns one `Move` per table row, in order, fields from the five columns, or the error |
| EngineApi.OneScalarStm | backend/app/engine.py:149-152 | a scalar side to move for one board becomes the one-element array |
| EngineApi.MovesSingleOfBoard | backend/app/engine.py:263-297 | for one board the result is the engine's move list, in order, with from, to, promo and flags unchanged |
| EngineApi.MovesSingleRejectsTwoBoards | backend/app/engine.py:279-286 | two boards fail at the second board's side to move |
| EngineApi.MovesBatchRows | backend/app/engine.py:327-343 | board indices lie in 0..N−1 and never decrease |
| EngineApi.CpuMovesBatchEmpty | backend/app/engine.py:300-343 | with the CPU engine every accepted batch gives no moves |
| EngineApi.BackendName | backend/app/engine.py:350-354 | "GPU (CuPy)" iff the GPU backend is in use, else "CPU (NumPy + Numba)" |
| Cache.SimpleCache.constructor | backend/app/cache.py:15-17 | empty store, time-to-live 300 |
| Cache.SimpleCache.MakeKey | backend/app/cache.py:19-20 | the key is the pair (fen, depth) |
| Cache.SimpleCache.Get | backend/app/cache.py:22-34 | disabled: None, store unchanged; otherwise the lookup's answer, with only a stale entry for the key dropped |
| Cache.SimpleCache.Set | backend/app/cache.py:36-40 | disabled: store unchanged; otherwise only the key's entry becomes (now, value) |
| Cache.LookupAfterSet | backend/app/cache.py:30-40 | a value set at t is found up to 300 s later and gone after |
| Cache.SetKeepsOtherKeys | backend/app/cache.py:39-40 | setting one key changes no other key's answer |
| Cache.EvictOnlyStaleKey | backend/app/cache.py:31-33 | a lookup removes at most its own key, and only when stale; every other entry and the answer are unchanged |
| Cache.StaleStaysStale | backend/app/cache.py:31-33 | once stale, an entry misses at every later time |
| Sessions.PoppedPushed | backend/app/routers/sessions.py:53-68 | undo after a move restores the entry |
| Sessions.ReplaysPush | backend/app/routers/sessions.py:50-54 | a legal move read from its string keeps the move list replaying the board |
| Sessions.ReplaysPop | backend/app/routers/sessions.py:67-68 | dropping the last move keeps the list replaying the board |
| Sessions.SessionStore.NewSession | backend/app/routers/sessions.py:19-24 | the id maps to the start board and an empty move list |
| Sessions.SessionStore.GetSession | backend/app/routers/sessions.py:27-31 | unknown ids fail with 404 "Session not found"; known ids give their board |
| Sessions.SessionStore.GetSessionState | backend/app/routers/sessions.py:35-38 | the board and the move list, or 404 |
| Sessions.SessionStore.ApplyMove | backend/app/routers/sessions.py:42-56 | 404, then 400 "Invalid UCI move", then 400 "Illegal move in this position", each leaving every session unchanged; the call succeeds iff the id is known and the string reads as a legal move, and then it pushes the board and appends its string |
| Sessions.SessionStore.Undo | backend/app/routers/sessions.py:60-70 | 404, or 400 "No moves to undo" on an empty list, leaving state unchanged; the call succeeds iff the id is known and its list is non-empty, and then it pops the board and the list together |
| Opponent.Scores | backend/app/routers/opponent.py:116-150 | one score per candidate, in candidate order |
| Opponent.BestIndex | backend/app/routers/opponent.py:152-154 | none for no scores; otherwise an index of a maximum score with every earlier score strictly lower |
| Opponent.FirstMaxUnique | backend/app/routers/opponent.py:152-154 | the first maximum is unique |
| Opponent.SelectionIsFirstBest | backend/app/routers/opponent.py:104-163 | no move iff no candidates; otherwise a candidate at the first maximum score, with details.score equal to that move's score |
| Opponent.ZeroSumProfiles | backend/app/routers/opponent.py:125-148 | aggressive and defensive_passive give a change opposite scores from the two sides |
| Opponent.BlackSeesSwapped | backend/app/routers/opponent.py:127-134 | black's view of an evaluation is white's view with the colours exchanged |
| Opponent.NoChangeScoresZero | backend/app/routers/opponent.py:129-150 | a move that changes no evaluation scores 0 under every profile |
| Opponent.EqualScoresPickFirst | backend/app/routers/opponent.py:152-154 | with all scores equal the first candidate is chosen |
| Opponent.CpuPicksFirstCandidate | backend/app/routers/opponent.py:104-163 | with the CPU engine the first candidate is chosen, with all-zero details |
| Opponent.Board.Push | backend/app/routers/opponent.py:117 | appends the move to the stack |
| Opponent.Board.Pop | backend/app/routers/opponent.py:121 | removes the last move |
| Opponent.SelectStrategicMove | backend/app/routers/opponent.py:104-163 | the push/evaluate/pop loop leaves the board as it was and returns exactly `Selection` |
| Opponent.ToggleMessage | backend/app/routers/opponent.py:59 | "GPU enabled" iff enabled, else "GPU disabled (using CPU)" |
| Opponent.GpuSettings.GetGpuStatus | backend/app/routers/opponent.py:40-48 | available as detected; enabled iff available and CPU mode not forced |
| Opponent.GpuSettings.ToggleGpu | backend/app/routers/opponent.py:52-60 | force-CPU becomes ¬enable; reports enable ∧ available, which is the new status, with the matching message |

## Left out

- **GPU paths.** The CuPy branches of the batch driver, `engine_gpu.py` and the GPU detection in `backend.py` are hardware and foreign calls. The GPU flag is a parameter of `BackendName` and `GpuSettings`.
- **`_to_numpy` and array conversion.** This is array-library glue. Inputs are the `Input` datatype of 0, 1 or 2 dimensions.
- **Inputs of three or more dimensions** to `_normalize_board_batch` are not representable in `Input`.
- **Integer widths.** The int8/int16/int32 dtypes are not modelled; every value is assumed to fit its dtype. Squares 0..63 and piece codes 0..6 always do. The int32 evaluation columns (`engine_batch.py:53-56`) and the int16 move table (`engine_batch.py:97`) are filled from an arbitrary engine, and `np.asarray(..., dtype=np.int8)` converts caller input in `_normalize_board_batch` and `_normalize_stm_batch`; the model passes these values on unbounded, so wrap-around on values that do not fit is not captured.
- **Non-ASCII digits.** `str.split()` is modelled with Python's full whitespace set, and `str.lower`/`str.isupper` on every character whose lower case names a piece (including U+212A KELVIN SIGN). Only `str.isdigit` is ASCII here: a non-ASCII digit such as '٣' passes `isdigit()` and `int('٣') == 3` in the code, while the model reports it as `UnknownPiece`.
- **Time.** The cache's time is a `real` parameter (`now`) rather than `time.time()`.
- **Cache settings.** `settings.CACHE_ENABLED` is a constant field of the cache.
- **The random opponent profile** (`random.choice` in `get_opponent_move`) is randomness.
- **The rest of `get_opponent_move`:** its FEN, game-over and no-legal-move checks, and `board.san`. These are python-chess calls.
- **`backend_info()`** in the GPU status is hardware I/O.
- **The toggle's effect.** `_force_cpu_mode` selects no engine in the code, so the model records the flag only.
- **python-chess internals.** Parsing UCI, move legality, FEN output and the board's push and pop are parameters (`parse`, `legal`, `position`, `whiteToMove`) or a move stack.
- **Session ids.** `uuid.uuid4()` is the `id` parameter of `NewSession`.
- **Board aliasing.** In the code each session holds a python-chess `Board` object that apply and undo mutate in place. Here each board is a value in the store's map, which the methods replace.
- **Engine output.** Attack maps, evaluation and move generation have no implementation beyond the constant CPU stubs. The batch driver and the API are proved for any engine given as the `Engine` value.
- **`moves.py`** is not part of this model. Its column constants are taken as MOVE_IDX..MOVE_FLAGS = 0..4.
- FenUtils.ArraysToFen, FenUtils.RankText: these require 64-entry arrays with piece codes 0..6, as the docstring of `arrays_to_fen` promises. A piece code outside the letter table (the `KeyError` of `piece_chars[piece_arr[sq]]`, `fen_utils.py:92`) or a shorter array (`IndexError`) is not modelled as an error.
- EngineBatch.ComputeAttackMapsBatch, EngineBatch.EvaluateBatch, EngineBatch.GenerateMovesBatch: these require the colour batch to have as many boards as the piece batch. The API's normalisation guarantees this before every call.
