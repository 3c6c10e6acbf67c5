/**
 * The public engine API: shape checks and broadcasting of board and
 * side-to-move inputs, the single-board calls that pick element 0 of a batch,
 * the conversion of move-table rows to move records, and the backend's name.
 */
module EngineApi {
  import opened Wrappers
  import opened EngineCpu
  import EngineBatch

  /** An argument as NumPy sees it once converted to an array: 0, 1 or 2 dimensions. */
  datatype Input = Scalar(x: int) | Vector(xs: seq<int>) | Matrix(width: nat, rows: seq<seq<int>>)

  /** A two-dimensional input is rectangular. */
  predicate Rectangular(a: Input) {
    a.Matrix? ==> forall k :: 0 <= k < |a.rows| ==> |a.rows[k]| == a.width
  }

  function Shape(a: Input): seq<int> {
    match a
    case Scalar(_) => []
    case Vector(xs) => [|xs|]
    case Matrix(width, rows) => [|rows|, width]
  }

  datatype ApiError =
    | PieceLength(shape: seq<int>)                      // a 1-D piece array not of length 64
    | ColorLength(shape: seq<int>)                      // a 1-D colour array not of length 64
    | ShapeMismatch(piece: seq<int>, color: seq<int>)   // piece and colour shapes differ
    | NotBoards(shape: seq<int>)                        // second dimension not 64
    | NoSecondAxis                                      // IndexError: shape[1] of 0-D arrays
    | StmLength(expected: int, got: int)                // 1-D side to move of the wrong length
    | StmShape(shape: seq<int>)                         // side to move of 2 or more dimensions
    | StmIndex(index: int)                              // the batch driver's IndexError
    | NoBoard                                           // IndexError: element 0 of an empty batch

  /** Whether an input holds boards: one length-64 array, or rows of width 64. */
  predicate HoldsBoards(a: Input) {
    (a.Vector? && |a.xs| == 64) || (a.Matrix? && a.width == 64)
  }

  /** The number of boards an input that holds boards holds. */
  function BoardCount(a: Input): nat
    requires HoldsBoards(a)
  {
    if a.Vector? then 1 else |a.rows|
  }

  /** The boards an input holds. */
  function BoardsOf(a: Input): seq<seq<int>>
    requires HoldsBoards(a)
  {
    if a.Vector? then [a.xs] else a.rows
  }

  /** reshape(1, 64) of a length-64 vector; anything else is left as it is. */
  function AsBatch(a: Input): Input {
    if a.Vector? && |a.xs| == 64 then Matrix(64, [a.xs]) else a
  }

  // ---------------------------------------------------------------------
  // _normalize_board_batch and _normalize_stm_batch
  // ---------------------------------------------------------------------

  function NormalizeBoardBatch(piece: Input, color: Input): (r: Result<(seq<seq<int>>, seq<seq<int>>), ApiError>)
    requires Rectangular(piece) && Rectangular(color)
  {
    if piece.Vector? && |piece.xs| != 64 then Err(PieceLength(Shape(piece)))
    else
      var p := AsBatch(piece);
      if color.Vector? && |color.xs| != 64 then Err(ColorLength(Shape(color)))
      else
        var c := AsBatch(color);
        if Shape(p) != Shape(c) then Err(ShapeMismatch(Shape(p), Shape(c)))
        else if !p.Matrix? then Err(NoSecondAxis)
        else if p.width != 64 then Err(NotBoards(Shape(p)))
        else Ok((p.rows, c.rows))
  }

  /**
   * Boards are accepted exactly when both inputs hold boards and the same
   * number of them; the result is then those boards, 64 squares each.
   */
  lemma NormalizeBoardBatchSpec(piece: Input, color: Input)
    requires Rectangular(piece) && Rectangular(color)
    ensures NormalizeBoardBatch(piece, color).Ok? <==>
            HoldsBoards(piece) && HoldsBoards(color) && BoardCount(piece) == BoardCount(color)
    ensures NormalizeBoardBatch(piece, color).Ok? ==>
            NormalizeBoardBatch(piece, color).value == (BoardsOf(piece), BoardsOf(color))
    ensures NormalizeBoardBatch(piece, color).Ok? ==>
            var (p, c) := NormalizeBoardBatch(piece, color).value;
            |p| == |c| && forall i :: 0 <= i < |p| ==> |p[i]| == 64 && |c[i]| == 64
  {
  }

  /** A 1-D piece or colour input of any length but 64 is refused. */
  lemma NormalizeRejectsShortBoard(piece: Input, color: Input)
    requires Rectangular(piece) && Rectangular(color)
    requires (piece.Vector? && |piece.xs| != 64) || (color.Vector? && |color.xs| != 64)
    ensures NormalizeBoardBatch(piece, color).Err?
    ensures piece.Vector? && |piece.xs| != 64 ==> NormalizeBoardBatch(piece, color) == Err(PieceLength([|piece.xs|]))
  {
  }

  function NormalizeStmBatch(stm: Input, n: nat): (r: Result<seq<int>, ApiError>)
    ensures r.Ok? <==> stm.Scalar? || (stm.Vector? && |stm.xs| == n)
    ensures r.Ok? ==> |r.value| == n
    ensures r.Ok? && stm.Scalar? ==> forall i :: 0 <= i < n ==> r.value[i] == stm.x
    ensures r.Ok? && stm.Vector? ==> r.value == stm.xs
  {
    match stm
    case Scalar(x) => Ok(seq(n, _ => x))
    case Vector(xs) => if |xs| != n then Err(StmLength(n, |xs|)) else Ok(xs)
    case Matrix(_, _) => Err(StmShape(Shape(stm)))
  }

  // ---------------------------------------------------------------------
  // Evaluation and attack maps
  // ---------------------------------------------------------------------

  /** What evaluate_position_single returns: the evaluation of board 0. */
  function SingleEvaluation(e: Engine, piece: Input, color: Input): Result<Evaluation, ApiError>
    requires Rectangular(piece) && Rectangular(color)
  {
    match NormalizeBoardBatch(piece, color)
    case Err(err) => Err(err)
    case Ok((p, c)) => if |p| == 0 then Err(NoBoard) else Ok(e.evaluate(p[0], c[0]))
  }

  method EvaluatePositionBatch(e: Engine, piece: Input, color: Input) returns (r: Result<EngineBatch.BatchEvaluation, ApiError>)
    requires Rectangular(piece) && Rectangular(color)
    ensures NormalizeBoardBatch(piece, color).Err? ==> r == Err(NormalizeBoardBatch(piece, color).error)
    ensures NormalizeBoardBatch(piece, color).Ok? ==>
              var (p, c) := NormalizeBoardBatch(piece, color).value;
              |p| == |c| && r.Ok? && EngineBatch.EvaluatesEach(e, p, c, r.value)
  {
    var norm := NormalizeBoardBatch(piece, color);
    if norm.Err? {
      return Err(norm.error);
    }
    NormalizeBoardBatchSpec(piece, color);
    var (p, c) := norm.value;
    var batch := EngineBatch.EvaluateBatch(e, p, c);
    return Ok(batch);
  }

  method EvaluatePositionSingle(e: Engine, piece: Input, color: Input) returns (r: Result<Evaluation, ApiError>)
    requires Rectangular(piece) && Rectangular(color)
    ensures r == SingleEvaluation(e, piece, color)
  {
    var norm := NormalizeBoardBatch(piece, color);
    if norm.Err? {
      return Err(norm.error);
    }
    NormalizeBoardBatchSpec(piece, color);
    var (p, c) := norm.value;
    var batch := EngineBatch.EvaluateBatch(e, p, c);
    if |batch.whiteOff| == 0 {
      return Err(NoBoard);
    }
    assert Evaluation(batch.whiteOff[0], batch.whiteDef[0], batch.blackOff[0], batch.blackDef[0]) == e.evaluate(p[0], c[0]);
    return Ok(Evaluation(batch.whiteOff[0], batch.whiteDef[0], batch.blackOff[0], batch.blackDef[0]));
  }

  /** A single length-64 board is evaluated exactly as the engine evaluates it. */
  lemma SingleEvaluationOfBoard(e: Engine, pieces: seq<int>, colors: seq<int>)
    requires |pieces| == 64 && |colors| == 64
    ensures SingleEvaluation(e, Vector(pieces), Vector(colors)) == Ok(e.evaluate(pieces, colors))
  {
    NormalizeBoardBatchSpec(Vector(pieces), Vector(colors));
  }

  /** evaluate_position_single succeeds exactly on inputs holding at least one board, in matching counts. */
  lemma SingleEvaluationOk(e: Engine, piece: Input, color: Input)
    requires Rectangular(piece) && Rectangular(color)
    ensures SingleEvaluation(e, piece, color).Ok? <==>
            HoldsBoards(piece) && HoldsBoards(color) && BoardCount(piece) == BoardCount(color) && BoardCount(piece) > 0
    ensures SingleEvaluation(e, piece, color).Ok? ==>
            SingleEvaluation(e, piece, color).value == e.evaluate(BoardsOf(piece)[0], BoardsOf(color)[0])
  {
    NormalizeBoardBatchSpec(piece, color);
  }

  /** What attack_maps_single returns: row 0 of both batch grids. */
  function SingleAttackMaps(e: Engine, piece: Input, color: Input): Result<AttackMaps, ApiError>
    requires Rectangular(piece) && Rectangular(color)
  {
    match NormalizeBoardBatch(piece, color)
    case Err(err) => Err(err)
    case Ok((p, c)) => if |p| == 0 then Err(NoBoard) else Ok(e.attackMaps(p[0], c[0]))
  }

  method AttackMapsBatch(e: Engine, piece: Input, color: Input) returns (r: Result<(seq<seq<bool>>, seq<seq<bool>>), ApiError>)
    requires Rectangular(piece) && Rectangular(color)
    ensures NormalizeBoardBatch(piece, color).Err? ==> r == Err(NormalizeBoardBatch(piece, color).error)
    ensures NormalizeBoardBatch(piece, color).Ok? ==>
              var (p, c) := NormalizeBoardBatch(piece, color).value;
              && r.Ok? && |r.value.0| == |p| && |r.value.1| == |p| && |c| == |p|
              && forall i :: 0 <= i < |p| ==> r.value.0[i] == e.attackMaps(p[i], c[i]).white && r.value.1[i] == e.attackMaps(p[i], c[i]).black
  {
    var norm := NormalizeBoardBatch(piece, color);
    if norm.Err? {
      return Err(norm.error);
    }
    NormalizeBoardBatchSpec(piece, color);
    var (p, c) := norm.value;
    var white, black := EngineBatch.ComputeAttackMapsBatch(e, p, c);
    return Ok((white, black));
  }

  method AttackMapsSingle(e: Engine, piece: Input, color: Input) returns (r: Result<AttackMaps, ApiError>)
    requires Rectangular(piece) && Rectangular(color)
    ensures r == SingleAttackMaps(e, piece, color)
  {
    var batch := AttackMapsBatch(e, piece, color);
    if batch.Err? {
      return Err(batch.error);
    }
    var (white, black) := batch.value;
    if |white| == 0 {
      return Err(NoBoard);
    }
    return Ok(AttackMaps(white[0], black[0]));
  }

  /** The CPU engine reports no attacked square on any single board. */
  lemma CpuSingleAttackMaps(pieces: seq<int>, colors: seq<int>)
    requires |pieces| == 64 && |colors| == 64
    ensures SingleAttackMaps(Cpu(), Vector(pieces), Vector(colors)).Ok?
    ensures NoAttacks(SingleAttackMaps(Cpu(), Vector(pieces), Vector(colors)).value)
  {
    NormalizeBoardBatchSpec(Vector(pieces), Vector(colors));
  }

  // ---------------------------------------------------------------------
  // Move generation
  // ---------------------------------------------------------------------

  datatype Move = Move(boardIdx: int, fromSq: int, toSq: int, promo: int, flags: int)

  datatype SingleMove = SingleMove(fromSq: int, toSq: int, promo: int, flags: int)

  predicate FiveColumns(rows: seq<seq<int>>) {
    forall k :: 0 <= k < |rows| ==> |rows[k]| == EngineBatch.MOVE_COLUMNS
  }

  function ToMove(row: seq<int>): Move
    requires |row| == EngineBatch.MOVE_COLUMNS
  {
    Move(row[EngineBatch.MOVE_IDX], row[EngineBatch.MOVE_FROM], row[EngineBatch.MOVE_TO],
         row[EngineBatch.MOVE_PROMO], row[EngineBatch.MOVE_FLAGS])
  }

  function ToSingleMove(row: seq<int>): SingleMove
    requires |row| == EngineBatch.MOVE_COLUMNS
  {
    SingleMove(row[EngineBatch.MOVE_FROM], row[EngineBatch.MOVE_TO], row[EngineBatch.MOVE_PROMO], row[EngineBatch.MOVE_FLAGS])
  }

  /** The move table of a normalised batch, or the batch driver's error. */
  function MoveTable(e: Engine, p: seq<seq<int>>, c: seq<seq<int>>, stm: seq<int>): (r: Result<seq<seq<int>>, ApiError>)
    requires |p| == |c|
  {
    if |stm| < |p| then Err(StmIndex(|stm|)) else Ok(EngineBatch.BatchMoves(e, p, c, stm, |p|))
  }

  /** What generate_moves_single returns: every table row without its board index. */
  function MovesSingle(e: Engine, piece: Input, color: Input, stm: Input): Result<seq<SingleMove>, ApiError>
    requires Rectangular(piece) && Rectangular(color)
  {
    match NormalizeBoardBatch(piece, color)
    case Err(err) => Err(err)
    case Ok((p, c)) =>
      match NormalizeStmBatch(stm, 1)
      case Err(err) => Err(err)
      case Ok(stmBatch) =>
        NormalizeBoardBatchSpec(piece, color);
        match MoveTable(e, p, c, stmBatch)
        case Err(err) => Err(err)
        case Ok(rows) =>
          EngineBatch.BatchMovesShape(e, p, c, stmBatch, |p|);
          Ok(seq(|rows|, k requires 0 <= k < |rows| => ToSingleMove(rows[k])))
  }

  /** What generate_moves_batch returns: one move per table row, in table order. */
  function MovesBatch(e: Engine, piece: Input, color: Input, stm: Input): Result<seq<Move>, ApiError>
    requires Rectangular(piece) && Rectangular(color)
  {
    match NormalizeBoardBatch(piece, color)
    case Err(err) => Err(err)
    case Ok((p, c)) =>
      match NormalizeStmBatch(stm, |p|)
      case Err(err) => Err(err)
      case Ok(stmBatch) =>
        NormalizeBoardBatchSpec(piece, color);
        match MoveTable(e, p, c, stmBatch)
        case Err(err) => Err(err)
        case Ok(rows) =>
          EngineBatch.BatchMovesShape(e, p, c, stmBatch, |p|);
          Ok(seq(|rows|, k requires 0 <= k < |rows| => ToMove(rows[k])))
  }

  method GenerateMovesSingle(e: Engine, piece: Input, color: Input, stm: Input) returns (r: Result<seq<SingleMove>, ApiError>)
    requires Rectangular(piece) && Rectangular(color)
    ensures r == MovesSingle(e, piece, color, stm)
  {
    var norm := NormalizeBoardBatch(piece, color);
    if norm.Err? {
      return Err(norm.error);
    }
    var (p, c) := norm.value;
    var stmNorm := NormalizeStmBatch(stm, 1);
    if stmNorm.Err? {
      return Err(stmNorm.error);
    }
    var stmBatch := stmNorm.value;
    NormalizeBoardBatchSpec(piece, color);
    var table := EngineBatch.GenerateMovesBatch(e, p, c, stmBatch);
    if table.Err? {
      return Err(StmIndex(table.error.index));
    }
    var rows := table.value;
    EngineBatch.BatchMovesShape(e, p, c, stmBatch, |p|);
    var out: seq<SingleMove> := [];
    for i := 0 to |rows|
      invariant out == seq(i, k requires 0 <= k < i => ToSingleMove(rows[k]))
    {
      var row := rows[i];
      out := out + [SingleMove(row[EngineBatch.MOVE_FROM], row[EngineBatch.MOVE_TO],
                               row[EngineBatch.MOVE_PROMO], row[EngineBatch.MOVE_FLAGS])];
    }
    return Ok(out);
  }

  method GenerateMovesBatch(e: Engine, piece: Input, color: Input, stm: Input) returns (r: Result<seq<Move>, ApiError>)
    requires Rectangular(piece) && Rectangular(color)
    ensures r == MovesBatch(e, piece, color, stm)
  {
    var norm := NormalizeBoardBatch(piece, color);
    if norm.Err? {
      return Err(norm.error);
    }
    var (p, c) := norm.value;
    var n := |p|;
    var stmNorm := NormalizeStmBatch(stm, n);
    if stmNorm.Err? {
      return Err(stmNorm.error);
    }
    var stmBatch := stmNorm.value;
    NormalizeBoardBatchSpec(piece, color);
    var table := EngineBatch.GenerateMovesBatch(e, p, c, stmBatch);
    assert table.Ok?;
    var rows := table.value;
    EngineBatch.BatchMovesShape(e, p, c, stmBatch, |p|);
    var out: seq<Move> := [];
    for i := 0 to |rows|
      invariant out == seq(i, k requires 0 <= k < i => ToMove(rows[k]))
    {
      var row := rows[i];
      out := out + [Move(row[EngineBatch.MOVE_IDX], row[EngineBatch.MOVE_FROM], row[EngineBatch.MOVE_TO],
                         row[EngineBatch.MOVE_PROMO], row[EngineBatch.MOVE_FLAGS])];
    }
    return Ok(out);
  }

  lemma OneScalarStm(stm: int)
    ensures NormalizeStmBatch(Scalar(stm), 1) == Ok([stm])
  {
    var r := NormalizeStmBatch(Scalar(stm), 1);
    assert r.value == [stm];
  }

  /** The single-board move list of one board is the engine's move list, in its order, columns unchanged. */
  lemma MovesSingleOfBoard(e: Engine, pieces: seq<int>, colors: seq<int>, stm: int)
    requires |pieces| == 64 && |colors| == 64
    ensures MovesSingle(e, Vector(pieces), Vector(colors), Scalar(stm)).Ok?
    ensures var ms := e.moves(pieces, colors, stm);
            var r := MovesSingle(e, Vector(pieces), Vector(colors), Scalar(stm)).value;
            |r| == |ms| &&
            forall k :: 0 <= k < |ms| ==> r[k] == SingleMove(ms[k].from, ms[k].to, ms[k].promo, ms[k].flags)
  {
    NormalizeBoardBatchSpec(Vector(pieces), Vector(colors));
    OneScalarStm(stm);
    EngineBatch.OneBoardBatch(e, pieces, colors, stm);
  }

  /**
   * The single-board call normalises the side to move for one board, so a
   * batch of two boards fails at the second board's side to move.
   */
  lemma MovesSingleRejectsTwoBoards(e: Engine, b1: seq<int>, b2: seq<int>, stm: int)
    requires |b1| == 64 && |b2| == 64
    ensures MovesSingle(e, Matrix(64, [b1, b2]), Matrix(64, [b1, b2]), Scalar(stm)) == Err(StmIndex(1))
  {
    OneScalarStm(stm);
  }

  /**
   * Batch moves are the table rows field by field: board b's moves, with the
   * board index b, appear in the engine's order, and the index never decreases.
   */
  lemma MovesBatchRows(e: Engine, piece: Input, color: Input, stm: Input)
    requires Rectangular(piece) && Rectangular(color)
    requires MovesBatch(e, piece, color, stm).Ok?
    ensures HoldsBoards(piece) && HoldsBoards(color)
    ensures var r := MovesBatch(e, piece, color, stm).value;
            forall k1, k2 :: 0 <= k1 <= k2 < |r| ==> 0 <= r[k1].boardIdx <= r[k2].boardIdx < BoardCount(piece)
  {
    NormalizeBoardBatchSpec(piece, color);
    var (p, c) := NormalizeBoardBatch(piece, color).value;
    var stmBatch := NormalizeStmBatch(stm, |p|).value;
    EngineBatch.BatchMovesOrdered(e, p, c, stmBatch, |p|);
    var rows := EngineBatch.BatchMoves(e, p, c, stmBatch, |p|);
    var r := MovesBatch(e, piece, color, stm).value;
    forall k1, k2 | 0 <= k1 <= k2 < |r|
      ensures 0 <= r[k1].boardIdx <= r[k2].boardIdx < BoardCount(piece)
    {
      assert r[k1] == ToMove(rows[k1]) && r[k2] == ToMove(rows[k2]);
    }
  }

  /** The CPU engine gives no moves for any batch it accepts. */
  lemma CpuMovesBatchEmpty(piece: Input, color: Input, stm: Input)
    requires Rectangular(piece) && Rectangular(color)
    requires MovesBatch(Cpu(), piece, color, stm).Ok?
    ensures MovesBatch(Cpu(), piece, color, stm).value == []
  {
    NormalizeBoardBatchSpec(piece, color);
    var (p, c) := NormalizeBoardBatch(piece, color).value;
    var stmBatch := NormalizeStmBatch(stm, |p|).value;
    EngineBatch.CpuBatchMovesEmpty(p, c, stmBatch, |p|);
  }

  // ---------------------------------------------------------------------
  // backend_name
  // ---------------------------------------------------------------------

  /** The backend's name; gpu says whether the GPU backend was detected. */
  function BackendName(gpu: bool): (r: string)
    ensures r == "GPU (CuPy)" <==> gpu
    ensures !gpu <==> r == "CPU (NumPy + Numba)"
  {
    if gpu then "GPU (CuPy)" else "CPU (NumPy + Numba)"
  }
}
