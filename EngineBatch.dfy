/**
 * The batch driver: runs a single-board engine over N boards, filling the
 * N x 64 attack grids and the four length-N evaluation columns by index, and
 * stacking every board's moves into one five-column table whose first column
 * is the board's index. Only the CPU loop is modelled.
 */
module EngineBatch {
  import opened Wrappers
  import opened EngineCpu

  /** The columns of a batch move table. */
  const MOVE_IDX: int := 0
  const MOVE_FROM: int := 1
  const MOVE_TO: int := 2
  const MOVE_PROMO: int := 3
  const MOVE_FLAGS: int := 4
  const MOVE_COLUMNS: int := 5

  /** The four evaluation columns of a batch, one entry per board. */
  datatype BatchEvaluation = BatchEvaluation(whiteOff: seq<int>, whiteDef: seq<int>, blackOff: seq<int>, blackDef: seq<int>)

  /** The side-to-move column is shorter than the batch: Python's IndexError at this index. */
  datatype BatchError = StmIndexOutOfRange(index: int)

  // ---------------------------------------------------------------------
  // compute_attack_maps_batch and evaluate_batch
  // ---------------------------------------------------------------------

  method ComputeAttackMapsBatch(e: Engine, pieces: seq<seq<int>>, colors: seq<seq<int>>)
    returns (white: seq<seq<bool>>, black: seq<seq<bool>>)
    requires |colors| == |pieces|
    ensures |white| == |pieces| && |black| == |pieces|
    ensures forall i :: 0 <= i < |pieces| ==> white[i] == e.attackMaps(pieces[i], colors[i]).white
    ensures forall i :: 0 <= i < |pieces| ==> black[i] == e.attackMaps(pieces[i], colors[i]).black
  {
    var n := |pieces|;
    var w := new seq<bool>[n](_ => seq(64, _ => false));
    var b := new seq<bool>[n](_ => seq(64, _ => false));
    for i := 0 to n
      invariant forall k :: 0 <= k < i ==> w[k] == e.attackMaps(pieces[k], colors[k]).white
      invariant forall k :: 0 <= k < i ==> b[k] == e.attackMaps(pieces[k], colors[k]).black
    {
      var maps := e.attackMaps(pieces[i], colors[i]);
      w[i] := maps.white;
      b[i] := maps.black;
    }
    white := w[..];
    black := b[..];
  }

  /** Entry i of each column is the matching component of board i's evaluation. */
  predicate EvaluatesEach(e: Engine, pieces: seq<seq<int>>, colors: seq<seq<int>>, r: BatchEvaluation)
    requires |colors| == |pieces|
  {
    && |r.whiteOff| == |pieces| && |r.whiteDef| == |pieces|
    && |r.blackOff| == |pieces| && |r.blackDef| == |pieces|
    && forall i :: 0 <= i < |pieces| ==>
         Evaluation(r.whiteOff[i], r.whiteDef[i], r.blackOff[i], r.blackDef[i]) == e.evaluate(pieces[i], colors[i])
  }

  method EvaluateBatch(e: Engine, pieces: seq<seq<int>>, colors: seq<seq<int>>) returns (r: BatchEvaluation)
    requires |colors| == |pieces|
    ensures EvaluatesEach(e, pieces, colors, r)
    ensures forall i, j :: 0 <= i < |pieces| && 0 <= j < |pieces| && pieces[i] == pieces[j] && colors[i] == colors[j] ==>
              r.whiteOff[i] == r.whiteOff[j] && r.whiteDef[i] == r.whiteDef[j] &&
              r.blackOff[i] == r.blackOff[j] && r.blackDef[i] == r.blackDef[j]
  {
    var n := |pieces|;
    var whiteOff := new int[n];
    var whiteDef := new int[n];
    var blackOff := new int[n];
    var blackDef := new int[n];
    for i := 0 to n
      invariant forall k :: 0 <= k < i ==>
                  Evaluation(whiteOff[k], whiteDef[k], blackOff[k], blackDef[k]) == e.evaluate(pieces[k], colors[k])
    {
      var ev := e.evaluate(pieces[i], colors[i]);
      whiteOff[i] := ev.whiteOff;
      whiteDef[i] := ev.whiteDef;
      blackOff[i] := ev.blackOff;
      blackDef[i] := ev.blackDef;
    }
    r := BatchEvaluation(whiteOff[..], whiteDef[..], blackOff[..], blackDef[..]);
    forall i, j | 0 <= i < n && 0 <= j < n && pieces[i] == pieces[j] && colors[i] == colors[j]
      ensures r.whiteOff[i] == r.whiteOff[j] && r.whiteDef[i] == r.whiteDef[j]
      ensures r.blackOff[i] == r.blackOff[j] && r.blackDef[i] == r.blackDef[j]
    {
      assert Evaluation(r.whiteOff[i], r.whiteDef[i], r.blackOff[i], r.blackDef[i]) == e.evaluate(pieces[i], colors[i]);
      assert Evaluation(r.whiteOff[j], r.whiteDef[j], r.blackOff[j], r.blackDef[j]) == e.evaluate(pieces[j], colors[j]);
    }
  }

  // ---------------------------------------------------------------------
  // generate_moves_batch
  // ---------------------------------------------------------------------

  /** A single-board move as a batch row of board i. */
  function Tag(i: int, m: MoveRow): seq<int> {
    [i, m.from, m.to, m.promo, m.flags]
  }

  /** The batch rows of board i's moves, in the engine's order. */
  function Block(i: int, moves: seq<MoveRow>): (r: seq<seq<int>>)
    ensures |r| == |moves|
    ensures forall k :: 0 <= k < |moves| ==> r[k] == Tag(i, moves[k])
  {
    seq(|moves|, k requires 0 <= k < |moves| => Tag(i, moves[k]))
  }

  /** Row-wise concatenation of a list of tables. */
  function Concat(tables: seq<seq<seq<int>>>): seq<seq<int>> {
    if tables == [] then [] else Concat(tables[..|tables| - 1]) + tables[|tables| - 1]
  }

  /** The moves of board i, as the engine gives them. */
  function BoardMoves(e: Engine, pieces: seq<seq<int>>, colors: seq<seq<int>>, stm: seq<int>, i: int): seq<MoveRow>
    requires 0 <= i < |pieces| && i < |colors| && i < |stm|
  {
    e.moves(pieces[i], colors[i], stm[i])
  }

  /** The batch move table of the first n boards. */
  function BatchMoves(e: Engine, pieces: seq<seq<int>>, colors: seq<seq<int>>, stm: seq<int>, n: int): seq<seq<int>>
    requires 0 <= n <= |pieces| && n <= |colors| && n <= |stm|
  {
    if n == 0 then []
    else BatchMoves(e, pieces, colors, stm, n - 1) + Block(n - 1, BoardMoves(e, pieces, colors, stm, n - 1))
  }

  method GenerateMovesBatch(e: Engine, pieces: seq<seq<int>>, colors: seq<seq<int>>, stm: seq<int>)
    returns (r: Result<seq<seq<int>>, BatchError>)
    requires |colors| == |pieces|
    ensures |stm| < |pieces| ==> r == Err(StmIndexOutOfRange(|stm|))
    ensures |stm| >= |pieces| ==> r == Ok(BatchMoves(e, pieces, colors, stm, |pieces|))
  {
    var movesAccum: seq<seq<seq<int>>> := [];
    for i := 0 to |pieces|
      invariant i <= |stm|
      invariant Concat(movesAccum) == BatchMoves(e, pieces, colors, stm, i)
    {
      if i >= |stm| {
        return Err(StmIndexOutOfRange(i));
      }
      var movesSingle := e.moves(pieces[i], colors[i], stm[i]);
      if |movesSingle| == 0 {
        assert BatchMoves(e, pieces, colors, stm, i + 1) == BatchMoves(e, pieces, colors, stm, i) + [];
        continue;
      }
      var out := Block(i, movesSingle);
      movesAccum := movesAccum + [out];
    }
    if movesAccum == [] {
      return Ok([]);
    }
    return Ok(Concat(movesAccum));
  }

  // ---------------------------------------------------------------------
  // What the move table holds.
  // ---------------------------------------------------------------------

  /** The number of moves of the first n boards. */
  function TotalMoves(e: Engine, pieces: seq<seq<int>>, colors: seq<seq<int>>, stm: seq<int>, n: int): int
    requires 0 <= n <= |pieces| && n <= |colors| && n <= |stm|
  {
    if n == 0 then 0 else TotalMoves(e, pieces, colors, stm, n - 1) + |BoardMoves(e, pieces, colors, stm, n - 1)|
  }

  /** One row per move of every board: boards without moves add nothing. */
  lemma {:induction false} BatchMovesCount(e: Engine, pieces: seq<seq<int>>, colors: seq<seq<int>>, stm: seq<int>, n: int)
    requires 0 <= n <= |pieces| && n <= |colors| && n <= |stm|
    ensures |BatchMoves(e, pieces, colors, stm, n)| == TotalMoves(e, pieces, colors, stm, n)
  {
    if n > 0 {
      BatchMovesCount(e, pieces, colors, stm, n - 1);
    }
  }

  /** A table with no rows when no board has a move. */
  lemma {:induction false} NoMovesNoRows(e: Engine, pieces: seq<seq<int>>, colors: seq<seq<int>>, stm: seq<int>, n: int)
    requires 0 <= n <= |pieces| && n <= |colors| && n <= |stm|
    requires forall i :: 0 <= i < n ==> BoardMoves(e, pieces, colors, stm, i) == []
    ensures BatchMoves(e, pieces, colors, stm, n) == []
  {
    if n > 0 {
      NoMovesNoRows(e, pieces, colors, stm, n - 1);
    }
  }

  /** The CPU engine's batch table is empty, whatever the boards. */
  lemma CpuBatchMovesEmpty(pieces: seq<seq<int>>, colors: seq<seq<int>>, stm: seq<int>, n: int)
    requires 0 <= n <= |pieces| && n <= |colors| && n <= |stm|
    ensures BatchMoves(Cpu(), pieces, colors, stm, n) == []
  {
    NoMovesNoRows(Cpu(), pieces, colors, stm, n);
  }

  /** Every row has five columns and a board index below n. */
  predicate RowsShaped(r: seq<seq<int>>, n: int) {
    forall k :: 0 <= k < |r| ==> |r[k]| == MOVE_COLUMNS && 0 <= r[k][MOVE_IDX] < n
  }

  lemma {:induction false} BatchMovesShape(e: Engine, pieces: seq<seq<int>>, colors: seq<seq<int>>, stm: seq<int>, n: int)
    requires 0 <= n <= |pieces| && n <= |colors| && n <= |stm|
    ensures RowsShaped(BatchMoves(e, pieces, colors, stm, n), n)
  {
    if n > 0 {
      BatchMovesShape(e, pieces, colors, stm, n - 1);
      var prev := BatchMoves(e, pieces, colors, stm, n - 1);
      var ms := BoardMoves(e, pieces, colors, stm, n - 1);
      var r := prev + Block(n - 1, ms);
      forall k | 0 <= k < |r|
        ensures |r[k]| == MOVE_COLUMNS && 0 <= r[k][MOVE_IDX] < n
      {
        if k < |prev| {
          assert r[k] == prev[k];
        } else {
          assert r[k] == Tag(n - 1, ms[k - |prev|]);
        }
      }
    }
  }

  predicate IndexSorted(r: seq<seq<int>>)
    requires forall k :: 0 <= k < |r| ==> |r[k]| > MOVE_IDX
  {
    forall k1, k2 :: 0 <= k1 <= k2 < |r| ==> r[k1][MOVE_IDX] <= r[k2][MOVE_IDX]
  }

  /** The board-index column never decreases down the table. */
  lemma {:induction false} BatchMovesOrdered(e: Engine, pieces: seq<seq<int>>, colors: seq<seq<int>>, stm: seq<int>, n: int)
    requires 0 <= n <= |pieces| && n <= |colors| && n <= |stm|
    ensures RowsShaped(BatchMoves(e, pieces, colors, stm, n), n)
    ensures IndexSorted(BatchMoves(e, pieces, colors, stm, n))
  {
    BatchMovesShape(e, pieces, colors, stm, n);
    if n > 0 {
      BatchMovesOrdered(e, pieces, colors, stm, n - 1);
      var prev := BatchMoves(e, pieces, colors, stm, n - 1);
      var ms := BoardMoves(e, pieces, colors, stm, n - 1);
      var r := prev + Block(n - 1, ms);
      forall k1, k2 | 0 <= k1 <= k2 < |r|
        ensures r[k1][MOVE_IDX] <= r[k2][MOVE_IDX]
      {
        if k2 < |prev| {
          assert r[k1] == prev[k1] && r[k2] == prev[k2];
        } else if k1 < |prev| {
          assert r[k1] == prev[k1] && r[k2] == Tag(n - 1, ms[k2 - |prev|]);
        } else {
          assert r[k1] == Tag(n - 1, ms[k1 - |prev|]) && r[k2] == Tag(n - 1, ms[k2 - |prev|]);
        }
      }
    }
  }

  /** Row k of the table is move j of board r[k][MOVE_IDX], tagged with that board. */
  predicate RowIsMoveOf(e: Engine, pieces: seq<seq<int>>, colors: seq<seq<int>>, stm: seq<int>, row: seq<int>, n: int)
    requires 0 <= n <= |pieces| && n <= |colors| && n <= |stm|
  {
    && |row| == MOVE_COLUMNS && 0 <= row[MOVE_IDX] < n
    && exists j :: 0 <= j < |BoardMoves(e, pieces, colors, stm, row[MOVE_IDX])| &&
         row == Tag(row[MOVE_IDX], BoardMoves(e, pieces, colors, stm, row[MOVE_IDX])[j])
  }

  predicate RowsAreMoves(e: Engine, pieces: seq<seq<int>>, colors: seq<seq<int>>, stm: seq<int>, r: seq<seq<int>>, n: int)
    requires 0 <= n <= |pieces| && n <= |colors| && n <= |stm|
  {
    forall k :: 0 <= k < |r| ==> RowIsMoveOf(e, pieces, colors, stm, r[k], n)
  }

  /** Each row of the table is one of its own board's moves. */
  lemma {:induction false} BatchMovesFromBoards(e: Engine, pieces: seq<seq<int>>, colors: seq<seq<int>>, stm: seq<int>, n: int)
    requires 0 <= n <= |pieces| && n <= |colors| && n <= |stm|
    ensures RowsAreMoves(e, pieces, colors, stm, BatchMoves(e, pieces, colors, stm, n), n)
  {
    if n > 0 {
      BatchMovesFromBoards(e, pieces, colors, stm, n - 1);
      var prev := BatchMoves(e, pieces, colors, stm, n - 1);
      var ms := BoardMoves(e, pieces, colors, stm, n - 1);
      var r := prev + Block(n - 1, ms);
      forall k | 0 <= k < |r|
        ensures RowIsMoveOf(e, pieces, colors, stm, r[k], n)
      {
        if k < |prev| {
          assert r[k] == prev[k];
          assert RowIsMoveOf(e, pieces, colors, stm, prev[k], n - 1);
          var j :| 0 <= j < |BoardMoves(e, pieces, colors, stm, prev[k][MOVE_IDX])| &&
                   prev[k] == Tag(prev[k][MOVE_IDX], BoardMoves(e, pieces, colors, stm, prev[k][MOVE_IDX])[j]);
        } else {
          var j := k - |prev|;
          assert r[k] == Tag(n - 1, ms[j]);
        }
      }
    }
  }

  /** The rows of a table that belong to board b, in table order. */
  function RowsOf(rows: seq<seq<int>>, b: int): seq<seq<int>> {
    if rows == [] then []
    else
      var last := rows[|rows| - 1];
      RowsOf(rows[..|rows| - 1], b) + (if last != [] && last[MOVE_IDX] == b then [last] else [])
  }

  /** The single-board moves behind a list of batch rows: the board column dropped. */
  function Untag(rows: seq<seq<int>>): (r: seq<MoveRow>)
    requires forall k :: 0 <= k < |rows| ==> |rows[k]| == MOVE_COLUMNS
    ensures |r| == |rows|
  {
    if rows == [] then []
    else
      var last := rows[|rows| - 1];
      Untag(rows[..|rows| - 1]) + [MoveRow(last[MOVE_FROM], last[MOVE_TO], last[MOVE_PROMO], last[MOVE_FLAGS])]
  }

  lemma {:induction false} RowsOfAppend(a: seq<seq<int>>, c: seq<seq<int>>, b: int)
    ensures RowsOf(a + c, b) == RowsOf(a, b) + RowsOf(c, b)
    decreases |c|
  {
    if c != [] {
      var c' := c[..|c| - 1];
      assert (a + c)[..|a + c| - 1] == a + c';
      RowsOfAppend(a, c', b);
    } else {
      assert a + c == a;
    }
  }

  lemma {:induction false} RowsOfBlock(i: int, moves: seq<MoveRow>, b: int)
    ensures RowsOf(Block(i, moves), b) == if i == b then Block(i, moves) else []
    decreases |moves|
  {
    if moves != [] {
      var moves' := moves[..|moves| - 1];
      assert Block(i, moves)[..|moves| - 1] == Block(i, moves');
      RowsOfBlock(i, moves', b);
    }
  }

  lemma {:induction false} UntagBlock(i: int, moves: seq<MoveRow>)
    ensures Untag(Block(i, moves)) == moves
    decreases |moves|
  {
    if moves != [] {
      var moves' := moves[..|moves| - 1];
      assert Block(i, moves)[..|moves| - 1] == Block(i, moves');
      UntagBlock(i, moves');
      assert moves' + [moves[|moves| - 1]] == moves;
    }
  }

  /** Appending board i's block adds its rows to board i's rows and none to any other board's. */
  lemma RowsOfAppendBlock(prev: seq<seq<int>>, i: int, moves: seq<MoveRow>, b: int)
    ensures RowsOf(prev + Block(i, moves), b) == RowsOf(prev, b) + (if i == b then Block(i, moves) else [])
  {
    RowsOfAppend(prev, Block(i, moves), b);
    RowsOfBlock(i, moves, b);
  }

  /** A table whose rows all name boards in 0..n-1 has no rows of any other board. */
  lemma {:induction false} RowsOfShapedOther(rows: seq<seq<int>>, n: int, b: int)
    requires RowsShaped(rows, n) && !(0 <= b < n)
    ensures RowsOf(rows, b) == []
    decreases |rows|
  {
    if rows != [] {
      RowsOfShapedOther(rows[..|rows| - 1], n, b);
    }
  }

  /** A board outside the first n has no rows in their table. */
  lemma BatchRowsOfOther(e: Engine, pieces: seq<seq<int>>, colors: seq<seq<int>>, stm: seq<int>, n: int, b: int)
    requires 0 <= n <= |pieces| && n <= |colors| && n <= |stm|
    requires !(0 <= b < n)
    ensures RowsOf(BatchMoves(e, pieces, colors, stm, n), b) == []
  {
    BatchMovesShape(e, pieces, colors, stm, n);
    RowsOfShapedOther(BatchMoves(e, pieces, colors, stm, n), n, b);
  }

  /** Board b's rows of the table are its moves, tagged, in the engine's order. */
  lemma {:induction false} BatchRowsOfBoard(e: Engine, pieces: seq<seq<int>>, colors: seq<seq<int>>, stm: seq<int>, n: int, b: int)
    requires 0 <= b < n <= |pieces| && n <= |colors| && n <= |stm|
    ensures RowsOf(BatchMoves(e, pieces, colors, stm, n), b) == Block(b, BoardMoves(e, pieces, colors, stm, b))
  {
    var prev := BatchMoves(e, pieces, colors, stm, n - 1);
    var ms := BoardMoves(e, pieces, colors, stm, n - 1);
    assert BatchMoves(e, pieces, colors, stm, n) == prev + Block(n - 1, ms);
    RowsOfAppendBlock(prev, n - 1, ms, b);
    if b == n - 1 {
      BatchRowsOfOther(e, pieces, colors, stm, n - 1, b);
      assert RowsOf(prev, b) + Block(b, ms) == Block(b, ms);
    } else {
      BatchRowsOfBoard(e, pieces, colors, stm, n - 1, b);
      assert RowsOf(prev, b) + [] == RowsOf(prev, b);
    }
  }

  /**
   * Board b's rows of the table, with the board column dropped, are exactly
   * the moves the engine gives for board b alone, in the same order.
   */
  lemma BatchMovesOfBoard(e: Engine, pieces: seq<seq<int>>, colors: seq<seq<int>>, stm: seq<int>, n: int, b: int)
    requires 0 <= b < n <= |pieces| && n <= |colors| && n <= |stm|
    ensures RowsShaped(RowsOf(BatchMoves(e, pieces, colors, stm, n), b), n) &&
            Untag(RowsOf(BatchMoves(e, pieces, colors, stm, n), b)) == BoardMoves(e, pieces, colors, stm, b)
  {
    BatchRowsOfBoard(e, pieces, colors, stm, n, b);
    UntagBlock(b, BoardMoves(e, pieces, colors, stm, b));
    var block := Block(b, BoardMoves(e, pieces, colors, stm, b));
    forall k | 0 <= k < |block|
      ensures |block[k]| == MOVE_COLUMNS && 0 <= block[k][MOVE_IDX] < n
    {
    }
  }

  /** A batch of one board is that board's moves, each tagged with index 0. */
  lemma OneBoardBatch(e: Engine, pieces: seq<int>, colors: seq<int>, stm: int)
    ensures BatchMoves(e, [pieces], [colors], [stm], 1) == Block(0, e.moves(pieces, colors, stm))
  {
    assert BatchMoves(e, [pieces], [colors], [stm], 0) == [];
  }
}
