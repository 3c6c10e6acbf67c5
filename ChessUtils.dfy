/**
 * Board geometry and attack primitives on the 0..63 square numbering
 * (a1 = 0, h1 = 7, a8 = 56, h8 = 63): square arithmetic, the knight, king
 * and pawn target generators, the sliding-ray walker and the bishop, rook
 * and queen targets built from rays.
 */
module ChessUtils {

  const PIECE_NONE := 0
  const PIECE_PAWN := 1
  const PIECE_KNIGHT := 2
  const PIECE_BISHOP := 3
  const PIECE_ROOK := 4
  const PIECE_QUEEN := 5
  const PIECE_KING := 6

  const COLOR_EMPTY := -1
  const COLOR_WHITE := 0
  const COLOR_BLACK := 1

  // ---------------------------------------------------------------------
  // Square arithmetic. The source uses Python's // and %, which agree with
  // Dafny's Euclidean / and % for the positive divisor 8.
  // ---------------------------------------------------------------------

  predicate IsValidSquare(sq: int) {
    0 <= sq < 64
  }

  function Rank(sq: int): int {
    sq / 8
  }

  function File(sq: int): int {
    sq % 8
  }

  function MakeSquare(rank: int, file: int): int {
    rank * 8 + file
  }

  /**
   * Rank and file split a square, and MakeSquare puts it back together; a
   * square is on the board exactly when its rank is in 0..7.
   */
  lemma SquareCoordinates(sq: int)
    ensures 0 <= File(sq) < 8
    ensures MakeSquare(Rank(sq), File(sq)) == sq
    ensures IsValidSquare(sq) <==> 0 <= Rank(sq) < 8
  {
  }

  /** For a file in 0..7, MakeSquare gives back its rank and file. */
  lemma MakeSquareCoordinates(rank: int, file: int)
    requires 0 <= file < 8
    ensures Rank(MakeSquare(rank, file)) == rank && File(MakeSquare(rank, file)) == file
    ensures IsValidSquare(MakeSquare(rank, file)) <==> 0 <= rank < 8
  {
  }

  function AbsDiff(a: int, b: int): (d: int)
    ensures d >= 0
    ensures d == a - b || d == b - a
  {
    if a > b then a - b else b - a
  }

  // ---------------------------------------------------------------------
  // Knight and king: a fixed list of offsets, each target kept when it
  // passes the generator's wrap-around test.
  // ---------------------------------------------------------------------

  const KNIGHT_OFFSETS: seq<int> := [-17, -15, -10, -6, 6, 10, 15, 17]
  const KING_OFFSETS: seq<int> := [-9, -8, -7, -1, 1, 7, 8, 9]

  /** The knight generator's test: on the board, and (2,1) or (1,2) away in (rank, file). */
  predicate KnightKeeps(sq: int, target: int) {
    IsValidSquare(target) &&
    var rankDiff := AbsDiff(Rank(target), Rank(sq));
    var fileDiff := AbsDiff(File(target), File(sq));
    (rankDiff == 2 && fileDiff == 1) || (rankDiff == 1 && fileDiff == 2)
  }

  /** The king generator's test: on the board, and at most one file away. */
  predicate KingKeeps(sq: int, target: int) {
    IsValidSquare(target) && AbsDiff(File(target), File(sq)) <= 1
  }

  /** The targets sq + o, for the offsets o in order, that `keep` accepts. */
  function OffsetTargets(sq: int, offsets: seq<int>, keep: (int, int) -> bool): (r: seq<int>)
    ensures |r| <= |offsets|
  {
    if offsets == [] then []
    else
      var prev := OffsetTargets(sq, offsets[..|offsets| - 1], keep);
      var target := sq + offsets[|offsets| - 1];
      if keep(sq, target) then prev + [target] else prev
  }

  /** One more offset appends at most its own target. */
  lemma OffsetTargetsStep(sq: int, offsets: seq<int>, keep: (int, int) -> bool, i: nat)
    requires i < |offsets|
    ensures OffsetTargets(sq, offsets[..i + 1], keep) ==
            OffsetTargets(sq, offsets[..i], keep) + (if keep(sq, sq + offsets[i]) then [sq + offsets[i]] else [])
  {
    assert offsets[..i + 1][..i] == offsets[..i];
  }

  method GetKnightAttacks(sq: int) returns (attacks: seq<int>)
    ensures attacks == OffsetTargets(sq, KNIGHT_OFFSETS, KnightKeeps)
  {
    attacks := [];
    var sqRank := Rank(sq);
    var sqFile := File(sq);
    for i := 0 to |KNIGHT_OFFSETS|
      invariant attacks == OffsetTargets(sq, KNIGHT_OFFSETS[..i], KnightKeeps)
    {
      OffsetTargetsStep(sq, KNIGHT_OFFSETS, KnightKeeps, i);
      var target := sq + KNIGHT_OFFSETS[i];
      if IsValidSquare(target) {
        var rankDiff := AbsDiff(Rank(target), sqRank);
        var fileDiff := AbsDiff(File(target), sqFile);
        if (rankDiff == 2 && fileDiff == 1) || (rankDiff == 1 && fileDiff == 2) {
          attacks := attacks + [target];
        }
      }
    }
    assert KNIGHT_OFFSETS[..|KNIGHT_OFFSETS|] == KNIGHT_OFFSETS;
  }

  method GetKingAttacks(sq: int) returns (attacks: seq<int>)
    ensures attacks == OffsetTargets(sq, KING_OFFSETS, KingKeeps)
  {
    attacks := [];
    var sqFile := File(sq);
    for i := 0 to |KING_OFFSETS|
      invariant attacks == OffsetTargets(sq, KING_OFFSETS[..i], KingKeeps)
    {
      OffsetTargetsStep(sq, KING_OFFSETS, KingKeeps, i);
      var target := sq + KING_OFFSETS[i];
      if IsValidSquare(target) {
        if AbsDiff(File(target), sqFile) <= 1 {
          attacks := attacks + [target];
        }
      }
    }
    assert KING_OFFSETS[..|KING_OFFSETS|] == KING_OFFSETS;
  }

  /** A knight move in the usual sense: (2,1) or (1,2) away in (rank, file). */
  predicate KnightDistance(sq: int, t: int) {
    var dr := AbsDiff(Rank(t), Rank(sq));
    var df := AbsDiff(File(t), File(sq));
    (dr == 2 && df == 1) || (dr == 1 && df == 2)
  }

  /** A king move in the usual sense: a different square at most one rank and one file away. */
  predicate KingDistance(sq: int, t: int) {
    t != sq && AbsDiff(Rank(t), Rank(sq)) <= 1 && AbsDiff(File(t), File(sq)) <= 1
  }

  /** A square is a target exactly when `keep` accepts it and it is sq plus one of the offsets. */
  lemma {:induction false} OffsetTargetsMembership(sq: int, offsets: seq<int>, keep: (int, int) -> bool, t: int)
    ensures t in OffsetTargets(sq, offsets, keep) <==> keep(sq, t) && t - sq in offsets
  {
    if offsets != [] {
      var n := |offsets|;
      OffsetTargetsMembership(sq, offsets[..n - 1], keep, t);
      assert offsets == offsets[..n - 1] + [offsets[n - 1]];
    }
  }

  /** The difference of two squares, split into its rank and file parts. */
  lemma SquareDifference(sq: int, t: int)
    ensures t - sq == 8 * (Rank(t) - Rank(sq)) + (File(t) - File(sq))
  {
    SquareCoordinates(sq);
    SquareCoordinates(t);
  }

  /** The knight generator returns exactly the on-board squares a knight's move away. */
  lemma KnightTargetsExact(sq: int, t: int)
    requires IsValidSquare(sq)
    ensures t in OffsetTargets(sq, KNIGHT_OFFSETS, KnightKeeps) <==> IsValidSquare(t) && KnightDistance(sq, t)
  {
    OffsetTargetsMembership(sq, KNIGHT_OFFSETS, KnightKeeps, t);
    if IsValidSquare(t) && KnightDistance(sq, t) {
      SquareDifference(sq, t);
      var dr, df := Rank(t) - Rank(sq), File(t) - File(sq);
      assert t - sq == 8 * dr + df;
      assert ((dr == 2 || dr == -2) && (df == 1 || df == -1)) || ((dr == 1 || dr == -1) && (df == 2 || df == -2));
    }
  }

  /** The king generator returns exactly the on-board squares a king's move away. */
  lemma KingTargetsExact(sq: int, t: int)
    requires IsValidSquare(sq)
    ensures t in OffsetTargets(sq, KING_OFFSETS, KingKeeps) <==> IsValidSquare(t) && KingDistance(sq, t)
  {
    OffsetTargetsMembership(sq, KING_OFFSETS, KingKeeps, t);
    SquareDifference(sq, t);
    var dr, df := Rank(t) - Rank(sq), File(t) - File(sq);
    assert t - sq == 8 * dr + df;
    if IsValidSquare(t) && AbsDiff(File(t), File(sq)) <= 1 {
      assert -1 <= df <= 1;
    }
  }

  /** A knight on e4 (square 28) has all eight of its targets on the board. */
  lemma KnightOnE4HasEight()
    ensures OffsetTargets(28, KNIGHT_OFFSETS, KnightKeeps) == [11, 13, 18, 22, 34, 38, 43, 45]
  {
    var o := KNIGHT_OFFSETS;
    assert o[..0] == [];
    OffsetTargetsStep(28, o, KnightKeeps, 0);
    OffsetTargetsStep(28, o, KnightKeeps, 1);
    OffsetTargetsStep(28, o, KnightKeeps, 2);
    OffsetTargetsStep(28, o, KnightKeeps, 3);
    OffsetTargetsStep(28, o, KnightKeeps, 4);
    OffsetTargetsStep(28, o, KnightKeeps, 5);
    OffsetTargetsStep(28, o, KnightKeeps, 6);
    OffsetTargetsStep(28, o, KnightKeeps, 7);
    assert o[..8] == o;
  }

  /** A king on a1 (square 0) reaches only b1, a2 and b2. */
  lemma KingOnA1HasThree()
    ensures OffsetTargets(0, KING_OFFSETS, KingKeeps) == [1, 8, 9]
  {
    var o := KING_OFFSETS;
    assert o[..0] == [];
    OffsetTargetsStep(0, o, KingKeeps, 0);
    OffsetTargetsStep(0, o, KingKeeps, 1);
    OffsetTargetsStep(0, o, KingKeeps, 2);
    OffsetTargetsStep(0, o, KingKeeps, 3);
    OffsetTargetsStep(0, o, KingKeeps, 4);
    OffsetTargetsStep(0, o, KingKeeps, 5);
    OffsetTargetsStep(0, o, KingKeeps, 6);
    OffsetTargetsStep(0, o, KingKeeps, 7);
    assert o[..8] == o;
  }

  // ---------------------------------------------------------------------
  // Pawns: the diagonal capture squares only (no pushes); any colour
  // other than white is treated as black, as in the source.
  // ---------------------------------------------------------------------

  function PawnAttacks(sq: int, color: int): (r: seq<int>)
    ensures |r| <= 2
  {
    var sqFile := File(sq);
    if color == COLOR_WHITE then
      (if sqFile > 0 && IsValidSquare(sq + 7) then [sq + 7] else []) +
      (if sqFile < 7 && IsValidSquare(sq + 9) then [sq + 9] else [])
    else
      (if sqFile > 0 && IsValidSquare(sq - 9) then [sq - 9] else []) +
      (if sqFile < 7 && IsValidSquare(sq - 7) then [sq - 7] else [])
  }

  /** White pawns attack towards rank 8, every other colour towards rank 1. */
  function PawnRankStep(color: int): int {
    if color == COLOR_WHITE then 1 else -1
  }

  /** The guarded capture square one rank (dr) and one file (df) away, as the generator tests it. */
  predicate PawnCapture(sq: int, dr: int, df: int, t: int) {
    0 <= File(sq) + df < 8 && IsValidSquare(sq + 8 * dr + df) && t == sq + 8 * dr + df
  }

  /** The generator's guard on one diagonal accepts exactly the on-board square at that rank and file offset. */
  lemma PawnDiagonal(sq: int, dr: int, df: int, t: int)
    requires IsValidSquare(sq) && (dr == 1 || dr == -1) && (df == 1 || df == -1)
    ensures PawnCapture(sq, dr, df, t) <==> IsValidSquare(t) && File(t) == File(sq) + df && Rank(t) == Rank(sq) + dr
  {
    SquareCoordinates(sq);
    SquareCoordinates(t);
    if 0 <= File(sq) + df < 8 {
      MakeSquareCoordinates(Rank(sq) + dr, File(sq) + df);
      assert MakeSquare(Rank(sq) + dr, File(sq) + df) == sq + 8 * dr + df;
    }
  }

  /** The pawn generator returns exactly the on-board squares diagonally one rank ahead. */
  lemma PawnTargetsExact(sq: int, color: int, t: int)
    requires IsValidSquare(sq)
    ensures t in PawnAttacks(sq, color) <==>
            IsValidSquare(t) && AbsDiff(File(t), File(sq)) == 1 && Rank(t) == Rank(sq) + PawnRankStep(color)
  {
    var dr := PawnRankStep(color);
    assert t in PawnAttacks(sq, color) <==> PawnCapture(sq, dr, -1, t) || PawnCapture(sq, dr, 1, t);
    PawnDiagonal(sq, dr, -1, t);
    PawnDiagonal(sq, dr, 1, t);
  }

  // ---------------------------------------------------------------------
  // Sliding rays.
  // ---------------------------------------------------------------------

  const DIRECTIONS: seq<int> := [-9, -8, -7, -1, 1, 7, 8, 9]
  const BISHOP_DIRECTIONS: seq<int> := [-9, -7, 7, 9]
  const ROOK_DIRECTIONS: seq<int> := [-8, -1, 1, 8]
  const QUEEN_DIRECTIONS: seq<int> := [-9, -8, -7, -1, 1, 7, 8, 9]

  predicate IsDirection(dir: int) {
    dir in DIRECTIONS
  }

  predicate MovesLeft(dir: int) { dir == -9 || dir == -1 || dir == 7 }
  predicate MovesRight(dir: int) { dir == -7 || dir == 1 || dir == 9 }

  /**
   * The ray walker's test for taking one more step from `prev`: the next
   * square is on the board and its file moved the way the direction says.
   */
  predicate StepOk(prev: int, dir: int) {
    var next := prev + dir;
    IsValidSquare(next) &&
    (MovesLeft(dir) ==> File(next) < File(prev)) &&
    (MovesRight(dir) ==> File(next) > File(prev))
  }

  /** The squares a ray visits after `prev`: up to and including the first occupied one. */
  function Ray(prev: int, dir: int, pieces: seq<int>): (r: seq<int>)
    requires IsDirection(dir) && |pieces| == 64
    decreases if dir > 0 then 64 - prev else prev
  {
    if !StepOk(prev, dir) then []
    else if pieces[prev + dir] != PIECE_NONE then [prev + dir]
    else [prev + dir] + Ray(prev + dir, dir, pieces)
  }

  /** One step of a ray: it ends before a step off the board or across an edge, or at an occupied square. */
  lemma RayUnfold(prev: int, dir: int, pieces: seq<int>)
    requires IsDirection(dir) && |pieces| == 64
    ensures !StepOk(prev, dir) ==> Ray(prev, dir, pieces) == []
    ensures StepOk(prev, dir) && pieces[prev + dir] != PIECE_NONE ==> Ray(prev, dir, pieces) == [prev + dir]
    ensures StepOk(prev, dir) && pieces[prev + dir] == PIECE_NONE ==>
              Ray(prev, dir, pieces) == [prev + dir] + Ray(prev + dir, dir, pieces)
  {
  }

  method GetRayAttacks(sq: int, dir: int, pieces: seq<int>) returns (attacks: seq<int>)
    requires IsDirection(dir) && |pieces| == 64
    ensures attacks == Ray(sq, dir, pieces)
  {
    attacks := [];
    var sqFile := File(sq);
    var current := sq + dir;
    ghost var prev := sq;
    while IsValidSquare(current)
      invariant current == prev + dir && sqFile == File(prev)
      invariant attacks + Ray(prev, dir, pieces) == Ray(sq, dir, pieces)
      decreases if dir > 0 then 64 - current else current
    {
      RayUnfold(prev, dir, pieces);
      var currentFile := File(current);
      if dir == -9 || dir == -1 || dir == 7 {
        if currentFile >= sqFile {
          assert !StepOk(prev, dir);
          break;
        }
      } else if dir == -7 || dir == 1 || dir == 9 {
        if currentFile <= sqFile {
          assert !StepOk(prev, dir);
          break;
        }
      }
      assert StepOk(prev, dir);
      ghost var before := attacks;
      attacks := attacks + [current];
      if pieces[current] != PIECE_NONE {
        break;
      }
      assert attacks + Ray(current, dir, pieces) == before + ([current] + Ray(current, dir, pieces));
      sqFile := currentFile;
      current := current + dir;
      prev := prev + dir;
    }
    RayUnfold(prev, dir, pieces);
  }

  /** The rays in the given directions, in order, concatenated. */
  function Rays(sq: int, dirs: seq<int>, pieces: seq<int>): seq<int>
    requires forall d :: d in dirs ==> IsDirection(d)
    requires |pieces| == 64
  {
    if dirs == [] then []
    else Rays(sq, dirs[..|dirs| - 1], pieces) + Ray(sq, dirs[|dirs| - 1], pieces)
  }

  method CollectRays(sq: int, dirs: seq<int>, pieces: seq<int>) returns (attacks: seq<int>)
    requires forall d :: d in dirs ==> IsDirection(d)
    requires |pieces| == 64
    ensures attacks == Rays(sq, dirs, pieces)
  {
    attacks := [];
    for i := 0 to |dirs|
      invariant attacks == Rays(sq, dirs[..i], pieces)
    {
      assert dirs[..i + 1][..i] == dirs[..i];
      var ray := GetRayAttacks(sq, dirs[i], pieces);
      ghost var before := attacks;
      for j := 0 to |ray|
        invariant attacks == before + ray[..j]
      {
        attacks := attacks + [ray[j]];
        assert ray[..j + 1] == ray[..j] + [ray[j]];
      }
      assert ray[..|ray|] == ray;
    }
    assert dirs[..|dirs|] == dirs;
  }

  method GetBishopAttacks(sq: int, pieces: seq<int>) returns (attacks: seq<int>)
    requires |pieces| == 64
    ensures attacks == Rays(sq, BISHOP_DIRECTIONS, pieces)
  {
    attacks := CollectRays(sq, BISHOP_DIRECTIONS, pieces);
  }

  method GetRookAttacks(sq: int, pieces: seq<int>) returns (attacks: seq<int>)
    requires |pieces| == 64
    ensures attacks == Rays(sq, ROOK_DIRECTIONS, pieces)
  {
    attacks := CollectRays(sq, ROOK_DIRECTIONS, pieces);
  }

  method GetQueenAttacks(sq: int, pieces: seq<int>) returns (attacks: seq<int>)
    requires |pieces| == 64
    ensures attacks == Rays(sq, QUEEN_DIRECTIONS, pieces)
  {
    attacks := CollectRays(sq, QUEEN_DIRECTIONS, pieces);
  }
  // ---------------------------------------------------------------------
  // What the rays are, stated geometrically.
  // ---------------------------------------------------------------------

  /** The rank and file change of one step in a direction. */
  function RankStep(dir: int): int {
    if dir <= -7 then -1 else if dir >= 7 then 1 else 0
  }

  function FileStep(dir: int): int {
    if MovesLeft(dir) then -1 else if MovesRight(dir) then 1 else 0
  }

  /**
   * The walker's file test detects leaving the board exactly: a step is
   * taken iff the stepped rank and file both stay in 0..7, and then the
   * square moves by one rank step and one file step.
   */
  lemma StepGeometry(prev: int, dir: int)
    requires IsValidSquare(prev) && IsDirection(dir)
    ensures StepOk(prev, dir) <==>
              0 <= Rank(prev) + RankStep(dir) < 8 && 0 <= File(prev) + FileStep(dir) < 8
    ensures StepOk(prev, dir) ==>
              Rank(prev + dir) == Rank(prev) + RankStep(dir) && File(prev + dir) == File(prev) + FileStep(dir)
  {
    SquareCoordinates(prev);
    var r, f := Rank(prev), File(prev);
    var rs, fs := RankStep(dir), FileStep(dir);
    assert dir == 8 * rs + fs;
    var next := prev + dir;
    if 0 <= f + fs < 8 {
      MakeSquareCoordinates(r + rs, f + fs);
      assert next == MakeSquare(r + rs, f + fs);
    } else if f + fs == -1 {
      MakeSquareCoordinates(r + rs - 1, 7);
      assert next == MakeSquare(r + rs - 1, 7);
    } else {
      MakeSquareCoordinates(r + rs + 1, 0);
      assert next == MakeSquare(r + rs + 1, 0);
    }
  }

  /** The k-th square of a ray is k+1 steps from its start, with no file wrap. */
  lemma {:induction false} RayGeometry(prev: int, dir: int, pieces: seq<int>, k: nat)
    requires IsValidSquare(prev) && IsDirection(dir) && |pieces| == 64
    requires k < |Ray(prev, dir, pieces)|
    ensures Ray(prev, dir, pieces)[k] == prev + (k + 1) * dir
    ensures Rank(Ray(prev, dir, pieces)[k]) == Rank(prev) + (k + 1) * RankStep(dir)
    ensures File(Ray(prev, dir, pieces)[k]) == File(prev) + (k + 1) * FileStep(dir)
    decreases k
  {
    StepGeometry(prev, dir);
    var next := prev + dir;
    if k > 0 {
      assert Ray(prev, dir, pieces) == [next] + Ray(next, dir, pieces);
      RayGeometry(next, dir, pieces, k - 1);
      assert (k + 1) * dir == k * dir + dir;
      assert (k + 1) * RankStep(dir) == k * RankStep(dir) + RankStep(dir);
      assert (k + 1) * FileStep(dir) == k * FileStep(dir) + FileStep(dir);
    }
  }

  /**
   * Where a ray stops: it is empty iff its first step leaves the board,
   * and otherwise its last square is occupied or the next step would leave.
   */
  lemma {:induction false} RayStops(prev: int, dir: int, pieces: seq<int>)
    requires IsDirection(dir) && |pieces| == 64
    ensures forall k :: 0 <= k < |Ray(prev, dir, pieces)| ==>
              IsValidSquare(Ray(prev, dir, pieces)[k]) &&
              (k < |Ray(prev, dir, pieces)| - 1 ==> pieces[Ray(prev, dir, pieces)[k]] == PIECE_NONE)
    ensures Ray(prev, dir, pieces) == [] <==> !StepOk(prev, dir)
    ensures var r := Ray(prev, dir, pieces);
            r != [] ==> IsValidSquare(r[|r| - 1]) && (pieces[r[|r| - 1]] != PIECE_NONE || !StepOk(r[|r| - 1], dir))
    decreases if dir > 0 then 64 - prev else prev
  {
    if StepOk(prev, dir) && pieces[prev + dir] == PIECE_NONE {
      RayStops(prev + dir, dir, pieces);
    }
  }

  function Min(a: int, b: int): int {
    if a < b then a else b
  }

  /** How many steps a coordinate x can take in direction `step` before leaving 0..7. */
  function Room(x: int, step: int): int {
    if step > 0 then 7 - x else if step < 0 then x else 8
  }

  function StepsToEdge(sq: int, dir: int): int {
    Min(Room(Rank(sq), RankStep(dir)), Room(File(sq), FileStep(dir)))
  }

  const EMPTY_BOARD: seq<int> := seq(64, _ => PIECE_NONE)

  /** On an empty board a ray runs all the way to the edge. */
  lemma {:induction false} EmptyRayLength(prev: int, dir: int)
    requires IsValidSquare(prev) && IsDirection(dir)
    ensures |Ray(prev, dir, EMPTY_BOARD)| == StepsToEdge(prev, dir)
    decreases if dir > 0 then 64 - prev else prev
  {
    StepGeometry(prev, dir);
    var r, f := Rank(prev), File(prev);
    var rs, fs := RankStep(dir), FileStep(dir);
    if StepOk(prev, dir) {
      var next := prev + dir;
      StepGeometry(next, dir);
      assert Rank(next) == r + rs && File(next) == f + fs;
      assert Room(r + rs, rs) == Room(r, rs) - 1 || rs == 0;
      assert Room(f + fs, fs) == Room(f, fs) - 1 || fs == 0;
      assert StepsToEdge(next, dir) == StepsToEdge(prev, dir) - 1;
      assert EMPTY_BOARD[next] == PIECE_NONE;
      assert Ray(prev, dir, EMPTY_BOARD) == [next] + Ray(next, dir, EMPTY_BOARD);
      EmptyRayLength(next, dir);
    } else {
      assert Room(r, rs) == 0 || Room(f, fs) == 0;
    }
  }

  lemma RaysOfFour(sq: int, a: int, b: int, c: int, d: int, pieces: seq<int>)
    requires IsDirection(a) && IsDirection(b) && IsDirection(c) && IsDirection(d)
    requires |pieces| == 64
    ensures Rays(sq, [a, b, c, d], pieces) ==
            Ray(sq, a, pieces) + Ray(sq, b, pieces) + Ray(sq, c, pieces) + Ray(sq, d, pieces)
  {
    assert [a, b, c, d][..3] == [a, b, c];
    assert [a, b, c][..2] == [a, b];
    assert [a, b][..1] == [a];
    assert [a][..0] == [];
    assert Rays(sq, [a], pieces) == Ray(sq, a, pieces);
    assert Rays(sq, [a, b], pieces) == Rays(sq, [a], pieces) + Ray(sq, b, pieces);
    assert Rays(sq, [a, b, c], pieces) == Rays(sq, [a, b], pieces) + Ray(sq, c, pieces);
    assert Rays(sq, [a, b, c, d], pieces) == Rays(sq, [a, b, c], pieces) + Ray(sq, d, pieces);
  }

  /** A lone rook on a1 (square 0) of an otherwise empty board attacks 14 squares. */
  lemma RookOnA1AttacksFourteen()
    ensures |Rays(0, ROOK_DIRECTIONS, EMPTY_BOARD)| == 14
  {
    RaysOfFour(0, -8, -1, 1, 8, EMPTY_BOARD);
    EmptyRayLength(0, -8);
    EmptyRayLength(0, -1);
    EmptyRayLength(0, 1);
    EmptyRayLength(0, 8);
    assert StepsToEdge(0, -8) == 0 && StepsToEdge(0, -1) == 0;
    assert StepsToEdge(0, 1) == 7 && StepsToEdge(0, 8) == 7;
  }

  lemma RaysSnoc(sq: int, dirs: seq<int>, d: int, pieces: seq<int>)
    requires forall e :: e in dirs ==> IsDirection(e)
    requires IsDirection(d) && |pieces| == 64
    ensures Rays(sq, dirs + [d], pieces) == Rays(sq, dirs, pieces) + Ray(sq, d, pieces)
  {
    assert (dirs + [d])[..|dirs|] == dirs;
  }

  lemma QueenRays(sq: int, pieces: seq<int>)
    requires |pieces| == 64
    ensures Rays(sq, QUEEN_DIRECTIONS, pieces) ==
            Ray(sq, -9, pieces) + Ray(sq, -8, pieces) + Ray(sq, -7, pieces) + Ray(sq, -1, pieces) +
            Ray(sq, 1, pieces) + Ray(sq, 7, pieces) + Ray(sq, 8, pieces) + Ray(sq, 9, pieces)
  {
    var d4 := [-9, -8, -7, -1];
    var d5 := [-9, -8, -7, -1, 1];
    var d6 := [-9, -8, -7, -1, 1, 7];
    var d7 := [-9, -8, -7, -1, 1, 7, 8];
    assert d5 == d4 + [1] && d6 == d5 + [7] && d7 == d6 + [8] && QUEEN_DIRECTIONS == d7 + [9];
    RaysOfFour(sq, -9, -8, -7, -1, pieces);
    RaysSnoc(sq, d4, 1, pieces);
    RaysSnoc(sq, d5, 7, pieces);
    RaysSnoc(sq, d6, 8, pieces);
    RaysSnoc(sq, d7, 9, pieces);
  }

  lemma MultisetOfEight(a1: seq<int>, a2: seq<int>, a3: seq<int>, a4: seq<int>,
                        a5: seq<int>, a6: seq<int>, a7: seq<int>, a8: seq<int>)
    ensures multiset(a1 + a2 + a3 + a4 + a5 + a6 + a7 + a8) ==
            multiset(a1 + a3 + a6 + a8 + (a2 + a4 + a5 + a7))
  {
    var m1, m2, m3, m4 := multiset(a1), multiset(a2), multiset(a3), multiset(a4);
    var m5, m6, m7, m8 := multiset(a5), multiset(a6), multiset(a7), multiset(a8);
    assert multiset(a1 + a2 + a3 + a4 + a5 + a6 + a7 + a8) == m1 + m2 + m3 + m4 + m5 + m6 + m7 + m8;
    assert multiset(a1 + a3 + a6 + a8 + (a2 + a4 + a5 + a7)) == m1 + m3 + m6 + m8 + (m2 + m4 + m5 + m7);
  }

  /** The queen attacks exactly the bishop's squares and the rook's, in a different order. */
  lemma QueenIsBishopPlusRook(sq: int, pieces: seq<int>)
    requires |pieces| == 64
    ensures multiset(Rays(sq, QUEEN_DIRECTIONS, pieces)) ==
            multiset(Rays(sq, BISHOP_DIRECTIONS, pieces) + Rays(sq, ROOK_DIRECTIONS, pieces))
  {
    QueenRays(sq, pieces);
    RaysOfFour(sq, -9, -7, 7, 9, pieces);
    RaysOfFour(sq, -8, -1, 1, 8, pieces);
    MultisetOfEight(Ray(sq, -9, pieces), Ray(sq, -8, pieces), Ray(sq, -7, pieces), Ray(sq, -1, pieces),
                    Ray(sq, 1, pieces), Ray(sq, 7, pieces), Ray(sq, 8, pieces), Ray(sq, 9, pieces));
  }
}
