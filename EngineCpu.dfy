/**
 * The single-board engine. An `Engine` is the interface the batch driver
 * calls for one board; `Cpu()` is the CPU engine, whose three entry points
 * currently return fixed placeholder results.
 */
module EngineCpu {

  /** Offensive and defensive scores of both sides, in this order. */
  datatype Evaluation = Evaluation(whiteOff: int, whiteDef: int, blackOff: int, blackDef: int)

  /** Which of the 64 squares each side attacks. */
  datatype AttackMaps = AttackMaps(white: seq<bool>, black: seq<bool>)

  /** One row of a single-board move table: its four columns. */
  datatype MoveRow = MoveRow(from: int, to: int, promo: int, flags: int)

  /** A single-board engine: attack maps, evaluation and pseudo-legal moves of one board. */
  datatype Engine = Engine(
    attackMaps: (seq<int>, seq<int>) -> AttackMaps,
    evaluate: (seq<int>, seq<int>) -> Evaluation,
    moves: (seq<int>, seq<int>, int) -> seq<MoveRow>)

  /** No square attacked by either side. */
  predicate NoAttacks(m: AttackMaps) {
    && |m.white| == 64 && |m.black| == 64
    && (forall i :: 0 <= i < 64 ==> !m.white[i])
    && (forall i :: 0 <= i < 64 ==> !m.black[i])
  }

  predicate IsZero(e: Evaluation) {
    e.whiteOff == 0 && e.whiteDef == 0 && e.blackOff == 0 && e.blackDef == 0
  }

  function ComputeAttackMaps(pieces: seq<int>, colors: seq<int>): (r: AttackMaps)
    ensures NoAttacks(r)
  {
    AttackMaps(seq(64, _ => false), seq(64, _ => false))
  }

  function Evaluate(pieces: seq<int>, colors: seq<int>): (r: Evaluation)
    ensures IsZero(r)
  {
    Evaluation(0, 0, 0, 0)
  }

  function GeneratePseudoLegalMoves(pieces: seq<int>, colors: seq<int>, stm: int): (r: seq<MoveRow>)
    ensures |r| == 0
  {
    []
  }

  /** The CPU engine: the three placeholders above. */
  function Cpu(): Engine {
    Engine(ComputeAttackMaps, Evaluate, GeneratePseudoLegalMoves)
  }

  /** The CPU engine's answers do not depend on the board: two calls always agree. */
  lemma CpuIsConstant(p1: seq<int>, c1: seq<int>, s1: int, p2: seq<int>, c2: seq<int>, s2: int)
    ensures Cpu().attackMaps(p1, c1) == Cpu().attackMaps(p2, c2)
    ensures Cpu().evaluate(p1, c1) == Cpu().evaluate(p2, c2)
    ensures Cpu().moves(p1, c1, s1) == Cpu().moves(p2, c2, s2)
  {
  }
}
