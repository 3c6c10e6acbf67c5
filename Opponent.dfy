/**
 * The computer opponent's strategic move choice and the GPU toggle.
 *
 * Every candidate move is scored by how it changes the evaluation, seen from
 * the side to move, under one of the named profiles; the first move with the
 * highest score wins. A board is its stack of moves; what the engine sees of
 * a position (the piece and colour arrays of its FEN) and whose turn it is are
 * given as functions of that stack.
 */
module Opponent {
  import opened Wrappers
  import opened EngineCpu

  /** The four scores from one side's point of view: its own, then its opponent's. */
  datatype Sides = Sides(myOff: int, myDef: int, oppOff: int, oppDef: int)

  /** The evaluation details reported with a strategic move. */
  datatype Details = Details(score: int, myOffense: int, myDefense: int, opponentOffense: int, opponentDefense: int)

  /** An evaluation seen by white (white) or by black (not white). */
  function FromSide(white: bool, e: Evaluation): (r: Sides) {
    if white then Sides(e.whiteOff, e.whiteDef, e.blackOff, e.blackDef)
    else Sides(e.blackOff, e.blackDef, e.whiteOff, e.whiteDef)
  }

  /** The same evaluation with the colours exchanged. */
  function SwapColors(e: Evaluation): Evaluation {
    Evaluation(e.blackOff, e.blackDef, e.whiteOff, e.whiteDef)
  }

  /** How each score changed from before to after. */
  function Change(before: Sides, after: Sides): Sides {
    Sides(after.myOff - before.myOff, after.myDef - before.myDef,
          after.oppOff - before.oppOff, after.oppDef - before.oppDef)
  }

  /** The score a profile gives a change; an unknown profile scores own offence only. */
  function ProfileScore(profile: string, d: Sides): int {
    if profile == "aggressive" then d.myOff - d.oppOff
    else if profile == "defensive" then d.myDef - d.oppOff
    else if profile == "moderate" then d.myOff + d.myDef
    else if profile == "defensive_passive" then d.myDef - d.oppDef
    else d.myOff
  }

  /** The engine's evaluation of the position a move stack reaches. */
  function EvalAt<M>(e: Engine, position: seq<M> -> (seq<int>, seq<int>), stack: seq<M>): Evaluation {
    e.evaluate(position(stack).0, position(stack).1)
  }

  /** The score of playing m from stack, for the side to move there. */
  function MoveScore<M>(e: Engine, position: seq<M> -> (seq<int>, seq<int>), whiteToMove: seq<M> -> bool,
                        stack: seq<M>, profile: string, m: M): int
  {
    var white := whiteToMove(stack);
    ProfileScore(profile, Change(FromSide(white, EvalAt(e, position, stack)), FromSide(white, EvalAt(e, position, stack + [m]))))
  }

  /** The details reported when m is the best move so far. */
  function MoveDetails<M>(e: Engine, position: seq<M> -> (seq<int>, seq<int>), whiteToMove: seq<M> -> bool,
                          stack: seq<M>, profile: string, m: M): Details
  {
    var after := FromSide(whiteToMove(stack), EvalAt(e, position, stack + [m]));
    Details(MoveScore(e, position, whiteToMove, stack, profile, m), after.myOff, after.myDef, after.oppOff, after.oppDef)
  }

  /** Every candidate's score, in candidate order. */
  function Scores<M>(e: Engine, position: seq<M> -> (seq<int>, seq<int>), whiteToMove: seq<M> -> bool,
                     stack: seq<M>, profile: string, legal: seq<M>): (r: seq<int>)
    ensures |r| == |legal|
    ensures forall k :: 0 <= k < |legal| ==> r[k] == MoveScore(e, position, whiteToMove, stack, profile, legal[k])
  {
    seq(|legal|, k requires 0 <= k < |legal| => MoveScore(e, position, whiteToMove, stack, profile, legal[k]))
  }

  /** s[i] is a highest score of s, and every earlier score is strictly lower. */
  predicate IsFirstMax(s: seq<int>, i: nat) {
    && i < |s|
    && (forall k :: 0 <= k < |s| ==> s[k] <= s[i])
    && (forall k :: 0 <= k < i ==> s[k] < s[i])
  }

  /** The index a scan keeping the strictly larger score ends on; None for no scores. */
  function BestIndex(s: seq<int>): (r: Option<nat>)
    ensures r.None? <==> |s| == 0
    ensures r.Some? ==> IsFirstMax(s, r.value)
  {
    if |s| == 0 then None
    else
      var prev := BestIndex(s[..|s| - 1]);
      if prev.None? || s[|s| - 1] > s[prev.value] then Some(|s| - 1) else prev
  }

  /** At most one index is the first maximum. */
  lemma FirstMaxUnique(s: seq<int>, i: nat, j: nat)
    requires IsFirstMax(s, i) && IsFirstMax(s, j)
    ensures i == j
  {
    assert s[i] <= s[j] && s[j] <= s[i];
  }

  /** What the selection returns: the first best candidate and its details, or nothing for no candidates. */
  function Selection<M>(e: Engine, position: seq<M> -> (seq<int>, seq<int>), whiteToMove: seq<M> -> bool,
                        stack: seq<M>, profile: string, legal: seq<M>): (Option<M>, Option<Details>)
  {
    match BestIndex(Scores(e, position, whiteToMove, stack, profile, legal))
    case None => (None, None)
    case Some(i) => (Some(legal[i]), Some(MoveDetails(e, position, whiteToMove, stack, profile, legal[i])))
  }

  /**
   * The selected move is a candidate with the highest score, no earlier
   * candidate scores as high, and the reported score is that move's score.
   */
  lemma SelectionIsFirstBest<M>(e: Engine, position: seq<M> -> (seq<int>, seq<int>), whiteToMove: seq<M> -> bool,
                                stack: seq<M>, profile: string, legal: seq<M>)
    ensures Selection(e, position, whiteToMove, stack, profile, legal).0.None? <==> |legal| == 0
    ensures |legal| > 0 ==>
              exists i: nat :: && IsFirstMax(Scores(e, position, whiteToMove, stack, profile, legal), i)
                          && Selection(e, position, whiteToMove, stack, profile, legal).0 == Some(legal[i])
    ensures Selection(e, position, whiteToMove, stack, profile, legal).1.Some? ==>
              Selection(e, position, whiteToMove, stack, profile, legal).1.value.score ==
              MoveScore(e, position, whiteToMove, stack, profile, Selection(e, position, whiteToMove, stack, profile, legal).0.value)
  {
    var s := Scores(e, position, whiteToMove, stack, profile, legal);
    if |legal| > 0 {
      var i := BestIndex(s).value;
      assert IsFirstMax(s, i);
    }
  }

  /** The two zero-sum profiles give a move opposite scores from the two sides. */
  lemma ZeroSumProfiles(profile: string, before: Evaluation, after: Evaluation)
    requires profile == "aggressive" || profile == "defensive_passive"
    ensures ProfileScore(profile, Change(FromSide(true, before), FromSide(true, after))) ==
            -ProfileScore(profile, Change(FromSide(false, before), FromSide(false, after)))
  {
  }

  /** Black's view of an evaluation is white's view of the colour-swapped one. */
  lemma BlackSeesSwapped(e: Evaluation)
    ensures FromSide(false, e) == FromSide(true, SwapColors(e))
  {
  }

  /** A move that changes nothing scores zero under every profile. */
  lemma NoChangeScoresZero(profile: string, white: bool, ev: Evaluation)
    ensures ProfileScore(profile, Change(FromSide(white, ev), FromSide(white, ev))) == 0
  {
  }

  /** All scores equal: the first candidate is chosen. */
  lemma {:induction false} EqualScoresPickFirst(s: seq<int>)
    requires |s| > 0 && forall k :: 0 <= k < |s| ==> s[k] == s[0]
    ensures BestIndex(s) == Some(0)
  {
    var i := BestIndex(s).value;
    assert IsFirstMax(s, i);
    assert s[i] == s[0];
  }

  /**
   * With the CPU engine every evaluation is zero, so every move scores zero
   * and the first candidate is chosen, with all-zero details.
   */
  lemma CpuPicksFirstCandidate<M>(position: seq<M> -> (seq<int>, seq<int>), whiteToMove: seq<M> -> bool,
                                  stack: seq<M>, profile: string, legal: seq<M>)
    requires |legal| > 0
    ensures Selection(Cpu(), position, whiteToMove, stack, profile, legal) == (Some(legal[0]), Some(Details(0, 0, 0, 0, 0)))
  {
    var s := Scores(Cpu(), position, whiteToMove, stack, profile, legal);
    forall k | 0 <= k < |s|
      ensures s[k] == s[0]
    {
      NoChangeScoresZero(profile, whiteToMove(stack), Evaluation(0, 0, 0, 0));
    }
    EqualScoresPickFirst(s);
  }

  /** A board held in place: its move stack, with push and pop. */
  class Board<M> {
    var stack: seq<M>
    /** The piece and colour arrays of the position's FEN. */
    const position: seq<M> -> (seq<int>, seq<int>)
    /** Whether white is to move in the position. */
    const whiteToMove: seq<M> -> bool

    constructor(stack: seq<M>, position: seq<M> -> (seq<int>, seq<int>), whiteToMove: seq<M> -> bool)
      ensures this.stack == stack && this.position == position && this.whiteToMove == whiteToMove
    {
      this.stack := stack;
      this.position := position;
      this.whiteToMove := whiteToMove;
    }

    method Push(m: M)
      modifies this
      ensures stack == old(stack) + [m]
    {
      stack := stack + [m];
    }

    method Pop()
      requires |stack| > 0
      modifies this
      ensures stack == old(stack)[..|old(stack)| - 1]
    {
      stack := stack[..|stack| - 1];
    }
  }

  /**
   * The scan over the candidates: each is pushed, evaluated and popped, and a
   * strictly higher score replaces the best so far.
   */
  method SelectStrategicMove<M>(board: Board<M>, e: Engine, legal: seq<M>, profile: string)
    returns (best: Option<M>, details: Option<Details>)
    modifies board
    ensures board.stack == old(board.stack)
    ensures (best, details) == Selection(e, board.position, board.whiteToMove, board.stack, profile, legal)
  {
    ghost var scores := Scores(e, board.position, board.whiteToMove, board.stack, profile, legal);
    var bestScore: Option<int> := None;
    best, details := None, None;
    ghost var bestIdx: Option<nat> := None;
    var current := EvalAt(e, board.position, board.stack);
    for i := 0 to |legal|
      invariant board.stack == old(board.stack)
      invariant bestIdx == BestIndex(scores[..i])
      invariant bestIdx.None? ==> best.None? && details.None? && bestScore.None?
      invariant bestIdx.Some? ==>
                  && bestIdx.value < i
                  && bestScore == Some(scores[bestIdx.value])
                  && best == Some(legal[bestIdx.value])
                  && details == Some(MoveDetails(e, board.position, board.whiteToMove, board.stack, profile, legal[bestIdx.value]))
    {
      var move := legal[i];
      board.Push(move);
      var after := EvalAt(e, board.position, board.stack);
      board.Pop();
      assert old(board.stack) + [move] == board.stack + [move];
      var white := board.whiteToMove(board.stack);
      var mine := FromSide(white, after);
      var score := ProfileScore(profile, Change(FromSide(white, current), mine));
      assert scores[..i + 1][..i] == scores[..i];
      if bestScore.None? || score > bestScore.value {
        bestScore := Some(score);
        best := Some(move);
        details := Some(Details(score, mine.myOff, mine.myDef, mine.oppOff, mine.oppDef));
        bestIdx := Some(i);
      }
    }
    assert scores[..|legal|] == scores;
  }

  /** The message the toggle reports. */
  function ToggleMessage(enabled: bool): (r: string)
    ensures enabled <==> r == "GPU enabled"
    ensures !enabled <==> r == "GPU disabled (using CPU)"
  {
    "GPU " + if enabled then "enabled" else "disabled (using CPU)"
  }

  /** The GPU switch: whether a GPU exists, and whether the user forced CPU mode. */
  class GpuSettings {
    const gpuAvailable: bool
    var forceCpu: bool

    constructor(gpuAvailable: bool)
      ensures this.gpuAvailable == gpuAvailable && !forceCpu
    {
      this.gpuAvailable := gpuAvailable;
      forceCpu := false;
    }

    /** The GPU is in use exactly when one exists and CPU mode is not forced. */
    predicate GpuEnabled()
      reads this
    {
      gpuAvailable && !forceCpu
    }

    method GetGpuStatus() returns (available: bool, enabled: bool)
      ensures available == gpuAvailable
      ensures enabled <==> gpuAvailable && !forceCpu
    {
      available := gpuAvailable;
      enabled := gpuAvailable && !forceCpu;
    }

    method ToggleGpu(enable: bool) returns (enabled: bool, message: string)
      modifies this
      ensures forceCpu == !enable
      ensures enabled <==> enable && gpuAvailable
      ensures enabled == GpuEnabled()
      ensures message == ToggleMessage(enabled)
    {
      forceCpu := !enable;
      enabled := enable && gpuAvailable;
      message := ToggleMessage(enabled);
    }
  }
}
