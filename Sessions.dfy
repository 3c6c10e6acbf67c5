/**
 * The in-memory game sessions: each session id maps to a board and to the
 * UCI strings of the moves applied to it. A board is its stack of moves from
 * the standard start position; reading a UCI string in a position and the
 * legality of a move are the chess library's, given as parameters.
 */
module Sessions {
  import opened Wrappers

  datatype HttpError = HttpError(status: int, detail: string)

  const SESSION_NOT_FOUND: HttpError := HttpError(404, "Session not found")
  const INVALID_UCI: HttpError := HttpError(400, "Invalid UCI move")
  const ILLEGAL_MOVE: HttpError := HttpError(400, "Illegal move in this position")
  const NOTHING_TO_UNDO: HttpError := HttpError(400, "No moves to undo")

  /** A session as the API reports it: its board and the moves applied, in order. */
  datatype SessionState<M> = SessionState(sessionId: string, board: seq<M>, movesUci: seq<string>)

  /**
   * The move strings replay the board: string k reads, in the position after
   * the first k moves, as move k, and move k was legal there.
   */
  ghost predicate Replays<M>(parse: (seq<M>, string) -> Option<M>, legal: (seq<M>, M) -> bool, board: seq<M>, ucis: seq<string>) {
    && |board| == |ucis|
    && forall k :: 0 <= k < |board| ==> parse(board[..k], ucis[k]) == Some(board[k]) && legal(board[..k], board[k])
  }

  /** Entry id with x appended. */
  function Pushed<T>(m: map<string, seq<T>>, id: string, x: T): map<string, seq<T>>
    requires id in m
  {
    m[id := m[id] + [x]]
  }

  /** Entry id with its last element removed. */
  function Popped<T>(m: map<string, seq<T>>, id: string): map<string, seq<T>>
    requires id in m && |m[id]| > 0
  {
    m[id := m[id][..|m[id]| - 1]]
  }

  /** Undo after a move gives back the entry as it was. */
  lemma PoppedPushed<T>(m: map<string, seq<T>>, id: string, x: T)
    requires id in m
    ensures Popped(Pushed(m, id, x), id) == m
  {
    assert (m[id] + [x])[..|m[id]|] == m[id];
  }

  /** A legal move read from its string extends a replayed session. */
  lemma {:induction false} ReplaysPush<M>(parse: (seq<M>, string) -> Option<M>, legal: (seq<M>, M) -> bool,
                                         board: seq<M>, ucis: seq<string>, uci: string, m: M)
    requires Replays(parse, legal, board, ucis)
    requires parse(board, uci) == Some(m) && legal(board, m)
    ensures Replays(parse, legal, board + [m], ucis + [uci])
  {
    var board' := board + [m];
    forall k | 0 <= k < |board'|
      ensures parse(board'[..k], (ucis + [uci])[k]) == Some(board'[k]) && legal(board'[..k], board'[k])
    {
      if k < |board| {
        assert board'[..k] == board[..k];
      } else {
        assert board'[..k] == board;
      }
    }
  }

  /** Dropping the last move keeps a session replayed. */
  lemma {:induction false} ReplaysPop<M>(parse: (seq<M>, string) -> Option<M>, legal: (seq<M>, M) -> bool,
                                        board: seq<M>, ucis: seq<string>)
    requires Replays(parse, legal, board, ucis) && |board| > 0
    ensures Replays(parse, legal, board[..|board| - 1], ucis[..|ucis| - 1])
  {
    var board' := board[..|board| - 1];
    forall k | 0 <= k < |board'|
      ensures parse(board'[..k], ucis[..|ucis| - 1][k]) == Some(board'[k]) && legal(board'[..k], board'[k])
    {
      assert board'[..k] == board[..k];
    }
  }

  class SessionStore<M(==)> {
    var sessions: map<string, seq<M>>
    var sessionMoves: map<string, seq<string>>
    /** Reading a UCI string in a position: None where the library raises ValueError. */
    const parse: (seq<M>, string) -> Option<M>
    /** Whether a move is among the position's legal moves. */
    const legal: (seq<M>, M) -> bool

    /** Both maps know the same sessions, and every session's strings replay its board. */
    ghost predicate Valid()
      reads this
    {
      && sessions.Keys == sessionMoves.Keys
      && forall id :: id in sessions ==> Replays(parse, legal, sessions[id], sessionMoves[id])
    }

    constructor(parse: (seq<M>, string) -> Option<M>, legal: (seq<M>, M) -> bool)
      ensures Valid() && sessions == map[] && sessionMoves == map[]
      ensures this.parse == parse && this.legal == legal
    {
      sessions := map[];
      sessionMoves := map[];
      this.parse := parse;
      this.legal := legal;
    }

    /** new_session: id stands for the fresh identifier the caller generated. */
    method NewSession(id: string) returns (state: SessionState<M>)
      requires Valid()
      modifies this
      ensures Valid()
      ensures sessions == old(sessions)[id := []] && sessionMoves == old(sessionMoves)[id := []]
      ensures state == SessionState(id, [], [])
    {
      sessions := sessions[id := []];
      sessionMoves := sessionMoves[id := []];
      state := SessionState(id, [], []);
    }

    method GetSession(id: string) returns (r: Result<seq<M>, HttpError>)
      ensures r.Ok? <==> id in sessions
      ensures r.Ok? ==> r.value == sessions[id]
      ensures r.Err? ==> r.error == SESSION_NOT_FOUND
    {
      if id !in sessions {
        return Err(SESSION_NOT_FOUND);
      }
      return Ok(sessions[id]);
    }

    method GetSessionState(id: string) returns (r: Result<SessionState<M>, HttpError>)
      ensures r.Ok? <==> id in sessions
      ensures r.Ok? ==> r.value == SessionState(id, sessions[id], if id in sessionMoves then sessionMoves[id] else [])
      ensures r.Err? ==> r.error == SESSION_NOT_FOUND
    {
      var board := GetSession(id);
      if board.Err? {
        return Err(board.error);
      }
      var moves := if id in sessionMoves then sessionMoves[id] else [];
      return Ok(SessionState(id, board.value, moves));
    }

    /** apply_session_move: read, check, push; any failure leaves every session as it was. */
    method ApplyMove(id: string, uci: string) returns (r: Result<SessionState<M>, HttpError>)
      requires Valid()
      modifies this
      ensures Valid()
      ensures id !in old(sessions) ==> r == Err(SESSION_NOT_FOUND)
      ensures id in old(sessions) && parse(old(sessions)[id], uci).None? ==> r == Err(INVALID_UCI)
      ensures id in old(sessions) && parse(old(sessions)[id], uci).Some? ==>
                (!legal(old(sessions)[id], parse(old(sessions)[id], uci).value) <==> r == Err(ILLEGAL_MOVE))
      ensures (id in old(sessions) && parse(old(sessions)[id], uci).Some? &&
               legal(old(sessions)[id], parse(old(sessions)[id], uci).value)) ==> r.Ok?
      ensures r.Err? ==> sessions == old(sessions) && sessionMoves == old(sessionMoves)
      ensures r.Ok? ==>
                && id in old(sessions) && id in old(sessionMoves)
                && parse(old(sessions)[id], uci).Some?
                && var m := parse(old(sessions)[id], uci).value;
                && legal(old(sessions)[id], m)
                && sessions == Pushed(old(sessions), id, m)
                && sessionMoves == Pushed(old(sessionMoves), id, uci)
                && r.value == SessionState(id, sessions[id], sessionMoves[id])
    {
      var found := GetSession(id);
      if found.Err? {
        return Err(found.error);
      }
      var board := found.value;
      var move := parse(board, uci);
      if move.None? {
        return Err(INVALID_UCI);
      }
      if !legal(board, move.value) {
        return Err(ILLEGAL_MOVE);
      }
      ReplaysPush(parse, legal, board, sessionMoves[id], uci, move.value);
      sessions := Pushed(sessions, id, move.value);
      sessionMoves := Pushed(sessionMoves, id, uci);
      return Ok(SessionState(id, sessions[id], sessionMoves[id]));
    }

    /** undo_session_move: pops the board and the move list together. */
    method Undo(id: string) returns (r: Result<SessionState<M>, HttpError>)
      requires Valid()
      modifies this
      ensures Valid()
      ensures id !in old(sessions) ==> r == Err(SESSION_NOT_FOUND)
      ensures id in old(sessions) && old(sessionMoves)[id] == [] ==> r == Err(NOTHING_TO_UNDO)
      ensures id in old(sessions) && old(sessionMoves)[id] != [] ==> r.Ok?
      ensures r.Err? ==> sessions == old(sessions) && sessionMoves == old(sessionMoves)
      ensures r.Ok? ==>
                && id in old(sessions) && |old(sessions)[id]| > 0 && |old(sessionMoves)[id]| > 0
                && sessions == Popped(old(sessions), id)
                && sessionMoves == Popped(old(sessionMoves), id)
                && r.value == SessionState(id, sessions[id], sessionMoves[id])
    {
      var found := GetSession(id);
      if found.Err? {
        return Err(found.error);
      }
      var moves := if id in sessionMoves then sessionMoves[id] else [];
      if moves == [] {
        return Err(NOTHING_TO_UNDO);
      }
      ReplaysPop(parse, legal, sessions[id], moves);
      sessions := Popped(sessions, id);
      sessionMoves := Popped(sessionMoves, id);
      return Ok(SessionState(id, sessions[id], sessionMoves[id]));
    }
  }
}
