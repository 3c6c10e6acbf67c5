/**
 * Conversion between the piece-placement and active-colour fields of
 * Forsyth-Edwards Notation (section 16.1.3 of the PGN Standard) and the
 * engine's two 64-square arrays plus side to move.
 *
 * The parser is total: it reports the failures the source raises (no
 * field at all, a letter that names no piece, a write past the array)
 * as errors, and models NumPy's wrap-around for negative indices -64..-1.
 */
module FenUtils {
  import opened Wrappers
  import opened ChessUtils

  /** The standard starting position: placement, white to move, all castling rights, no en passant. */
  const STARTING_FEN: string := START_PLACEMENT + " " + "w" + " " + "KQkq - 0 1"

  datatype Position = Position(pieces: seq<int>, colors: seq<int>, stm: int)

  datatype FenError =
    | MissingPlacement        // the string has no field, so there is no parts[0]
    | UnknownPiece(ch: char)  // the letter is not a key of the piece table
    | SquareOutOfRange(sq: int)  // the cursor is outside the array's indices -64..63

  // ---------------------------------------------------------------------
  // Characters, as Python's str methods classify them.
  // ---------------------------------------------------------------------

  /** The characters str.split() with no argument splits on. */
  predicate IsSpace(c: char) {
    c == ' ' || ('\t' <= c <= '\r') || ('\U{1C}' <= c <= '\U{1F}') ||
    c == '\U{85}' || c == '\U{A0}' || c == '\U{1680}' || ('\U{2000}' <= c <= '\U{200A}') ||
    c == '\U{2028}' || c == '\U{2029}' || c == '\U{202F}' || c == '\U{205F}' || c == '\U{3000}'
  }

  predicate IsDigit(c: char) {
    '0' <= c <= '9'
  }

  function DigitValue(c: char): int
    requires IsDigit(c)
  {
    (c as int) - ('0' as int)
  }

  function DigitChar(n: int): char
    requires 0 <= n <= 9
  {
    (('0' as int) + n) as char
  }

  /** U+212A KELVIN SIGN: upper case, and Python lower-cases it to 'k'. */
  const KELVIN_SIGN: char := '\U{212A}'

  /** str.isupper() on the characters that reach it (those whose lower case names a piece). */
  predicate IsUpper(c: char) {
    ('A' <= c <= 'Z') || c == KELVIN_SIGN
  }

  function ToLower(c: char): char {
    if 'A' <= c <= 'Z' then ((c as int) + 32) as char
    else if c == KELVIN_SIGN then 'k'
    else c
  }

  function ToUpper(c: char): char {
    if 'a' <= c <= 'z' then ((c as int) - 32) as char else c
  }

  const PIECE_LETTERS: string := "pnbrqk"

  /** The parser's piece table: p, n, b, r, q, k name piece types 1..6. */
  function PieceOf(c: char): (r: Option<int>)
    ensures r.Some? <==> c in PIECE_LETTERS
    ensures r.Some? ==> 1 <= r.value <= 6 && PIECE_LETTERS[r.value - 1] == c
  {
    match c
    case 'p' => Some(PIECE_PAWN)
    case 'n' => Some(PIECE_KNIGHT)
    case 'b' => Some(PIECE_BISHOP)
    case 'r' => Some(PIECE_ROOK)
    case 'q' => Some(PIECE_QUEEN)
    case 'k' => Some(PIECE_KING)
    case _ => None
  }

  /** The printer's letter: the table's letter, upper case for white. */
  function PieceChar(piece: int, color: int): char
    requires 1 <= piece <= 6
  {
    var ch := PIECE_LETTERS[piece - 1];
    if color == COLOR_WHITE then ToUpper(ch) else ch
  }

  /** The parser reads back the piece and colour of every letter the printer writes. */
  lemma LetterRoundTrip(piece: int, color: int)
    requires 1 <= piece <= 6 && (color == COLOR_WHITE || color == COLOR_BLACK)
    ensures var ch := PieceChar(piece, color);
            !IsDigit(ch) && ch != '/' && !IsSpace(ch) &&
            PieceOf(ToLower(ch)) == Some(piece) &&
            (if IsUpper(ch) then COLOR_WHITE else COLOR_BLACK) == color
  {
  }

  // ---------------------------------------------------------------------
  // str.split() and str.split('/') and '/'.join(...).
  // ---------------------------------------------------------------------

  /** Length of the run of non-space characters at the front of s. */
  function TokenLength(s: string): (n: nat)
    ensures n <= |s|
  {
    if s == [] || IsSpace(s[0]) then 0 else 1 + TokenLength(s[1..])
  }

  /** str.split(): the maximal runs of non-space characters, in order. */
  function Fields(s: string): seq<string>
    decreases |s|
  {
    if s == [] then []
    else if IsSpace(s[0]) then Fields(s[1..])
    else
      var n := TokenLength(s);
      [s[..n]] + Fields(s[n..])
  }

  /** str.split(sep): the pieces between separators; never empty. */
  function SplitOn(s: string, sep: char): (r: seq<string>)
    ensures |r| >= 1
  {
    if s == [] then [""]
    else
      var rest := SplitOn(s[1..], sep);
      if s[0] == sep then [""] + rest else [[s[0]] + rest[0]] + rest[1..]
  }

  /** sep.join(parts). */
  function Join(parts: seq<string>, sep: char): string {
    if |parts| == 0 then ""
    else if |parts| == 1 then parts[0]
    else parts[0] + [sep] + Join(parts[1..], sep)
  }

  predicate NoSpace(s: string) {
    forall k :: 0 <= k < |s| ==> !IsSpace(s[k])
  }

  lemma {:induction false} TokenLengthOfWord(t: string, rest: string)
    requires NoSpace(t) && (rest == [] || IsSpace(rest[0]))
    ensures TokenLength(t + rest) == |t|
  {
    if t == [] {
      assert t + rest == rest;
    } else {
      assert (t + rest)[1..] == t[1..] + rest;
      TokenLengthOfWord(t[1..], rest);
    }
  }

  /** A non-empty space-free word is one field. */
  lemma FieldsOfWord(t: string)
    requires t != [] && NoSpace(t)
    ensures Fields(t) == [t]
  {
    TokenLengthOfWord(t, []);
    assert t + [] == t;
    assert t[..|t|] == t;
  }

  /** A non-empty space-free word followed by a space is the first field. */
  lemma FieldsOfSpaced(t: string, rest: string)
    requires t != [] && NoSpace(t)
    ensures Fields(t + [' '] + rest) == [t] + Fields(rest)
  {
    var s := t + [' '] + rest;
    TokenLengthOfWord(t, [' '] + rest);
    assert s == t + ([' '] + rest);
    assert s[..|t|] == t;
    assert s[|t|..] == [' '] + rest;
    assert ([' '] + rest)[1..] == rest;
  }

  // ---------------------------------------------------------------------
  // fen_to_arrays
  // ---------------------------------------------------------------------

  /** The parser's state: the cursor square and the two arrays. */
  datatype ParseState = ParseState(sq: int, pieces: seq<int>, colors: seq<int>)

  predicate WellSized(st: ParseState) {
    |st.pieces| == 64 && |st.colors| == 64
  }

  /** The cursor starts on a8 (square 56) with every square empty. */
  function InitialState(): ParseState {
    ParseState(56, seq(64, _ => PIECE_NONE), seq(64, _ => COLOR_EMPTY))
  }

  /** One character of the placement field. */
  function Step(st: ParseState, ch: char): (r: Result<ParseState, FenError>)
    requires WellSized(st)
    ensures r.Ok? ==> WellSized(r.value)
  {
    if ch == '/' then Ok(st.(sq := st.sq - 16))
    else if IsDigit(ch) then Ok(st.(sq := st.sq + DigitValue(ch)))
    else match PieceOf(ToLower(ch))
      case None => Err(UnknownPiece(ch))
      case Some(pieceType) =>
        var color := if IsUpper(ch) then COLOR_WHITE else COLOR_BLACK;
        if st.sq < -64 || st.sq >= 64 then Err(SquareOutOfRange(st.sq))
        else
          var i := if st.sq < 0 then st.sq + 64 else st.sq;
          Ok(ParseState(st.sq + 1, st.pieces[i := pieceType], st.colors[i := color]))
  }

  /** The placement field read from `st` onwards, stopping at the first failure. */
  function Parse(st: ParseState, s: string): (r: Result<ParseState, FenError>)
    requires WellSized(st)
    ensures r.Ok? ==> WellSized(r.value)
    decreases |s|
  {
    if s == [] then Ok(st)
    else match Step(st, s[0])
      case Err(e) => Err(e)
      case Ok(next) => Parse(next, s[1..])
  }

  /** The active-colour field: 0 iff it is "w" or missing. */
  function SideToMove(parts: seq<string>): int {
    var stmChar := if |parts| > 1 then parts[1] else "w";
    if stmChar == "w" then COLOR_WHITE else COLOR_BLACK
  }

  /** The placement field read from a8 on an empty board. */
  function ParsePlacement(s: string): (r: Result<ParseState, FenError>)
    ensures r.Ok? ==> WellSized(r.value)
  {
    Parse(InitialState(), s)
  }

  /** The position the fields describe, or why they describe none. */
  function ParseFields(parts: seq<string>): Result<Position, FenError> {
    if parts == [] then Err(MissingPlacement)
    else match ParsePlacement(parts[0])
      case Err(e) => Err(e)
      case Ok(st) => Ok(Position(st.pieces, st.colors, SideToMove(parts)))
  }

  /** What fen_to_arrays returns or raises. */
  function ParseFen(fen: string): Result<Position, FenError> {
    ParseFields(Fields(fen))
  }

  method FenToArrays(fen: string) returns (r: Result<Position, FenError>)
    ensures r == ParseFen(fen)
  {
    var parts := Fields(fen);
    if |parts| == 0 {
      return Err(MissingPlacement);
    }
    var position := parts[0];
    var stmChar := if |parts| > 1 then parts[1] else "w";
    var pieceArr := new int[64](_ => PIECE_NONE);
    var colorArr := new int[64](_ => COLOR_EMPTY);
    assert pieceArr[..] == InitialState().pieces && colorArr[..] == InitialState().colors;
    var sq := 56;
    for i := 0 to |position|
      invariant Parse(InitialState(), position) == Parse(ParseState(sq, pieceArr[..], colorArr[..]), position[i..])
    {
      var ch := position[i];
      ghost var st := ParseState(sq, pieceArr[..], colorArr[..]);
      assert position[i..][1..] == position[i + 1..];
      if ch == '/' {
        sq := sq - 16;
      } else if IsDigit(ch) {
        sq := sq + DigitValue(ch);
      } else {
        var pieceType := PieceOf(ToLower(ch));
        if pieceType.None? {
          return Err(UnknownPiece(ch));
        }
        var color := if IsUpper(ch) then COLOR_WHITE else COLOR_BLACK;
        if sq < -64 || sq >= 64 {
          return Err(SquareOutOfRange(sq));
        }
        var idx := if sq < 0 then sq + 64 else sq;
        pieceArr[idx] := pieceType.value;
        colorArr[idx] := color;
        assert pieceArr[..] == st.pieces[idx := pieceType.value];
        assert colorArr[..] == st.colors[idx := color];
        sq := sq + 1;
      }
    }
    var stm := if stmChar == "w" then COLOR_WHITE else COLOR_BLACK;
    return Ok(Position(pieceArr[..], colorArr[..], stm));
  }

  /** Every square is either empty (0, -1) or holds a piece 1..6 of colour 0 or 1. */
  predicate Consistent(pieces: seq<int>, colors: seq<int>) {
    |pieces| == 64 && |colors| == 64 &&
    forall i :: 0 <= i < 64 ==>
      (colors[i] == COLOR_EMPTY <==> pieces[i] == PIECE_NONE) &&
      0 <= pieces[i] <= 6 && COLOR_EMPTY <= colors[i] <= COLOR_BLACK
  }

  lemma {:induction false} ParseKeepsConsistent(st: ParseState, s: string)
    requires WellSized(st) && Consistent(st.pieces, st.colors)
    ensures Parse(st, s).Ok? ==> Consistent(Parse(st, s).value.pieces, Parse(st, s).value.colors)
    decreases |s|
  {
    if s != [] {
      match Step(st, s[0])
      case Err(_) =>
      case Ok(next) =>
        assert Consistent(next.pieces, next.colors);
        ParseKeepsConsistent(next, s[1..]);
    }
  }

  /** Whatever it parses, fen_to_arrays marks a square empty in both arrays or in neither. */
  lemma ParsedIsConsistent(fen: string)
    requires ParseFen(fen).Ok?
    ensures Consistent(ParseFen(fen).value.pieces, ParseFen(fen).value.colors)
    ensures ParseFen(fen).value.stm == COLOR_WHITE <==>
              |Fields(fen)| < 2 || Fields(fen)[1] == "w"
  {
    ParseKeepsConsistent(InitialState(), Fields(fen)[0]);
  }

  // ---------------------------------------------------------------------
  // arrays_to_fen
  // ---------------------------------------------------------------------

  predicate PrintablePieces(pieces: seq<int>) {
    forall i :: 0 <= i < |pieces| ==> 0 <= pieces[i] <= 6
  }

  /** The digit for a run of `empty` empty squares, if there is one. */
  function Flush(empty: int): string
    requires 0 <= empty <= 8
  {
    if empty > 0 then [DigitChar(empty)] else []
  }

  /**
   * The text of rank `rank` from `file` on, `empty` empty squares being
   * still unwritten before it.
   */
  function EncodeRank(pieces: seq<int>, colors: seq<int>, rank: int, file: int, empty: int): string
    requires |pieces| == 64 && |colors| == 64 && PrintablePieces(pieces)
    requires 0 <= rank < 8 && 0 <= empty <= file <= 8
    decreases 8 - file
  {
    if file == 8 then Flush(empty)
    else
      if pieces[rank * 8 + file] == PIECE_NONE then EncodeRank(pieces, colors, rank, file + 1, empty + 1)
      else
        Flush(empty) + [PieceChar(pieces[rank * 8 + file], colors[rank * 8 + file])] +
        EncodeRank(pieces, colors, rank, file + 1, 0)
  }

  /** The texts of ranks top, top-1, ..., 0. */
  function RanksFrom(pieces: seq<int>, colors: seq<int>, top: int): (r: seq<string>)
    requires |pieces| == 64 && |colors| == 64 && PrintablePieces(pieces)
    requires 0 <= top < 8
    ensures |r| == top + 1
  {
    seq(top + 1, j requires 0 <= j <= top => EncodeRank(pieces, colors, top - j, 0, 0))
  }

  function Placement(pieces: seq<int>, colors: seq<int>): string
    requires |pieces| == 64 && |colors| == 64 && PrintablePieces(pieces)
  {
    Join(RanksFrom(pieces, colors, 7), '/')
  }

  function StmChar(stm: int): char {
    if stm == COLOR_WHITE then 'w' else 'b'
  }

  /** What arrays_to_fen returns: placement, colour and the fixed "- - 0 1". */
  function FenString(pieces: seq<int>, colors: seq<int>, stm: int): string
    requires |pieces| == 64 && |colors| == 64 && PrintablePieces(pieces)
  {
    Placement(pieces, colors) + [' '] + [StmChar(stm)] + " - - 0 1"
  }

  /** One square of a rank's text: an empty square adds to the run, an occupied one flushes it and prints its letter. */
  lemma EncodeRankStep(pieces: seq<int>, colors: seq<int>, rank: int, file: int, empty: int)
    requires |pieces| == 64 && |colors| == 64 && PrintablePieces(pieces)
    requires 0 <= rank < 8 && 0 <= empty <= file < 8
    ensures pieces[rank * 8 + file] == PIECE_NONE ==>
              EncodeRank(pieces, colors, rank, file, empty) == EncodeRank(pieces, colors, rank, file + 1, empty + 1)
    ensures pieces[rank * 8 + file] != PIECE_NONE ==>
              EncodeRank(pieces, colors, rank, file, empty) ==
              Flush(empty) + [PieceChar(pieces[rank * 8 + file], colors[rank * 8 + file])] +
              EncodeRank(pieces, colors, rank, file + 1, 0)
  {
  }

  /** Regrouping text written so far with the run, the letter and the rest of the rank. */
  lemma TextRegroup(done: string, run: string, ch: char, rest: string)
    ensures done + (run + [ch] + rest) == (done + run + [ch]) + rest
  {
  }

  /** The inner loop of arrays_to_fen: one rank, a-file to h-file. */
  method RankText(pieces: seq<int>, colors: seq<int>, rank: int) returns (rankStr: string)
    requires |pieces| == 64 && |colors| == 64 && PrintablePieces(pieces)
    requires 0 <= rank < 8
    ensures rankStr == EncodeRank(pieces, colors, rank, 0, 0)
  {
    ghost var full := EncodeRank(pieces, colors, rank, 0, 0);
    var emptyCount := 0;
    rankStr := "";
    for file := 0 to 8
      invariant 0 <= emptyCount <= file
      invariant rankStr + EncodeRank(pieces, colors, rank, file, emptyCount) == full
    {
      var sq := rank * 8 + file;
      EncodeRankStep(pieces, colors, rank, file, emptyCount);
      if pieces[sq] == PIECE_NONE {
        emptyCount := emptyCount + 1;
      } else {
        var ch := PieceChar(pieces[sq], colors[sq]);
        TextRegroup(rankStr, Flush(emptyCount), ch, EncodeRank(pieces, colors, rank, file + 1, 0));
        rankStr := rankStr + Flush(emptyCount);
        emptyCount := 0;
        rankStr := rankStr + [ch];
      }
    }
    rankStr := rankStr + Flush(emptyCount);
  }

  method ArraysToFen(pieces: seq<int>, colors: seq<int>, stm: int) returns (fen: string)
    requires |pieces| == 64 && |colors| == 64 && PrintablePieces(pieces)
    ensures fen == FenString(pieces, colors, stm)
  {
    var fenParts: seq<string> := [];
    for rank := 8 downto 0
      invariant |fenParts| == 8 - rank
      invariant forall j :: 0 <= j < |fenParts| ==> fenParts[j] == EncodeRank(pieces, colors, 7 - j, 0, 0)
    {
      var rankStr := RankText(pieces, colors, rank);
      fenParts := fenParts + [rankStr];
    }
    assert fenParts == RanksFrom(pieces, colors, 7);
    var position := Join(fenParts, '/');
    var stmChar := if stm == COLOR_WHITE then 'w' else 'b';
    fen := position + [' '] + [stmChar] + " - - 0 1";
  }

  // ---------------------------------------------------------------------
  // The printer's output reads back as the arrays it printed.
  // ---------------------------------------------------------------------

  /** A letter the printer writes is neither a digit, a separator nor a space. */
  lemma PieceCharIsLetter(piece: int, color: int)
    requires 1 <= piece <= 6
    ensures var ch := PieceChar(piece, color); !IsDigit(ch) && ch != '/' && !IsSpace(ch) && ch in PRINTED_LETTERS
  {
  }

  lemma ParseFlush(st: ParseState, empty: int)
    requires WellSized(st) && 0 <= empty <= 8
    ensures Parse(st, Flush(empty)) == Ok(st.(sq := st.sq + empty))
  {
    if empty > 0 {
      var d := DigitChar(empty);
      assert IsDigit(d) && DigitValue(d) == empty;
      assert Flush(empty)[1..] == [];
    }
  }

  lemma {:induction false} ParseAppend(st: ParseState, a: string, b: string)
    requires WellSized(st)
    ensures Parse(st, a).Err? ==> Parse(st, a + b) == Parse(st, a)
    ensures Parse(st, a).Ok? ==> Parse(st, a + b) == Parse(Parse(st, a).value, b)
    decreases |a|
  {
    if a == [] {
      assert a + b == b;
    } else {
      assert (a + b)[0] == a[0];
      assert (a + b)[1..] == a[1..] + b;
      match Step(st, a[0])
      case Err(_) =>
      case Ok(next) => ParseAppend(next, a[1..], b);
    }
  }

  /** `base` with squares lo..hi-1 taken from `src`. */
  function Splice(base: seq<int>, src: seq<int>, lo: int, hi: int): (r: seq<int>)
    requires |base| == 64 && |src| == 64
    ensures |r| == 64
  {
    seq(64, i requires 0 <= i < 64 => if lo <= i < hi then src[i] else base[i])
  }

  /** The parser state at cursor `sq` whose squares lo..hi-1 come from the arrays and the rest from `st`. */
  function Filled(st: ParseState, pieces: seq<int>, colors: seq<int>, lo: int, hi: int, sq: int): (r: ParseState)
    requires WellSized(st) && |pieces| == 64 && |colors| == 64
    ensures WellSized(r)
  {
    ParseState(sq, Splice(st.pieces, pieces, lo, hi), Splice(st.colors, colors, lo, hi))
  }

  /** Filling no square changes nothing but the cursor. */
  lemma FilledNothing(st: ParseState, pieces: seq<int>, colors: seq<int>, lo: int, sq: int)
    requires WellSized(st) && |pieces| == 64 && |colors| == 64
    ensures Filled(st, pieces, colors, lo, lo, sq) == st.(sq := sq)
  {
    assert Splice(st.pieces, pieces, lo, lo) == st.pieces;
    assert Splice(st.colors, colors, lo, lo) == st.colors;
  }

  /** A square that already shows the arrays' contents can join the filled range. */
  lemma FilledBlank(st: ParseState, pieces: seq<int>, colors: seq<int>, lo: int, hi: int, sq: int)
    requires WellSized(st) && |pieces| == 64 && |colors| == 64 && 0 <= lo < hi
    requires lo < 64 && st.pieces[lo] == pieces[lo] && st.colors[lo] == colors[lo]
    ensures Filled(st, pieces, colors, lo + 1, hi, sq) == Filled(st, pieces, colors, lo, hi, sq)
  {
    assert Splice(st.pieces, pieces, lo + 1, hi) == Splice(st.pieces, pieces, lo, hi);
    assert Splice(st.colors, colors, lo + 1, hi) == Splice(st.colors, colors, lo, hi);
  }

  /** Writing the arrays' piece on square lo, then filling lo+1..hi-1, fills lo..hi-1. */
  lemma FilledPiece(st: ParseState, pieces: seq<int>, colors: seq<int>, lo: int, hi: int, sq: int)
    requires WellSized(st) && |pieces| == 64 && |colors| == 64 && 0 <= lo < hi && lo < 64
    ensures Filled(ParseState(lo + 1, st.pieces[lo := pieces[lo]], st.colors[lo := colors[lo]]), pieces, colors, lo + 1, hi, sq) ==
            Filled(st, pieces, colors, lo, hi, sq)
  {
    assert Splice(st.pieces[lo := pieces[lo]], pieces, lo + 1, hi) == Splice(st.pieces, pieces, lo, hi);
    assert Splice(st.colors[lo := colors[lo]], colors, lo + 1, hi) == Splice(st.colors, colors, lo, hi);
  }

  /** Filling lo..mid-1 over a state whose mid..hi-1 are already filled fills lo..hi-1. */
  lemma FilledCompose(st: ParseState, st2: ParseState, pieces: seq<int>, colors: seq<int>, lo: int, mid: int, hi: int, sq: int)
    requires WellSized(st) && WellSized(st2) && |pieces| == 64 && |colors| == 64 && lo <= mid <= hi
    requires st2.pieces == Splice(st.pieces, pieces, mid, hi) && st2.colors == Splice(st.colors, colors, mid, hi)
    ensures Filled(st2, pieces, colors, lo, mid, sq) == Filled(st, pieces, colors, lo, hi, sq)
  {
    assert Splice(st2.pieces, pieces, lo, mid) == Splice(st.pieces, pieces, lo, hi);
    assert Splice(st2.colors, colors, lo, mid) == Splice(st.colors, colors, lo, hi);
  }

  /** A printed letter on a square of the board writes that piece and colour there. */
  lemma ParsePiece(st: ParseState, piece: int, color: int, rest: string)
    requires WellSized(st) && 0 <= st.sq < 64
    requires 1 <= piece <= 6 && (color == COLOR_WHITE || color == COLOR_BLACK)
    ensures Parse(st, [PieceChar(piece, color)] + rest) ==
            Parse(ParseState(st.sq + 1, st.pieces[st.sq := piece], st.colors[st.sq := color]), rest)
  {
    var ch := PieceChar(piece, color);
    LetterRoundTrip(piece, color);
    assert ([ch] + rest)[0] == ch;
    assert ([ch] + rest)[1..] == rest;
  }

  /** The parser is at file `file` of `rank`, `empty` squares short of it, with the rest of the rank blank. */
  predicate RankReady(pieces: seq<int>, colors: seq<int>, rank: int, file: int, empty: int, st: ParseState) {
    Consistent(pieces, colors) && 0 <= rank < 8 && 0 <= empty <= file <= 8 &&
    WellSized(st) && st.sq == rank * 8 + file - empty &&
    forall i :: rank * 8 + file <= i < rank * 8 + 8 ==>
      st.pieces[i] == PIECE_NONE && st.colors[i] == COLOR_EMPTY
  }

  /** Reading the rest of the printed rank ends at the next rank with files `file`..7 filled in. */
  predicate RankRead(pieces: seq<int>, colors: seq<int>, rank: int, file: int, empty: int, st: ParseState) {
    && |pieces| == 64 && |colors| == 64 && PrintablePieces(pieces)
    && 0 <= rank < 8 && 0 <= empty <= file <= 8 && WellSized(st)
    && Parse(st, EncodeRank(pieces, colors, rank, file, empty)) ==
       Ok(Filled(st, pieces, colors, rank * 8 + file, rank * 8 + 8, rank * 8 + 8))
  }

  lemma {:induction false} ParseRank(pieces: seq<int>, colors: seq<int>, rank: int, file: int, empty: int, st: ParseState)
    requires RankReady(pieces, colors, rank, file, empty, st)
    ensures RankRead(pieces, colors, rank, file, empty, st)
    decreases 8 - file, 1
  {
    if file == 8 {
      ParseFlush(st, empty);
      FilledNothing(st, pieces, colors, rank * 8 + 8, rank * 8 + 8);
    } else if pieces[rank * 8 + file] == PIECE_NONE {
      ParseEmptySquare(pieces, colors, rank, file, empty, st);
    } else {
      ParseOccupiedSquare(pieces, colors, rank, file, empty, st);
    }
  }

  /** Passing an empty square leaves the parser ready for the next file, one blank further behind. */
  lemma ReadyAfterBlank(pieces: seq<int>, colors: seq<int>, rank: int, file: int, empty: int, st: ParseState)
    requires RankReady(pieces, colors, rank, file, empty, st) && file < 8
    requires pieces[rank * 8 + file] == PIECE_NONE
    ensures RankReady(pieces, colors, rank, file + 1, empty + 1, st)
    ensures st.pieces[rank * 8 + file] == pieces[rank * 8 + file] && st.colors[rank * 8 + file] == colors[rank * 8 + file]
  {
    assert colors[rank * 8 + file] == COLOR_EMPTY;
  }

  lemma {:induction false} ParseEmptySquare(pieces: seq<int>, colors: seq<int>, rank: int, file: int, empty: int, st: ParseState)
    requires RankReady(pieces, colors, rank, file, empty, st) && file < 8
    requires pieces[rank * 8 + file] == PIECE_NONE
    ensures RankRead(pieces, colors, rank, file, empty, st)
    decreases 8 - file, 0
  {
    var sq := rank * 8 + file;
    var hi := rank * 8 + 8;
    EncodeRankStep(pieces, colors, rank, file, empty);
    ReadyAfterBlank(pieces, colors, rank, file, empty, st);
    ParseRank(pieces, colors, rank, file + 1, empty + 1, st);
    assert rank * 8 + (file + 1) == sq + 1;
    FilledBlank(st, pieces, colors, sq, hi, hi);
  }

  /** Reading a run of blanks and then a letter skips the run and places the letter's piece. */
  lemma ParseRunThenLetter(st: ParseState, empty: int, piece: int, color: int, rest: string)
    requires WellSized(st) && 0 <= empty <= 8 && 0 <= st.sq + empty < 64
    requires 1 <= piece <= 6 && (color == COLOR_WHITE || color == COLOR_BLACK)
    ensures var sq := st.sq + empty;
            Parse(st, Flush(empty) + [PieceChar(piece, color)] + rest) ==
            Parse(ParseState(sq + 1, st.pieces[sq := piece], st.colors[sq := color]), rest)
  {
    var ch := PieceChar(piece, color);
    assert Flush(empty) + [ch] + rest == Flush(empty) + ([ch] + rest);
    ParseAppend(st, Flush(empty), [ch] + rest);
    ParseFlush(st, empty);
    ParsePiece(st.(sq := st.sq + empty), piece, color, rest);
  }

  /** Placing the piece of square `file` leaves the parser ready for the next file. */
  lemma ReadyAfterPiece(pieces: seq<int>, colors: seq<int>, rank: int, file: int, empty: int, st: ParseState)
    requires RankReady(pieces, colors, rank, file, empty, st) && file < 8
    ensures var sq := rank * 8 + file;
            RankReady(pieces, colors, rank, file + 1, 0, ParseState(sq + 1, st.pieces[sq := pieces[sq]], st.colors[sq := colors[sq]]))
  {
  }

  lemma {:induction false} ParseOccupiedSquare(pieces: seq<int>, colors: seq<int>, rank: int, file: int, empty: int, st: ParseState)
    requires RankReady(pieces, colors, rank, file, empty, st) && file < 8
    requires pieces[rank * 8 + file] != PIECE_NONE
    ensures RankRead(pieces, colors, rank, file, empty, st)
    decreases 8 - file, 0
  {
    var sq := rank * 8 + file;
    var hi := rank * 8 + 8;
    var rest := EncodeRank(pieces, colors, rank, file + 1, 0);
    var st2 := ParseState(sq + 1, st.pieces[sq := pieces[sq]], st.colors[sq := colors[sq]]);
    EncodeRankStep(pieces, colors, rank, file, empty);
    ParseRunThenLetter(st, empty, pieces[sq], colors[sq], rest);
    ReadyAfterPiece(pieces, colors, rank, file, empty, st);
    ParseRank(pieces, colors, rank, file + 1, 0, st2);
    assert rank * 8 + (file + 1) == sq + 1;
    FilledPiece(st, pieces, colors, sq, hi, hi);
  }

  /** The parser is at a-file of rank `top` with ranks 0..top blank. */
  predicate RanksReady(pieces: seq<int>, colors: seq<int>, top: int, st: ParseState) {
    Consistent(pieces, colors) && 0 <= top < 8 && WellSized(st) && st.sq == top * 8 &&
    forall i :: 0 <= i < top * 8 + 8 ==> st.pieces[i] == PIECE_NONE && st.colors[i] == COLOR_EMPTY
  }

  /** Reading ranks top..0 of the printed placement fills exactly those ranks, ending on a2 (square 8). */
  predicate RanksRead(pieces: seq<int>, colors: seq<int>, top: int, st: ParseState) {
    && |pieces| == 64 && |colors| == 64 && PrintablePieces(pieces) && 0 <= top < 8 && WellSized(st)
    && Parse(st, Join(RanksFrom(pieces, colors, top), '/')) == Ok(Filled(st, pieces, colors, 0, top * 8 + 8, 8))
  }

  lemma {:induction false} ParseRanks(pieces: seq<int>, colors: seq<int>, top: int, st: ParseState)
    requires RanksReady(pieces, colors, top, st)
    ensures RanksRead(pieces, colors, top, st)
    decreases top, 1
  {
    var parts := RanksFrom(pieces, colors, top);
    var first := EncodeRank(pieces, colors, top, 0, 0);
    assert RankReady(pieces, colors, top, 0, 0, st);
    ParseRank(pieces, colors, top, 0, 0, st);
    if top == 0 {
      assert Join(parts, '/') == first;
      assert top * 8 + 0 == 0 && top * 8 + 8 == 8;
    } else {
      ParseLaterRanks(pieces, colors, top, st);
    }
  }

  lemma {:induction false} ParseSlash(st: ParseState, tail: string)
    requires WellSized(st)
    ensures Parse(st, ['/'] + tail) == Parse(st.(sq := st.sq - 16), tail)
  {
    var s := ['/'] + tail;
    assert s != [] && s[0] == '/' && s[1..] == tail;
    assert Step(st, '/') == Ok(st.(sq := st.sq - 16));
  }

  /** Reading a rank's text and then "/" moves the cursor down to the a-file of the rank below. */
  lemma ParseThenSlash(st: ParseState, first: string, tail: string)
    requires WellSized(st) && Parse(st, first).Ok?
    ensures var st1 := Parse(st, first).value;
            Parse(st, first + (['/'] + tail)) == Parse(st1.(sq := st1.sq - 16), tail)
  {
    ParseSlash(Parse(st, first).value, tail);
    ParseAppend(st, first, ['/'] + tail);
  }

  /** Once rank `top` is read, the parser is ready for the ranks below it. */
  lemma ReadyForLowerRanks(pieces: seq<int>, colors: seq<int>, top: int, st: ParseState)
    requires RanksReady(pieces, colors, top, st) && top > 0
    ensures RanksReady(pieces, colors, top - 1, Filled(st, pieces, colors, top * 8, top * 8 + 8, top * 8 - 8))
  {
  }

  lemma {:induction false} ParseLaterRanks(pieces: seq<int>, colors: seq<int>, top: int, st: ParseState)
    requires RanksReady(pieces, colors, top, st) && top > 0
    requires RankRead(pieces, colors, top, 0, 0, st)
    ensures RanksRead(pieces, colors, top, st)
    decreases top, 0
  {
    var first := EncodeRank(pieces, colors, top, 0, 0);
    var tail := Join(RanksFrom(pieces, colors, top - 1), '/');
    assert top * 8 + 0 == top * 8;
    var st2 := Filled(st, pieces, colors, top * 8, top * 8 + 8, top * 8 - 8);
    JoinRanksFrom(pieces, colors, top);
    ParseThenSlash(st, first, tail);
    ReadyForLowerRanks(pieces, colors, top, st);
    ParseRanks(pieces, colors, top - 1, st2);
    assert (top - 1) * 8 + 8 == top * 8;
    FilledCompose(st, st2, pieces, colors, 0, top * 8, top * 8 + 8, 8);
  }

  /** The placement the printer writes reads back as exactly the printed arrays. */
  lemma ParsePrintedPlacement(pieces: seq<int>, colors: seq<int>)
    requires Consistent(pieces, colors)
    ensures ParsePlacement(Placement(pieces, colors)) == Ok(ParseState(8, pieces, colors))
  {
    assert RanksReady(pieces, colors, 7, InitialState());
    ParseRanks(pieces, colors, 7, InitialState());
    assert Splice(InitialState().pieces, pieces, 0, 64) == pieces;
    assert Splice(InitialState().colors, colors, 0, 64) == colors;
  }

  /** A character a rank's text may hold: a run length 1..8 or a piece letter. */
  predicate RankChar(c: char) {
    ('1' <= c <= '8') || c in PRINTED_LETTERS
  }

  const PRINTED_LETTERS: string := "pnbrqkPNBRQK"

  /** A rank's text: run lengths and piece letters only, and never two run lengths in a row. */
  predicate RankChars(s: string) {
    && (forall k :: 0 <= k < |s| ==> RankChar(s[k]))
    && (forall k :: 0 <= k < |s| - 1 ==> !(IsDigit(s[k]) && IsDigit(s[k + 1])))
  }

  /** A pending run, then a letter, then the text of the rest of the rank. */
  lemma RankCharsAfterLetter(run: string, ch: char, rest: string)
    requires |run| <= 1 && (forall k :: 0 <= k < |run| ==> '1' <= run[k] <= '8')
    requires ch in PRINTED_LETTERS && RankChars(rest)
    ensures RankChars(run + [ch] + rest)
  {
    var s := run + [ch] + rest;
    forall k | 0 <= k < |s|
      ensures RankChar(s[k])
    {
      if k > |run| {
        assert s[k] == rest[k - |run| - 1];
      }
    }
    forall k | 0 <= k < |s| - 1
      ensures !(IsDigit(s[k]) && IsDigit(s[k + 1]))
    {
      if k < |run| {
        assert s[k + 1] == ch;
      } else if k > |run| {
        assert s[k] == rest[k - |run| - 1] && s[k + 1] == rest[k - |run|];
      }
    }
  }

  lemma {:induction false} EncodeRankChars(pieces: seq<int>, colors: seq<int>, rank: int, file: int, empty: int)
    requires |pieces| == 64 && |colors| == 64 && PrintablePieces(pieces)
    requires 0 <= rank < 8 && 0 <= empty <= file <= 8
    ensures RankChars(EncodeRank(pieces, colors, rank, file, empty))
    decreases 8 - file
  {
    if file < 8 {
      var sq := rank * 8 + file;
      if pieces[sq] == PIECE_NONE {
        EncodeRankChars(pieces, colors, rank, file + 1, empty + 1);
      } else {
        PieceCharIsLetter(pieces[sq], colors[sq]);
        EncodeRankChars(pieces, colors, rank, file + 1, 0);
        RankCharsAfterLetter(Flush(empty), PieceChar(pieces[sq], colors[sq]), EncodeRank(pieces, colors, rank, file + 1, 0));
      }
    }
  }

  lemma {:induction false} JoinNoSpace(parts: seq<string>)
    requires forall j :: 0 <= j < |parts| ==> RankChars(parts[j])
    ensures NoSpace(Join(parts, '/'))
    ensures |parts| >= 2 ==> Join(parts, '/') != []
  {
    if |parts| >= 2 {
      JoinNoSpace(parts[1..]);
      assert Join(parts, '/')[|parts[0]|] == '/';
    }
  }

  /** The printed placement is one non-empty field of str.split(). */
  lemma PlacementIsOneField(pieces: seq<int>, colors: seq<int>)
    requires |pieces| == 64 && |colors| == 64 && PrintablePieces(pieces)
    ensures Placement(pieces, colors) != [] && NoSpace(Placement(pieces, colors))
    ensures forall j :: 0 <= j < 8 ==> RankChars(RanksFrom(pieces, colors, 7)[j])
  {
    var parts := RanksFrom(pieces, colors, 7);
    forall j | 0 <= j < 8
      ensures RankChars(parts[j])
    {
      EncodeRankChars(pieces, colors, 7 - j, 0, 0);
    }
    JoinNoSpace(parts);
  }

  /** The printed string splits into the placement, then the colour letter, then the rest. */
  lemma FenStringFields(pieces: seq<int>, colors: seq<int>, stm: int)
    requires |pieces| == 64 && |colors| == 64 && PrintablePieces(pieces)
    ensures |Fields(FenString(pieces, colors, stm))| >= 2
    ensures Fields(FenString(pieces, colors, stm))[0] == Placement(pieces, colors)
    ensures Fields(FenString(pieces, colors, stm))[1] == [StmChar(stm)]
  {
    var placement := Placement(pieces, colors);
    var c := StmChar(stm);
    var counters := "- - 0 1";
    PlacementIsOneField(pieces, colors);
    assert FenString(pieces, colors, stm) == placement + [' '] + ([c] + [' '] + counters);
    FieldsOfSpaced(placement, [c] + [' '] + counters);
    FieldsOfSpaced([c], counters);
  }

  /** Round trip: fen_to_arrays(arrays_to_fen(p, c, stm)) == (p, c, stm) for consistent arrays. */
  lemma RoundTrip(pieces: seq<int>, colors: seq<int>, stm: int)
    requires Consistent(pieces, colors) && (stm == COLOR_WHITE || stm == COLOR_BLACK)
    ensures ParseFen(FenString(pieces, colors, stm)) == Ok(Position(pieces, colors, stm))
  {
    FenStringFields(pieces, colors, stm);
    ParsePrintedPlacement(pieces, colors);
  }

  // ---------------------------------------------------------------------
  // The starting position and the empty board.
  // ---------------------------------------------------------------------

  /** The back rank from the a-file: rook, knight, bishop, queen, king, bishop, knight, rook. */
  const BACK_RANK: seq<int> := [4, 2, 3, 5, 6, 3, 2, 4]

  function StartPiece(sq: int): int {
    if 0 <= sq < 8 then BACK_RANK[sq]
    else if 8 <= sq < 16 || 48 <= sq < 56 then PIECE_PAWN
    else if 56 <= sq < 64 then BACK_RANK[sq - 56]
    else PIECE_NONE
  }

  function StartColor(sq: int): int {
    if 0 <= sq < 16 then COLOR_WHITE
    else if 48 <= sq < 64 then COLOR_BLACK
    else COLOR_EMPTY
  }

  function StartPieces(): seq<int> {
    seq(64, StartPiece)
  }

  function StartColors(): seq<int> {
    seq(64, StartColor)
  }

  const START_PLACEMENT: string := "rnbqkbnr/pppppppp/8/8/8/8/PPPPPPPP/RNBQKBNR"

  /** A rank whose squares from `file` on are all empty prints as one digit for the whole run. */
  lemma {:induction false} BlankRankText(pieces: seq<int>, colors: seq<int>, rank: int, file: int, empty: int)
    requires |pieces| == 64 && |colors| == 64 && PrintablePieces(pieces)
    requires 0 <= rank < 8 && 0 <= empty <= file <= 8
    requires forall i :: rank * 8 + file <= i < rank * 8 + 8 ==> pieces[i] == PIECE_NONE
    ensures EncodeRank(pieces, colors, rank, file, empty) == Flush(empty + 8 - file)
    decreases 8 - file
  {
    if file < 8 {
      BlankRankText(pieces, colors, rank, file + 1, empty + 1);
    }
  }

  /** A rank whose squares from `file` on are all occupied prints as one letter per square. */
  lemma {:induction false} FullRankText(pieces: seq<int>, colors: seq<int>, rank: int, file: int)
    requires |pieces| == 64 && |colors| == 64 && PrintablePieces(pieces)
    requires 0 <= rank < 8 && 0 <= file <= 8
    requires forall i :: rank * 8 + file <= i < rank * 8 + 8 ==> pieces[i] != PIECE_NONE
    ensures |EncodeRank(pieces, colors, rank, file, 0)| == 8 - file
    ensures forall k :: 0 <= k < 8 - file ==>
              EncodeRank(pieces, colors, rank, file, 0)[k] ==
              PieceChar(pieces[rank * 8 + file + k], colors[rank * 8 + file + k])
    decreases 8 - file
  {
    if file < 8 {
      FullRankText(pieces, colors, rank, file + 1);
    }
  }

  lemma StartingConsistent()
    ensures Consistent(StartPieces(), StartColors())
  {
  }

  lemma StartingBackRanks()
    ensures EncodeRank(StartPieces(), StartColors(), 7, 0, 0) == "rnbqkbnr"
    ensures EncodeRank(StartPieces(), StartColors(), 0, 0, 0) == "RNBQKBNR"
  {
    StartingConsistent();
    FullRankText(StartPieces(), StartColors(), 7, 0);
    FullRankText(StartPieces(), StartColors(), 0, 0);
  }

  lemma StartingPawnRanks()
    ensures EncodeRank(StartPieces(), StartColors(), 6, 0, 0) == "pppppppp"
    ensures EncodeRank(StartPieces(), StartColors(), 1, 0, 0) == "PPPPPPPP"
  {
    StartingConsistent();
    FullRankText(StartPieces(), StartColors(), 6, 0);
    FullRankText(StartPieces(), StartColors(), 1, 0);
  }

  lemma StartingBlankRank(rank: int)
    requires 2 <= rank < 6
    ensures EncodeRank(StartPieces(), StartColors(), rank, 0, 0) == "8"
  {
    StartingConsistent();
    BlankRankText(StartPieces(), StartColors(), rank, 0, 0);
  }

  lemma {:induction false} JoinRanksFrom(pieces: seq<int>, colors: seq<int>, top: int)
    requires |pieces| == 64 && |colors| == 64 && PrintablePieces(pieces)
    requires 0 < top < 8
    ensures Join(RanksFrom(pieces, colors, top), '/') ==
            EncodeRank(pieces, colors, top, 0, 0) + (['/'] + Join(RanksFrom(pieces, colors, top - 1), '/'))
  {
    RanksFromTail(pieces, colors, top);
    JoinFirst(RanksFrom(pieces, colors, top), '/');
  }

  /** Joining two or more parts writes the first, the separator, then the rest joined. */
  lemma JoinFirst(parts: seq<string>, sep: char)
    requires |parts| >= 2
    ensures Join(parts, sep) == parts[0] + ([sep] + Join(parts[1..], sep))
  {
  }

  /** Dropping rank `top`'s text leaves the texts of the ranks below it. */
  lemma RanksFromTail(pieces: seq<int>, colors: seq<int>, top: int)
    requires |pieces| == 64 && |colors| == 64 && PrintablePieces(pieces)
    requires 0 < top < 8
    ensures RanksFrom(pieces, colors, top)[1..] == RanksFrom(pieces, colors, top - 1)
  {
    var parts := RanksFrom(pieces, colors, top);
    var lower := RanksFrom(pieces, colors, top - 1);
    forall j | 0 <= j < top
      ensures parts[1..][j] == lower[j]
    {
      assert parts[1..][j] == parts[j + 1];
    }
  }

  /** The placement is the eight rank texts, rank 8 first, separated by '/'. */
  lemma PlacementRanks(pieces: seq<int>, colors: seq<int>)
    requires |pieces| == 64 && |colors| == 64 && PrintablePieces(pieces)
    ensures Placement(pieces, colors) ==
            EncodeRank(pieces, colors, 7, 0, 0) + ("/" + (EncodeRank(pieces, colors, 6, 0, 0) + ("/" +
            (EncodeRank(pieces, colors, 5, 0, 0) + ("/" + (EncodeRank(pieces, colors, 4, 0, 0) + ("/" +
            (EncodeRank(pieces, colors, 3, 0, 0) + ("/" + (EncodeRank(pieces, colors, 2, 0, 0) + ("/" +
            (EncodeRank(pieces, colors, 1, 0, 0) + ("/" + EncodeRank(pieces, colors, 0, 0, 0))))))))))))))
  {
    JoinRanksFrom(pieces, colors, 7);
    JoinRanksFrom(pieces, colors, 6);
    JoinRanksFrom(pieces, colors, 5);
    JoinRanksFrom(pieces, colors, 4);
    JoinRanksFrom(pieces, colors, 3);
    JoinRanksFrom(pieces, colors, 2);
    JoinRanksFrom(pieces, colors, 1);
  }

  lemma StartingPlacementSpelled()
    ensures "rnbqkbnr" + ("/" + ("pppppppp" + ("/" + ("8" + ("/" + ("8" + ("/" + ("8" + ("/" +
            ("8" + ("/" + ("PPPPPPPP" + ("/" + "RNBQKBNR"))))))))))))) == START_PLACEMENT
  {
  }

  lemma StartingPlacementPrinted()
    ensures Consistent(StartPieces(), StartColors())
    ensures Placement(StartPieces(), StartColors()) == START_PLACEMENT
  {
    StartingPlacementSpelled();
    StartingConsistent();
    PlacementRanks(StartPieces(), StartColors());
    StartingBackRanks();
    StartingPawnRanks();
    StartingBlankRank(2);
    StartingBlankRank(3);
    StartingBlankRank(4);
    StartingBlankRank(5);
  }

  lemma StartingPlacementOneField()
    ensures START_PLACEMENT != [] && NoSpace(START_PLACEMENT)
  {
    StartingPlacementPrinted();
    PlacementIsOneField(StartPieces(), StartColors());
  }

  lemma StartingFenFields()
    ensures |Fields(STARTING_FEN)| >= 2
    ensures Fields(STARTING_FEN)[0] == START_PLACEMENT && Fields(STARTING_FEN)[1] == "w"
  {
    var castling := "KQkq - 0 1";
    StartingPlacementOneField();
    assert STARTING_FEN == START_PLACEMENT + [' '] + ("w" + [' '] + castling);
    FieldsOfSpaced(START_PLACEMENT, "w" + [' '] + castling);
    FieldsOfSpaced("w", castling);
  }

  /** The standard starting FEN reads as the standard starting arrays, white to move. */
  lemma StartingFen()
    ensures ParseFen(STARTING_FEN) == Ok(Position(StartPieces(), StartColors(), COLOR_WHITE))
  {
    StartingFenFields();
    StartingPlacementPrinted();
    ParsePrintedPlacement(StartPieces(), StartColors());
  }

  /** What the starting FEN puts on the board, square by square. */
  lemma StartingSquares()
    ensures StartPieces()[0] == StartPieces()[7] == StartPieces()[56] == StartPieces()[63] == PIECE_ROOK
    ensures StartPieces()[4] == StartPieces()[60] == PIECE_KING
    ensures StartPieces()[3] == StartPieces()[59] == PIECE_QUEEN
    ensures forall i :: 8 <= i < 16 || 48 <= i < 56 ==> StartPieces()[i] == PIECE_PAWN
    ensures forall i :: 16 <= i < 48 ==> StartPieces()[i] == PIECE_NONE && StartColors()[i] == COLOR_EMPTY
    ensures forall i :: 0 <= i < 16 ==> StartColors()[i] == COLOR_WHITE
    ensures forall i :: 48 <= i < 64 ==> StartColors()[i] == COLOR_BLACK
  {
  }

  function EmptyPosition(): Position {
    Position(seq(64, _ => PIECE_NONE), seq(64, _ => COLOR_EMPTY), COLOR_WHITE)
  }

  lemma EmptyPlacementSpelled()
    ensures "8" + ("/" + ("8" + ("/" + ("8" + ("/" + ("8" + ("/" + ("8" + ("/" +
            ("8" + ("/" + ("8" + ("/" + "8"))))))))))))) + [' '] + ['w'] + " - - 0 1" ==
            "8/8/8/8/8/8/8/8 w - - 0 1"
  {
  }

  /** The empty board prints as eight "8" ranks, white to move, and reads back as itself. */
  lemma EmptyBoardFen()
    ensures FenString(EmptyPosition().pieces, EmptyPosition().colors, COLOR_WHITE) == "8/8/8/8/8/8/8/8 w - - 0 1"
    ensures ParseFen(FenString(EmptyPosition().pieces, EmptyPosition().colors, COLOR_WHITE)) == Ok(EmptyPosition())
  {
    var e := EmptyPosition();
    PlacementRanks(e.pieces, e.colors);
    BlankRankText(e.pieces, e.colors, 7, 0, 0);
    BlankRankText(e.pieces, e.colors, 6, 0, 0);
    BlankRankText(e.pieces, e.colors, 5, 0, 0);
    BlankRankText(e.pieces, e.colors, 4, 0, 0);
    BlankRankText(e.pieces, e.colors, 3, 0, 0);
    BlankRankText(e.pieces, e.colors, 2, 0, 0);
    BlankRankText(e.pieces, e.colors, 1, 0, 0);
    BlankRankText(e.pieces, e.colors, 0, 0, 0);
    EmptyPlacementSpelled();
    RoundTrip(e.pieces, e.colors, COLOR_WHITE);
  }

  /** A string with no field is rejected; so is an unknown letter. */
  lemma ParseErrors()
    ensures ParseFen("") == Err(MissingPlacement)
    ensures ParseFen(" \t\n") == Err(MissingPlacement)
    ensures ParseFen("x") == Err(UnknownPiece('x'))
    ensures ParseFen("88p") == Err(SquareOutOfRange(72))
    ensures Board2D("") == Err(MissingPlacement)
  {
    assert Fields(" \t\n") == [];
    FieldsOfWord("x");
    FieldsOfWord("88p");
    var st := InitialState();
    assert Parse(st, "88p") == Parse(st.(sq := 64), "8p");
  }

  /** A cursor below a1 writes through NumPy's negative indexing: "////p" lands on a8. */
  lemma NegativeCursorWraps()
    ensures ParseFen("////p").Ok?
    ensures ParseFen("////p").value.pieces[56] == PIECE_PAWN
    ensures ParseFen("////p").value.colors[56] == COLOR_BLACK
  {
    FieldsOfWord("////p");
    var st := InitialState();
    assert Parse(st, "////p") == Parse(st.(sq := -8), "p");
  }
  // ---------------------------------------------------------------------
  // fen_to_board_2d
  // ---------------------------------------------------------------------

  /** One display row: a piece character, or None for an empty square. */
  type Row = seq<Option<char>>

  function Blanks(n: nat): (r: Row)
    ensures |r| == n && forall k :: 0 <= k < n ==> r[k] == None
  {
    seq(n, _ => None)
  }

  /** The cells one placement character stands for: a digit is that many blanks. */
  function Cells(ch: char): Row {
    if IsDigit(ch) then Blanks(DigitValue(ch)) else [Some(ch)]
  }

  /** The display row of one '/'-separated piece of the placement. */
  function ExpandRow(row: string): Row {
    if row == [] then [] else ExpandRow(row[..|row| - 1]) + Cells(row[|row| - 1])
  }

  /** Every piece of the placement, expanded in order. */
  function ExpandRows(rows: seq<string>): (r: seq<Row>)
    ensures |r| == |rows|
    ensures forall j :: 0 <= j < |rows| ==> r[j] == ExpandRow(rows[j])
  {
    if rows == [] then [] else ExpandRows(rows[..|rows| - 1]) + [ExpandRow(rows[|rows| - 1])]
  }

  function BoardOfFields(parts: seq<string>): Result<seq<Row>, FenError> {
    if parts == [] then Err(MissingPlacement) else Ok(ExpandRows(SplitOn(parts[0], '/')))
  }

  /** fen_to_board_2d: Err when the string has no field (Python's IndexError on parts[0]). */
  function Board2D(fen: string): Result<seq<Row>, FenError> {
    BoardOfFields(Fields(fen))
  }

  /** The inner loops of fen_to_board_2d: one '/'-separated piece, character by character. */
  method RowCells(row: string) returns (outRow: Row)
    ensures outRow == ExpandRow(row)
  {
    outRow := [];
    for i := 0 to |row|
      invariant outRow == ExpandRow(row[..i])
    {
      var ch := row[i];
      if IsDigit(ch) {
        for k := 0 to DigitValue(ch)
          invariant outRow == ExpandRow(row[..i]) + Blanks(k)
        {
          outRow := outRow + [None];
        }
      } else {
        outRow := outRow + [Some(ch)];
      }
      assert row[..i + 1][..i] == row[..i];
    }
    assert row[..|row|] == row;
  }

  method FenToBoard2D(fen: string) returns (r: Result<seq<Row>, FenError>)
    ensures r == Board2D(fen)
  {
    var parts := Fields(fen);
    if |parts| == 0 {
      return Err(MissingPlacement);
    }
    var position := parts[0];
    var rows := SplitOn(position, '/');
    var board: seq<Row> := [];
    for j := 0 to |rows|
      invariant board == ExpandRows(rows[..j])
    {
      var outRow := RowCells(rows[j]);
      board := board + [outRow];
      assert rows[..j + 1][..j] == rows[..j];
    }
    assert rows[..|rows|] == rows;
    return Ok(board);
  }

  lemma {:induction false} ExpandRowAppend(a: string, b: string)
    ensures ExpandRow(a + b) == ExpandRow(a) + ExpandRow(b)
    decreases |b|
  {
    if b != [] {
      var b' := b[..|b| - 1];
      assert (a + b)[..|a + b| - 1] == a + b';
      ExpandRowAppend(a, b');
    } else {
      assert a + b == a;
    }
  }

  lemma {:induction false} SplitOnWord(s: string, sep: char)
    requires forall k :: 0 <= k < |s| ==> s[k] != sep
    ensures SplitOn(s, sep) == [s]
    decreases |s|
  {
    if s != [] {
      SplitOnWord(s[1..], sep);
      assert [s[0]] + s[1..] == s;
    }
  }

  lemma {:induction false} SplitOnSeparated(x: string, sep: char, rest: string)
    requires forall k :: 0 <= k < |x| ==> x[k] != sep
    ensures SplitOn(x + [sep] + rest, sep) == [x] + SplitOn(rest, sep)
    decreases |x|
  {
    var s := x + [sep] + rest;
    if x == [] {
      assert s[1..] == rest;
    } else {
      assert s[1..] == x[1..] + [sep] + rest;
      SplitOnSeparated(x[1..], sep, rest);
      assert [s[0]] + x[1..] == x;
    }
  }

  /** Splitting a joined list gives the list back when no part holds the separator. */
  lemma {:induction false} SplitJoin(parts: seq<string>, sep: char)
    requires |parts| >= 1
    requires forall j, k :: 0 <= j < |parts| && 0 <= k < |parts[j]| ==> parts[j][k] != sep
    ensures SplitOn(Join(parts, sep), sep) == parts
    decreases |parts|
  {
    if |parts| == 1 {
      SplitOnWord(parts[0], sep);
    } else {
      SplitOnSeparated(parts[0], sep, Join(parts[1..], sep));
      SplitJoin(parts[1..], sep);
    }
  }

  /** The display cell of square sq: None when empty, else its FEN letter. */
  function SquareCell(pieces: seq<int>, colors: seq<int>, sq: int): Option<char>
    requires |pieces| == 64 && |colors| == 64 && PrintablePieces(pieces) && 0 <= sq < 64
  {
    if pieces[sq] == PIECE_NONE then None else Some(PieceChar(pieces[sq], colors[sq]))
  }

  /** The display cells of files file..7 of a rank. */
  function RankCells(pieces: seq<int>, colors: seq<int>, rank: int, file: int): (r: Row)
    requires |pieces| == 64 && |colors| == 64 && PrintablePieces(pieces)
    requires 0 <= rank < 8 && 0 <= file <= 8
    ensures |r| == 8 - file
    decreases 8 - file
  {
    if file == 8 then [] else [SquareCell(pieces, colors, rank * 8 + file)] + RankCells(pieces, colors, rank, file + 1)
  }

  /** Cell k of r shows square rank * 8 + file + k, for the files file..7. */
  predicate ShowsFrom(r: Row, pieces: seq<int>, colors: seq<int>, rank: int, file: int)
    requires |pieces| == 64 && |colors| == 64 && PrintablePieces(pieces)
    requires 0 <= rank < 8 && 0 <= file <= 8
  {
    |r| == 8 - file && forall k :: 0 <= k < 8 - file ==> r[k] == SquareCell(pieces, colors, rank * 8 + file + k)
  }

  lemma {:induction false} RankCellsAt(pieces: seq<int>, colors: seq<int>, rank: int, file: int)
    requires |pieces| == 64 && |colors| == 64 && PrintablePieces(pieces)
    requires 0 <= rank < 8 && 0 <= file <= 8
    ensures ShowsFrom(RankCells(pieces, colors, rank, file), pieces, colors, rank, file)
    decreases 8 - file
  {
    if file < 8 {
      RankCellsAt(pieces, colors, rank, file + 1);
      var rest := RankCells(pieces, colors, rank, file + 1);
      assert RankCells(pieces, colors, rank, file) == [SquareCell(pieces, colors, rank * 8 + file)] + rest;
    }
  }

  lemma ExpandFlush(empty: int)
    requires 0 <= empty <= 8
    ensures ExpandRow(Flush(empty)) == Blanks(empty)
  {
    if empty > 0 {
      assert Flush(empty)[..0] == [];
    }
  }

  /** A single letter expands to one occupied cell. */
  lemma ExpandOneLetter(ch: char)
    requires !IsDigit(ch)
    ensures ExpandRow([ch]) == [Some(ch)]
  {
    assert [ch][..0] == [];
  }

  lemma ExpandLetter(empty: int, ch: char, rest: string)
    requires 0 <= empty <= 8 && !IsDigit(ch)
    ensures ExpandRow(Flush(empty) + [ch] + rest) == Blanks(empty) + [Some(ch)] + ExpandRow(rest)
  {
    var run := Flush(empty);
    calc {
      ExpandRow(run + [ch] + rest);
      { assert run + [ch] + rest == run + ([ch] + rest); }
      ExpandRow(run + ([ch] + rest));
      { ExpandRowAppend(run, [ch] + rest); }
      ExpandRow(run) + ExpandRow([ch] + rest);
      { ExpandFlush(empty); ExpandRowAppend([ch], rest); ExpandOneLetter(ch); }
      Blanks(empty) + ([Some(ch)] + ExpandRow(rest));
    }
  }

  /** A printed rank text expands to its eight squares' cells. */
  lemma {:induction false} ExpandRank(pieces: seq<int>, colors: seq<int>, rank: int, file: int, empty: int)
    requires |pieces| == 64 && |colors| == 64 && PrintablePieces(pieces)
    requires 0 <= rank < 8 && 0 <= empty <= file <= 8
    ensures ExpandRow(EncodeRank(pieces, colors, rank, file, empty)) == Blanks(empty) + RankCells(pieces, colors, rank, file)
    decreases 8 - file, 1
  {
    if file == 8 {
      ExpandFlush(empty);
    } else if pieces[rank * 8 + file] == PIECE_NONE {
      ExpandBlank(pieces, colors, rank, file, empty);
    } else {
      ExpandOccupied(pieces, colors, rank, file, empty);
    }
  }

  /** An empty square's cell leads the rank's cells from its file on. */
  lemma RankCellsBlank(pieces: seq<int>, colors: seq<int>, rank: int, file: int)
    requires |pieces| == 64 && |colors| == 64 && PrintablePieces(pieces)
    requires 0 <= rank < 8 && 0 <= file < 8 && pieces[rank * 8 + file] == PIECE_NONE
    ensures RankCells(pieces, colors, rank, file) == [None] + RankCells(pieces, colors, rank, file + 1)
  {
  }

  lemma BlanksRegroup(n: nat, cells: Row)
    ensures Blanks(n + 1) + cells == Blanks(n) + ([None] + cells)
  {
    assert Blanks(n + 1) == Blanks(n) + [None];
  }

  lemma {:induction false} ExpandBlank(pieces: seq<int>, colors: seq<int>, rank: int, file: int, empty: int)
    requires |pieces| == 64 && |colors| == 64 && PrintablePieces(pieces)
    requires 0 <= rank < 8 && 0 <= empty <= file < 8 && pieces[rank * 8 + file] == PIECE_NONE
    ensures ExpandRow(EncodeRank(pieces, colors, rank, file, empty)) == Blanks(empty) + RankCells(pieces, colors, rank, file)
    decreases 8 - file, 0
  {
    EncodeRankStep(pieces, colors, rank, file, empty);
    ExpandRank(pieces, colors, rank, file + 1, empty + 1);
    RankCellsBlank(pieces, colors, rank, file);
    BlanksRegroup(empty, RankCells(pieces, colors, rank, file + 1));
  }

  /** An occupied square's cell leads the rank's cells from its file on. */
  lemma RankCellsOccupied(pieces: seq<int>, colors: seq<int>, rank: int, file: int)
    requires |pieces| == 64 && |colors| == 64 && PrintablePieces(pieces)
    requires 0 <= rank < 8 && 0 <= file < 8 && pieces[rank * 8 + file] != PIECE_NONE
    ensures RankCells(pieces, colors, rank, file) ==
            [Some(PieceChar(pieces[rank * 8 + file], colors[rank * 8 + file]))] + RankCells(pieces, colors, rank, file + 1)
  {
  }

  lemma RowRegroup(blanks: Row, cell: Option<char>, cells: Row)
    ensures blanks + [cell] + (Blanks(0) + cells) == blanks + ([cell] + cells)
  {
    assert Blanks(0) + cells == cells;
  }

  lemma {:induction false} ExpandOccupied(pieces: seq<int>, colors: seq<int>, rank: int, file: int, empty: int)
    requires |pieces| == 64 && |colors| == 64 && PrintablePieces(pieces)
    requires 0 <= rank < 8 && 0 <= empty <= file < 8 && pieces[rank * 8 + file] != PIECE_NONE
    ensures ExpandRow(EncodeRank(pieces, colors, rank, file, empty)) == Blanks(empty) + RankCells(pieces, colors, rank, file)
    decreases 8 - file, 0
  {
    var sq := rank * 8 + file;
    var ch := PieceChar(pieces[sq], colors[sq]);
    var rest := EncodeRank(pieces, colors, rank, file + 1, 0);
    var cells := RankCells(pieces, colors, rank, file + 1);
    calc {
      ExpandRow(EncodeRank(pieces, colors, rank, file, empty));
      { EncodeRankStep(pieces, colors, rank, file, empty); }
      ExpandRow(Flush(empty) + [ch] + rest);
      { PieceCharIsLetter(pieces[sq], colors[sq]); ExpandLetter(empty, ch, rest); }
      Blanks(empty) + [Some(ch)] + ExpandRow(rest);
      { ExpandRank(pieces, colors, rank, file + 1, 0); }
      Blanks(empty) + [Some(ch)] + (Blanks(0) + cells);
      { RowRegroup(Blanks(empty), Some(ch), cells); }
      Blanks(empty) + ([Some(ch)] + cells);
      { RankCellsOccupied(pieces, colors, rank, file); }
      Blanks(empty) + RankCells(pieces, colors, rank, file);
    }
  }

  /** The display board of a printed FEN is the expansion of its rank texts. */
  lemma Board2DOfRanks(pieces: seq<int>, colors: seq<int>, stm: int)
    requires |pieces| == 64 && |colors| == 64 && PrintablePieces(pieces)
    ensures Board2D(FenString(pieces, colors, stm)) == Ok(ExpandRows(RanksFrom(pieces, colors, 7)))
  {
    FenStringFields(pieces, colors, stm);
    PlacementIsOneField(pieces, colors);
    var parts := RanksFrom(pieces, colors, 7);
    forall j, k | 0 <= j < |parts| && 0 <= k < |parts[j]|
      ensures parts[j][k] != '/'
    {
      assert RankChars(parts[j]);
    }
    SplitJoin(parts, '/');
  }

  /** Each rank text expands to that rank's eight cells. */
  lemma ExpandedRanks(pieces: seq<int>, colors: seq<int>)
    requires |pieces| == 64 && |colors| == 64 && PrintablePieces(pieces)
    ensures forall j :: 0 <= j < 8 ==> ExpandRows(RanksFrom(pieces, colors, 7))[j] == RankCells(pieces, colors, 7 - j, 0)
  {
    var parts := RanksFrom(pieces, colors, 7);
    forall j | 0 <= j < 8
      ensures ExpandRows(parts)[j] == RankCells(pieces, colors, 7 - j, 0)
    {
      var cells := RankCells(pieces, colors, 7 - j, 0);
      assert ExpandRows(parts)[j] == ExpandRow(parts[j]);
      assert parts[j] == EncodeRank(pieces, colors, 7 - j, 0, 0);
      ExpandRank(pieces, colors, 7 - j, 0, 0);
      assert Blanks(0) + cells == cells;
    }
  }

  /**
   * The display board of a printed FEN is the arrays' 8x8 grid, top rank first:
   * row j, column f shows square (7 - j) * 8 + f.
   */
  lemma Board2DOfPrinted(pieces: seq<int>, colors: seq<int>, stm: int)
    requires |pieces| == 64 && |colors| == 64 && PrintablePieces(pieces)
    ensures Board2D(FenString(pieces, colors, stm)).Ok?
    ensures |Board2D(FenString(pieces, colors, stm)).value| == 8
    ensures forall j :: 0 <= j < 8 ==> Board2D(FenString(pieces, colors, stm)).value[j] == RankCells(pieces, colors, 7 - j, 0)
  {
    Board2DOfRanks(pieces, colors, stm);
    ExpandedRanks(pieces, colors);
  }

  lemma StartingBoardIsPrinted()
    ensures Board2D(STARTING_FEN) == Board2D(FenString(StartPieces(), StartColors(), COLOR_WHITE))
  {
    StartingFenFields();
    StartingPlacementPrinted();
    FenStringFields(StartPieces(), StartColors(), COLOR_WHITE);
  }

  /** The square contents of the starting position that its display shows. */
  ghost predicate StartLayout(p: seq<int>, c: seq<int>) {
    && Consistent(p, c)
    && p[0] == p[7] == p[56] == p[63] == PIECE_ROOK && p[4] == p[60] == PIECE_KING
    && (forall i :: 8 <= i < 16 || 48 <= i < 56 ==> p[i] == PIECE_PAWN)
    && (forall i :: 16 <= i < 48 ==> p[i] == PIECE_NONE)
    && (forall i :: 0 <= i < 16 ==> c[i] == COLOR_WHITE)
    && (forall i :: 48 <= i < 64 ==> c[i] == COLOR_BLACK)
  }

  /** Back ranks and pawn ranks of a display grid of the starting layout. */
  lemma StartingGridPieces(p: seq<int>, c: seq<int>, b: seq<Row>)
    requires StartLayout(p, c)
    requires |b| == 8 && forall j :: 0 <= j < 8 ==> b[j] == RankCells(p, c, 7 - j, 0)
    ensures |b[0]| == |b[1]| == |b[6]| == |b[7]| == 8
    ensures b[0][0] == Some('r') && b[0][4] == Some('k')
    ensures b[7][0] == Some('R') && b[7][4] == Some('K')
    ensures forall f :: 0 <= f < 8 ==> b[1][f] == Some('p')
    ensures forall f :: 0 <= f < 8 ==> b[6][f] == Some('P')
  {
    assert b[0] == RankCells(p, c, 7, 0) && b[7] == RankCells(p, c, 0, 0);
    assert b[1] == RankCells(p, c, 6, 0) && b[6] == RankCells(p, c, 1, 0);
    RankCellsAt(p, c, 7, 0);
    RankCellsAt(p, c, 6, 0);
    RankCellsAt(p, c, 1, 0);
    RankCellsAt(p, c, 0, 0);
  }

  /** The middle four rows of a display grid of the starting layout are blank. */
  lemma StartingGridBlanks(p: seq<int>, c: seq<int>, b: seq<Row>)
    requires StartLayout(p, c)
    requires |b| == 8 && forall j :: 0 <= j < 8 ==> b[j] == RankCells(p, c, 7 - j, 0)
    ensures forall j :: 0 <= j < 8 ==> |b[j]| == 8
    ensures forall j, f :: 2 <= j < 6 && 0 <= f < 8 ==> b[j][f] == None
  {
    RankCellsAt(p, c, 5, 0);
    RankCellsAt(p, c, 4, 0);
    RankCellsAt(p, c, 3, 0);
    RankCellsAt(p, c, 2, 0);
  }

  /** The starting FEN displays as the standard grid, black's back rank on top. */
  lemma StartingBoard2D()
    ensures Board2D(STARTING_FEN).Ok?
    ensures |Board2D(STARTING_FEN).value| == 8
    ensures forall j :: 0 <= j < 8 ==> |Board2D(STARTING_FEN).value[j]| == 8
    ensures Board2D(STARTING_FEN).value[0][0] == Some('r') && Board2D(STARTING_FEN).value[0][4] == Some('k')
    ensures Board2D(STARTING_FEN).value[7][0] == Some('R') && Board2D(STARTING_FEN).value[7][4] == Some('K')
    ensures forall f :: 0 <= f < 8 ==> Board2D(STARTING_FEN).value[1][f] == Some('p')
    ensures forall f :: 0 <= f < 8 ==> Board2D(STARTING_FEN).value[6][f] == Some('P')
    ensures forall j, f :: 2 <= j < 6 && 0 <= f < 8 ==> Board2D(STARTING_FEN).value[j][f] == None
  {
    StartingBoardIsPrinted();
    StartingConsistent();
    StartingSquares();
    Board2DOfPrinted(StartPieces(), StartColors(), COLOR_WHITE);
    assert StartLayout(StartPieces(), StartColors());
    StartingGridPieces(StartPieces(), StartColors(), Board2D(STARTING_FEN).value);
    StartingGridBlanks(StartPieces(), StartColors(), Board2D(STARTING_FEN).value);
  }
}
