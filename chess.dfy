/** The part of the chess-rules library the move-selection code relies on: a
    position with sixty-four squares (a1 = 0, b1 = 1, ..., h8 = 63), moves and
    their UCI spelling, the piece-placement field of FEN, the board's text
    picture, the piece map, and a board object holding a move stack. Legal-move
    generation, the effect of a move, check detection and the draw rules stay
    uninterpreted: they are the fields of a `Rules` value. */
module Chess {
  import opened Wrappers
  import opened Text

  datatype Color = White | Black

  datatype Kind = Pawn | Knight | Bishop | Rook | Queen | King

  datatype Piece = Piece(kind: Kind, color: Color)

  type Square = i: int | 0 <= i < 64

  /** Contents of the sixty-four squares, indexed by square. */
  type Placement = s: seq<Option<Piece>> | |s| == 64 witness seq(64, _ => None)

  datatype Castling = Castling(whiteKingside: bool, whiteQueenside: bool,
                               blackKingside: bool, blackQueenside: bool)

  /** Everything a FEN record holds. */
  datatype Position = Position(placement: Placement, turn: Color, castling: Castling,
                               epSquare: Option<Square>, halfmoveClock: nat, fullmoveNumber: nat)

  datatype Move = Move(from: Square, to: Square, promotion: Option<Kind>)

  function File(sq: Square): nat { sq % 8 }

  function Rank(sq: Square): nat { sq / 8 }

  // ----- letters -------------------------------------------------------------

  /** The lower-case letter of a piece kind. */
  function KindLetter(k: Kind): char
  {
    match k
    case Pawn => 'p'
    case Knight => 'n'
    case Bishop => 'b'
    case Rook => 'r'
    case Queen => 'q'
    case King => 'k'
  }

  function KindOfLetter(c: char): (k: Option<Kind>)
    ensures k.Some? ==> KindLetter(k.value) == c
    ensures forall kind :: KindLetter(kind) == c ==> k == Some(kind)
  {
    match c
    case 'p' => Some(Pawn)
    case 'n' => Some(Knight)
    case 'b' => Some(Bishop)
    case 'r' => Some(Rook)
    case 'q' => Some(Queen)
    case 'k' => Some(King)
    case _ => None
  }

  /** `str.upper` on a lower-case letter. */
  function Upper(c: char): char
    requires 'a' <= c <= 'z'
  {
    (c as int - 32) as char
  }

  /** The piece's letter: upper case for white, lower case for black. */
  function Symbol(p: Piece): char
  {
    if p.color == White then Upper(KindLetter(p.kind)) else KindLetter(p.kind)
  }

  predicate IsLetter(c: char)
  {
    'a' <= c <= 'z' || 'A' <= c <= 'Z'
  }

  lemma SymbolFacts(p: Piece, q: Piece)
    ensures IsLetter(Symbol(p))
    ensures Symbol(p) == Symbol(q) ==> p == q
  {
  }

  // ----- squares and UCI -----------------------------------------------------

  const FileLetters: string := "abcdefgh"

  /** `num_to_ltr`: file number to file letter. */
  function NumToLtr(n: nat): char
    requires n < 8
  {
    FileLetters[n]
  }

  /** `ltr_to_num`: file letter to file number. */
  function LtrToNum(c: char): (n: nat)
    requires c in FileLetters
    ensures n < 8 && NumToLtr(n) == c
  {
    c as int - 'a' as int
  }

  lemma FileMapsInverse(n: nat)
    requires n < 8
    ensures NumToLtr(n) in FileLetters && LtrToNum(NumToLtr(n)) == n
  {
  }

  /** The square's name, file letter then rank digit (`e4`). */
  function SquareName(sq: Square): string
  {
    [NumToLtr(File(sq)), DigitChar(Rank(sq) + 1)]
  }

  /** `SQUARE_NAMES.index(s)`, or None where that raises. */
  function ParseSquare(s: string): Option<Square>
  {
    if |s| == 2 && s[0] in FileLetters && '1' <= s[1] <= '8'
    then Some(8 * (DigitValue(s[1]) - 1) + LtrToNum(s[0]))
    else None
  }

  lemma {:induction false} SquareNameRoundTrip(sq: Square)
    ensures ParseSquare(SquareName(sq)) == Some(sq)
  {
    FileMapsInverse(File(sq));
  }

  lemma SquareNameInjective(a: Square, b: Square)
    ensures SquareName(a) == SquareName(b) <==> a == b
  {
    if SquareName(a) == SquareName(b) {
      SquareNameRoundTrip(a);
      SquareNameRoundTrip(b);
    }
  }

  /** `str(move)`: the UCI spelling, squares then the promotion letter if any. */
  function Uci(m: Move): (s: string)
    ensures |s| == if m.promotion.Some? then 5 else 4
    ensures s[..2] == SquareName(m.from) && s[2..4] == SquareName(m.to)
    ensures s[..4] == SquareName(m.from) + SquareName(m.to)
  {
    SquareName(m.from) + SquareName(m.to)
      + (if m.promotion.Some? then [KindLetter(m.promotion.value)] else "")
  }

  /** `Move.from_uci` on the square-to-square form: None where it raises
      (wrong length, unknown square, unknown promotion letter, equal squares). */
  function ParseUci(s: string): Option<Move>
  {
    if |s| != 4 && |s| != 5 then None
    else
      var from := ParseSquare(s[..2]);
      var to := ParseSquare(s[2..4]);
      var promotion := if |s| == 5 then KindOfLetter(s[4]) else None;
      if from.None? || to.None? || (|s| == 5 && promotion.None?) || from == to then None
      else Some(Move(from.value, to.value, promotion))
  }

  lemma {:induction false} UciRoundTrip(m: Move)
    requires m.from != m.to
    ensures ParseUci(Uci(m)) == Some(m)
  {
    var s := Uci(m);
    SquareNameRoundTrip(m.from);
    SquareNameRoundTrip(m.to);
    if m.promotion.Some? {
      assert s[4] == KindLetter(m.promotion.value);
    }
  }

  // ----- the piece-placement field of FEN --------------------------------------

  /** `str(n)` for a run of 0 to 8 empty squares (nothing for 0). */
  function EmptyRun(n: nat): string
    requires n <= 8
  {
    if n == 0 then "" else [DigitChar(n)]
  }

  /** One rank of the placement field from `file` on, `empty` empty squares
      being still unwritten: upper-case letters for white, lower case for black,
      a digit for each run of empty squares. */
  function RankFen(pl: Placement, rank: nat, file: nat, empty: nat): string
    requires rank < 8 && file <= 8 && empty <= file
    decreases 8 - file
  {
    if file == 8 then EmptyRun(empty)
    else match pl[8 * rank + file]
      case None => RankFen(pl, rank, file + 1, empty + 1)
      case Some(p) => EmptyRun(empty) + [Symbol(p)] + RankFen(pl, rank, file + 1, 0)
  }

  /** The fields of ranks n-1 down to 0. */
  function RanksDown(pl: Placement, n: nat): (ranks: seq<string>)
    requires n <= 8
    ensures |ranks| == n
  {
    if n == 0 then [] else [RankFen(pl, n - 1, 0, 0)] + RanksDown(pl, n - 1)
  }

  /** `board.board_fen()`: rank 8 first, ranks separated by `/`. */
  function BoardFen(pl: Placement): string
  {
    Join(RanksDown(pl, 8), '/')
  }

  // ----- the text picture -------------------------------------------------------

  /** The character a square shows in the picture: the piece's letter or `.`. */
  function SquareSymbol(o: Option<Piece>): char
  {
    if o.Some? then Symbol(o.value) else '.'
  }

  /** One rank of the picture: eight one-character cells separated by spaces. */
  function RankLine(pl: Placement, rank: nat): string
    requires rank < 8
  {
    Join(seq(8, f requires 0 <= f < 8 => [SquareSymbol(pl[8 * rank + f])]), ' ')
  }

  /** `str(board)`: rank 8 first, one line per rank. */
  function Picture(pl: Placement): string
  {
    Join(seq(8, r requires 0 <= r < 8 => RankLine(pl, 7 - r)), '\n')
  }

  // ----- the piece map ----------------------------------------------------------

  /** The occupied squares below `n` with their pieces, highest square first. */
  function PieceMapBelow(pl: Placement, n: nat): seq<(Square, Piece)>
    requires n <= 64
  {
    if n == 0 then []
    else (if pl[n - 1].Some? then [(n - 1, pl[n - 1].value)] else []) + PieceMapBelow(pl, n - 1)
  }

  /** `board.piece_map()` as the sequence of its items, in the order
      python-chess fills it (highest square first). */
  function PieceMap(pl: Placement): seq<(Square, Piece)>
  {
    PieceMapBelow(pl, 64)
  }

  lemma {:induction false} PieceMapBelowExact(pl: Placement, n: nat)
    requires n <= 64
    ensures forall i :: 0 <= i < |PieceMapBelow(pl, n)| ==>
              PieceMapBelow(pl, n)[i].0 < n && pl[PieceMapBelow(pl, n)[i].0] == Some(PieceMapBelow(pl, n)[i].1)
    ensures forall sq: Square :: sq < n && pl[sq].Some? ==> (sq, pl[sq].value) in PieceMapBelow(pl, n)
  {
    if n > 0 {
      PieceMapBelowExact(pl, n - 1);
    }
  }

  // ----- rules ------------------------------------------------------------------

  /** The rules the library implements, left uninterpreted: the legal moves in
      generation order, the position a move leads to, whether the side to move
      is in check, and the draws python-chess's `is_game_over` recognises from
      the position alone (insufficient material, the seventy-five-move rule). */
  datatype Rules = Rules(legalMoves: Position -> seq<Move>,
                         play: (Position, Move) -> Position,
                         isCheck: Position -> bool,
                         drawnByRule: Position -> bool)

  /** `is_checkmate`: in check with no legal move. */
  predicate Checkmated(rules: Rules, p: Position)
  {
    rules.isCheck(p) && rules.legalMoves(p) == []
  }

  /** Number of times `p` occurs in a history of positions. */
  /** Two positions repeat each other when they agree on the pieces, the side
      to move, the castling rights and the en-passant square; the move
      clocks do not count. */
  predicate SameKey(p: Position, q: Position)
  {
    p.placement == q.placement && p.turn == q.turn && p.castling == q.castling && p.epSquare == q.epSquare
  }

  /** How many positions of `h` repeat `p`. */
  function Occurrences(h: seq<Position>, p: Position): nat
  {
    if h == [] then 0 else (if SameKey(h[0], p) then 1 else 0) + Occurrences(h[1..], p)
  }

  function Last<T>(s: seq<T>): T
    requires |s| > 0
  {
    s[|s| - 1]
  }

  /** `is_game_over` on a board whose history of positions is `h`: checkmate
      or stalemate (no legal move), a draw by rule, or the current position
      occurring for the fifth time. */
  predicate GameOver(rules: Rules, h: seq<Position>)
    requires |h| > 0
  {
    rules.legalMoves(Last(h)) == [] || rules.drawnByRule(Last(h)) || Occurrences(h, Last(h)) >= 5
  }

  /** The positions a board passes through from `root` by playing `moves`. */
  function Replay(rules: Rules, root: Position, moves: seq<Move>): (h: seq<Position>)
    ensures |h| == |moves| + 1 && h[0] == root
  {
    if moves == [] then [root]
    else
      var prev := Replay(rules, root, moves[..|moves| - 1]);
      prev + [rules.play(Last(prev), Last(moves))]
  }

  datatype UciError = InvalidUci | IllegalMove

  /** A python-chess board: the position it was set up from and the stack of
      moves pushed since. `pop` takes the last move off the stack, so the
      position after a push and a pop is the position before them. */
  class Board {
    const rules: Rules
    const root: Position
    var moveStack: seq<Move>

    /** The positions from the set-up position to the current one. */
    function History(): (h: seq<Position>)
      reads this
      ensures |h| == |moveStack| + 1
    {
      Replay(rules, root, moveStack)
    }

    function Current(): Position
      reads this
    {
      Last(History())
    }

    /** `chess.Board(fen)`: a board set up at `position`, with an empty move stack. */
    constructor (rules: Rules, position: Position)
      ensures this.rules == rules && root == position && moveStack == []
      ensures History() == [position]
    {
      this.rules := rules;
      root := position;
      moveStack := [];
    }

    /** `board.push(move)`. */
    method Push(m: Move)
      modifies this
      ensures moveStack == old(moveStack) + [m]
      ensures History() == old(History()) + [rules.play(old(Current()), m)]
    {
      moveStack := moveStack + [m];
      assert moveStack[..|moveStack| - 1] == old(moveStack);
    }

    /** `board.pop()`: removes and returns the last move pushed. */
    method Pop() returns (m: Move)
      requires moveStack != []
      modifies this
      ensures m == Last(old(moveStack))
      ensures moveStack == old(moveStack)[..|old(moveStack)| - 1]
      ensures History() == old(History())[..|old(History())| - 1]
    {
      m := Last(moveStack);
      moveStack := moveStack[..|moveStack| - 1];
    }

    /** `list(board.legal_moves)`, in generation order. */
    method LegalMoves() returns (ms: seq<Move>)
      ensures ms == rules.legalMoves(Current())
    {
      ms := rules.legalMoves(Current());
    }

    method IsCheck() returns (b: bool)
      ensures b == rules.isCheck(Current())
    {
      b := rules.isCheck(Current());
    }

    method IsCheckmate() returns (b: bool)
      ensures b == Checkmated(rules, Current())
    {
      b := Checkmated(rules, Current());
    }

    method IsGameOver() returns (b: bool)
      ensures b == GameOver(rules, History())
    {
      b := GameOver(rules, History());
    }

    /** `board.push_uci(uci)`: parses the move, refuses it unless it is legal,
        and pushes it. */
    method PushUci(uci: string) returns (r: Result<Move, UciError>)
      modifies this
      ensures ParseUci(uci).None? ==> r == Failure(InvalidUci) && moveStack == old(moveStack)
      ensures ParseUci(uci).Some? && ParseUci(uci).value !in rules.legalMoves(old(Current())) ==>
                r == Failure(IllegalMove) && moveStack == old(moveStack)
      ensures ParseUci(uci).Some? && ParseUci(uci).value in rules.legalMoves(old(Current())) ==>
                r == Success(ParseUci(uci).value) && moveStack == old(moveStack) + [r.value]
    {
      var parsed := ParseUci(uci);
      if parsed.None? {
        return Failure(InvalidUci);
      }
      var ms := LegalMoves();
      if parsed.value !in ms {
        return Failure(IllegalMove);
      }
      Push(parsed.value);
      r := Success(parsed.value);
    }
  }
}
