/** The helpers of `chess_app/utils/functions.py`: the game-state bundle sent
    to the browser, the piece lists and the static evaluator, the +1/-1/0
    planes fed to the network, and the decoder that turns the network's two
    score planes into a move. None of them changes the board. */
module Functions {
  import opened Wrappers
  import opened Text
  import opened Extended
  import opened Chess

  // ===== get_game_state ========================================================

  /** The four-character code of a move: source square then destination square. */
  function Code(m: Move): (c: string)
    ensures |c| == 4 && ',' !in c
    ensures c == Uci(m)[..4]
  {
    SquareName(m.from) + SquareName(m.to)
  }

  /** `s[:4]`. */
  function Prefix4(s: string): string
  {
    if |s| <= 4 then s else s[..4]
  }

  /** The codes of all legal moves. */
  function LegalCodes(ms: seq<Move>): set<string>
  {
    set m | m in ms :: Code(m)
  }

  /** The codes of the legal moves that promote. */
  function PromotionCodes(ms: seq<Move>): set<string>
  {
    set m | m in ms && m.promotion.Some? :: Code(m)
  }

  /** `s` lists `codes`: empty when there are none, and otherwise its
      comma-separated pieces are the codes, each exactly once. */
  ghost predicate Lists(s: string, codes: set<string>)
  {
    if codes == {} then s == ""
    else
      var parts := Split(s, ',');
      (forall x :: x in parts <==> x in codes)
      && forall i, j :: 0 <= i < j < |parts| ==> parts[i] != parts[j]
  }

  /** The loop of `get_game_state` over the UCI spellings of the legal moves:
      every move contributes its first four characters, and a five-character
      one (a promotion) contributes them to the promotions as well. */
  method CodeSets(ms: seq<Move>) returns (legal: set<string>, promotions: set<string>)
    ensures legal == LegalCodes(ms)
    ensures promotions == PromotionCodes(ms)
    ensures promotions <= legal
  {
    legal, promotions := {}, {};
    for i := 0 to |ms|
      invariant legal == set m | m in ms[..i] :: Code(m)
      invariant promotions == set m | m in ms[..i] && m.promotion.Some? :: Code(m)
    {
      var move := Uci(ms[i]);
      assert Prefix4(move) == Code(ms[i]) by {
        if |move| == 4 {
          assert move == move[..4];
        }
      }
      assert ms[..i + 1] == ms[..i] + [ms[i]];
      assert (set m | m in ms[..i + 1] :: Code(m)) == (set m | m in ms[..i] :: Code(m)) + {Code(ms[i])};
      assert (set m | m in ms[..i + 1] && m.promotion.Some? :: Code(m))
          == (set m | m in ms[..i] && m.promotion.Some? :: Code(m))
             + (if ms[i].promotion.Some? then {Code(ms[i])} else {});
      if |move| == 5 {
        promotions := promotions + {Prefix4(move)};
      }
      legal := legal + {Prefix4(move)};
    }
    assert ms[..|ms|] == ms;
  }

  /** `",".join(codes)`: the codes in the set's iteration order, which Python
      leaves unspecified (the choice below is arbitrary), separated by commas. */
  method CommaJoin(codes: set<string>) returns (s: string, ghost order: seq<string>)
    ensures s == Join(order, ',')
    ensures forall x :: x in order <==> x in codes
    ensures forall i, j :: 0 <= i < j < |order| ==> order[i] != order[j]
    ensures (forall c :: c in codes ==> ',' !in c) ==> Lists(s, codes)
  {
    var rest := codes;
    var joined := 0;
    s, order := "", [];
    while rest != {}
      invariant joined == |order|
      invariant order != [] ==> codes != {}
      invariant forall x :: x in codes <==> x in rest || x in order
      invariant forall x :: x in rest ==> x !in order
      invariant forall i, j :: 0 <= i < j < |order| ==> order[i] != order[j]
      invariant s == Join(order, ',')
      decreases rest
    {
      var x :| x in rest;
      if joined == 0 {
        s := x;
      } else {
        JoinSnoc(order, x, ',');
        s := s + [','] + x;
      }
      order := order + [x];
      joined := joined + 1;
      rest := rest - {x};
    }
    if (forall c :: c in codes ==> ',' !in c) && codes != {} {
      SplitJoin(order, ',');
    }
  }

  /** The bundle `get_game_state` returns. `currBoard` is the position
      `board.fen()` writes out. */
  datatype GameState = GameState(legalMoves: string, promotions: string, currBoard: Position,
                                 isGameOver: bool, isCheck: bool)

  /** `gs` describes a board whose history of positions is `h`: the codes of
      its legal moves and of its promotions, its position, whether the game
      is over and whether the side to move is in check. */
  ghost predicate Reports(gs: GameState, rules: Rules, h: seq<Position>)
    requires |h| > 0
  {
    Lists(gs.legalMoves, LegalCodes(rules.legalMoves(Last(h))))
    && Lists(gs.promotions, PromotionCodes(rules.legalMoves(Last(h))))
    && gs.currBoard == Last(h)
    && gs.isGameOver == GameOver(rules, h)
    && gs.isCheck == rules.isCheck(Last(h))
  }

  /** `get_game_state(board)`. */
  method GetGameState(board: Board) returns (gs: GameState)
    ensures Reports(gs, board.rules, board.History())
  {
    var ms := board.LegalMoves();
    var legal, promotions := CodeSets(ms);
    var legalText, _ := CommaJoin(legal);
    var promotionText, _ := CommaJoin(promotions);
    var over := board.IsGameOver();
    var check := board.IsCheck();
    gs := GameState(legalText, promotionText, board.Current(), over, check);
  }

  // ===== get_pieces ============================================================

  /** The square index a piece is scored at: mirrored (`63 - pos`) for white. */
  function Mirror(color: Color, sq: Square): Square
  {
    if color == White then 63 - sq else sq
  }

  /** An item of a piece list: the piece's kind (its lower-case letter) and its
      square index. */
  datatype PieceEntry = PieceEntry(kind: Kind, index: Square)

  function Entry(item: (Square, Piece)): PieceEntry
  {
    PieceEntry(item.1.kind, Mirror(item.1.color, item.0))
  }

  /** The entries of the items of `color`, in order. */
  function Listed(items: seq<(Square, Piece)>, color: Color): seq<PieceEntry>
  {
    if items == [] then []
    else (if items[0].1.color == color then [Entry(items[0])] else []) + Listed(items[1..], color)
  }

  lemma {:induction false} ListedConcat(a: seq<(Square, Piece)>, b: seq<(Square, Piece)>, color: Color)
    ensures Listed(a + b, color) == Listed(a, color) + Listed(b, color)
  {
    if a == [] {
      assert a + b == b;
    } else {
      assert (a + b)[1..] == a[1..] + b;
      ListedConcat(a[1..], b, color);
    }
  }

  /** The list `get_pieces(board, color)` returns. */
  function PiecesOf(pl: Placement, color: Color): seq<PieceEntry>
  {
    Listed(PieceMap(pl), color)
  }

  /** `get_pieces(board, color)`: one pass over the piece map filling a white
      list and a black list, then the list of `color`. */
  method GetPieces(board: Board, color: Color) returns (entries: seq<PieceEntry>)
    ensures entries == PiecesOf(board.Current().placement, color)
  {
    var items := PieceMap(board.Current().placement);
    var whitePositions: seq<PieceEntry> := [];
    var blackPositions: seq<PieceEntry> := [];
    for i := 0 to |items|
      invariant whitePositions == Listed(items[..i], White)
      invariant blackPositions == Listed(items[..i], Black)
    {
      var (pos, piece) := items[i];
      assert items[..i + 1] == items[..i] + [items[i]];
      ListedConcat(items[..i], [items[i]], White);
      ListedConcat(items[..i], [items[i]], Black);
      var pieceStr := Symbol(piece);
      if 'A' <= pieceStr <= 'Z' {
        whitePositions := whitePositions + [PieceEntry(piece.kind, 63 - pos)];
      } else {
        blackPositions := blackPositions + [PieceEntry(piece.kind, pos)];
      }
    }
    assert items[..|items|] == items;
    if color == White {
      entries := whitePositions;
    } else {
      entries := blackPositions;
    }
  }

  lemma {:induction false} ListedExact(items: seq<(Square, Piece)>, color: Color, e: PieceEntry)
    ensures e in Listed(items, color) <==>
              exists i :: 0 <= i < |items| && items[i].1.color == color && Entry(items[i]) == e
  {
    if items != [] {
      ListedExact(items[1..], color, e);
      if e in Listed(items[1..], color) {
        var i :| 0 <= i < |items[1..]| && items[1..][i].1.color == color && Entry(items[1..][i]) == e;
        assert items[i + 1] == items[1..][i];
      }
      if exists i :: 0 <= i < |items| && items[i].1.color == color && Entry(items[i]) == e {
        var i :| 0 <= i < |items| && items[i].1.color == color && Entry(items[i]) == e;
        if i > 0 {
          assert items[1..][i - 1] == items[i];
        }
      }
    }
  }

  /** A piece list holds exactly the pieces of its colour: a white piece on
      `pos` as `(kind, 63 - pos)`, a black one as `(kind, pos)`. */
  lemma PiecesOfExact(pl: Placement, color: Color, e: PieceEntry)
    ensures e in PiecesOf(pl, color) <==>
              exists sq: Square :: pl[sq] == Some(Piece(e.kind, color)) && e.index == Mirror(color, sq)
  {
    var items := PieceMap(pl);
    ListedExact(items, color, e);
    PieceMapBelowExact(pl, 64);
    if e in PiecesOf(pl, color) {
      var i :| 0 <= i < |items| && items[i].1.color == color && Entry(items[i]) == e;
      assert pl[items[i].0] == Some(items[i].1);
    }
    if exists sq: Square :: pl[sq] == Some(Piece(e.kind, color)) && e.index == Mirror(color, sq) {
      var sq: Square :| pl[sq] == Some(Piece(e.kind, color)) && e.index == Mirror(color, sq);
      assert (sq, pl[sq].value) in items;
      var i :| 0 <= i < |items| && items[i] == (sq, pl[sq].value);
      assert Entry(items[i]) == e;
    }
  }

  lemma {:induction false} ListedPartition(items: seq<(Square, Piece)>)
    ensures |Listed(items, White)| + |Listed(items, Black)| == |items|
  {
    if items != [] {
      ListedPartition(items[1..]);
    }
  }

  /** Every piece lands in exactly one of the two lists. */
  lemma PiecesPartition(pl: Placement)
    ensures |PiecesOf(pl, White)| + |PiecesOf(pl, Black)| == |PieceMap(pl)|
  {
    ListedPartition(PieceMap(pl));
  }

  // ===== calculate_score =======================================================

  /** The tables of `config`: `piece_weights` by kind and `position_weights`
      by kind and square index. */
  datatype Weights = Weights(piece: Kind -> int, square: (Kind, Square) -> int)

  /** The order the material loop visits the kinds in. */
  const PieceOrder: seq<Kind> := [Pawn, Knight, Bishop, Rook, Queen, King]

  /** Number of squares in `[lo, hi)` holding `p`. */
  function PieceCount(pl: Placement, lo: nat, hi: nat, p: Piece): nat
    requires lo <= hi <= 64
    decreases hi - lo
  {
    if lo == hi then 0 else (if pl[lo] == Some(p) then 1 else 0) + PieceCount(pl, lo + 1, hi, p)
  }

  lemma {:induction false} PieceCountSplit(pl: Placement, a: nat, b: nat, c: nat, p: Piece)
    requires a <= b <= c <= 64
    ensures PieceCount(pl, a, c, p) == PieceCount(pl, a, b, p) + PieceCount(pl, b, c, p)
    decreases b - a
  {
    if a < b {
      PieceCountSplit(pl, a + 1, b, c, p);
    }
  }

  lemma {:induction false} RankFenCount(pl: Placement, rank: nat, file: nat, empty: nat, p: Piece)
    requires rank < 8 && file <= 8 && empty <= file
    ensures Count(RankFen(pl, rank, file, empty), Symbol(p)) == PieceCount(pl, 8 * rank + file, 8 * rank + 8, p)
    decreases 8 - file
  {
    SymbolFacts(p, p);
    assert Count(EmptyRun(empty), Symbol(p)) == 0 by {
      if empty > 0 {
        assert EmptyRun(empty) == [DigitChar(empty)];
      }
    }
    if file < 8 {
      match pl[8 * rank + file]
      case None =>
        RankFenCount(pl, rank, file + 1, empty + 1, p);
      case Some(q) =>
        SymbolFacts(p, q);
        RankFenCount(pl, rank, file + 1, 0, p);
        CountConcat(EmptyRun(empty) + [Symbol(q)], RankFen(pl, rank, file + 1, 0), Symbol(p));
        CountConcat(EmptyRun(empty), [Symbol(q)], Symbol(p));
    }
  }

  /** The FEN field of one whole rank counts the squares of that rank. */
  lemma RankCount(pl: Placement, r: nat, p: Piece)
    requires r < 8
    ensures Count(RankFen(pl, r, 0, 0), Symbol(p)) == PieceCount(pl, 8 * r, 8 * r + 8, p)
  {
    RankFenCount(pl, r, 0, 0, p);
  }

  lemma {:induction false} RanksDownCount(pl: Placement, n: nat, p: Piece)
    requires n <= 8
    ensures SumCounts(RanksDown(pl, n), Symbol(p)) == PieceCount(pl, 0, 8 * n, p)
  {
    if n > 0 {
      RankCount(pl, n - 1, p);
      RanksDownCount(pl, n - 1, p);
      PieceCountSplit(pl, 0, 8 * n - 8, 8 * n, p);
    }
  }

  /** Counting a piece's letter in the placement field of FEN counts the
      squares that piece stands on: digits and slashes are not letters. */
  lemma FenCount(pl: Placement, p: Piece)
    ensures Count(BoardFen(pl), Symbol(p)) == PieceCount(pl, 0, 64, p)
  {
    SymbolFacts(p, p);
    JoinCount(RanksDown(pl, 8), '/', Symbol(p));
    RanksDownCount(pl, 8, p);
  }

  /** The material a square contributes to `color`. */
  function SquareMaterial(w: Weights, o: Option<Piece>, color: Color): int
  {
    if o.Some? && o.value.color == color then w.piece(o.value.kind) else 0
  }

  /** The material of `color` on the squares from `lo` on. */
  function MaterialFrom(w: Weights, pl: Placement, lo: nat, color: Color): int
    requires lo <= 64
    decreases 64 - lo
  {
    if lo == 64 then 0 else SquareMaterial(w, pl[lo], color) + MaterialFrom(w, pl, lo + 1, color)
  }

  /** The material of `color`: the weight of every piece of that colour, once
      per piece on the board. */
  function MaterialValue(w: Weights, pl: Placement, color: Color): int
  {
    MaterialFrom(w, pl, 0, color)
  }

  /** Piece count times weight, summed over the kinds. */
  function CountsTimesWeights(w: Weights, pl: Placement, lo: nat, color: Color): int
    requires lo <= 64
  {
    PieceCount(pl, lo, 64, Piece(Pawn, color)) * w.piece(Pawn)
    + PieceCount(pl, lo, 64, Piece(Knight, color)) * w.piece(Knight)
    + PieceCount(pl, lo, 64, Piece(Bishop, color)) * w.piece(Bishop)
    + PieceCount(pl, lo, 64, Piece(Rook, color)) * w.piece(Rook)
    + PieceCount(pl, lo, 64, Piece(Queen, color)) * w.piece(Queen)
    + PieceCount(pl, lo, 64, Piece(King, color)) * w.piece(King)
  }

  lemma PieceCountStep(pl: Placement, lo: nat, p: Piece, x: int)
    requires lo < 64
    ensures PieceCount(pl, lo, 64, p) * x == (if pl[lo] == Some(p) then x else 0) + PieceCount(pl, lo + 1, 64, p) * x
  {
  }

  /** The material of one square, spread over the kinds. */
  lemma SquareMaterialByKind(w: Weights, o: Option<Piece>, color: Color)
    ensures SquareMaterial(w, o, color)
         == (if o == Some(Piece(Pawn, color)) then w.piece(Pawn) else 0)
            + (if o == Some(Piece(Knight, color)) then w.piece(Knight) else 0)
            + (if o == Some(Piece(Bishop, color)) then w.piece(Bishop) else 0)
            + (if o == Some(Piece(Rook, color)) then w.piece(Rook) else 0)
            + (if o == Some(Piece(Queen, color)) then w.piece(Queen) else 0)
            + (if o == Some(Piece(King, color)) then w.piece(King) else 0)
  {
    if o.Some? && o.value.color == color {
      assert o == Some(Piece(o.value.kind, color));
      match o.value.kind
      case Pawn =>
      case Knight =>
      case Bishop =>
      case Rook =>
      case Queen =>
      case King =>
    }
  }

  lemma {:induction false} MaterialRegroup(w: Weights, pl: Placement, lo: nat, color: Color)
    requires lo <= 64
    ensures CountsTimesWeights(w, pl, lo, color) == MaterialFrom(w, pl, lo, color)
    decreases 64 - lo
  {
    if lo < 64 {
      MaterialRegroup(w, pl, lo + 1, color);
      SquareMaterialByKind(w, pl[lo], color);
      PieceCountStep(pl, lo, Piece(Pawn, color), w.piece(Pawn));
      PieceCountStep(pl, lo, Piece(Knight, color), w.piece(Knight));
      PieceCountStep(pl, lo, Piece(Bishop, color), w.piece(Bishop));
      PieceCountStep(pl, lo, Piece(Rook, color), w.piece(Rook));
      PieceCountStep(pl, lo, Piece(Queen, color), w.piece(Queen));
      PieceCountStep(pl, lo, Piece(King, color), w.piece(King));
    }
  }

  /** The material loop's sum over the kinds `ks`: occurrences of the kind's
      letter (upper case for white) in `fen`, times the kind's weight. */
  function FenMaterial(w: Weights, fen: string, color: Color, ks: seq<Kind>): int
  {
    if ks == [] then 0
    else FenMaterial(w, fen, color, ks[..|ks| - 1])
         + KindTerm(w, fen, color, Last(ks))
  }

  /** The term one kind adds to the material loop. */
  function KindTerm(w: Weights, fen: string, color: Color, k: Kind): int
  {
    Count(fen, Symbol(Piece(k, color))) * w.piece(k)
  }

  lemma FenMaterialKinds(w: Weights, fen: string, color: Color)
    ensures FenMaterial(w, fen, color, PieceOrder)
         == KindTerm(w, fen, color, Pawn) + KindTerm(w, fen, color, Knight)
            + KindTerm(w, fen, color, Bishop) + KindTerm(w, fen, color, Rook)
            + KindTerm(w, fen, color, Queen) + KindTerm(w, fen, color, King)
  {
    var k1: seq<Kind> := [Pawn];
    var k2 := k1 + [Knight];
    var k3 := k2 + [Bishop];
    var k4 := k3 + [Rook];
    var k5 := k4 + [Queen];
    assert k1[..0] == [] && k2[..1] == k1 && k3[..2] == k2 && k4[..3] == k3 && k5[..4] == k4;
    assert PieceOrder == k5 + [King] && PieceOrder[..5] == k5;
    assert FenMaterial(w, fen, color, k1) == KindTerm(w, fen, color, Pawn);
    assert FenMaterial(w, fen, color, k2) == FenMaterial(w, fen, color, k1) + KindTerm(w, fen, color, Knight);
    assert FenMaterial(w, fen, color, k3) == FenMaterial(w, fen, color, k2) + KindTerm(w, fen, color, Bishop);
    assert FenMaterial(w, fen, color, k4) == FenMaterial(w, fen, color, k3) + KindTerm(w, fen, color, Rook);
    assert FenMaterial(w, fen, color, k5) == FenMaterial(w, fen, color, k4) + KindTerm(w, fen, color, Queen);
  }

  /** The material loop counts every piece once: summing letter counts of the
      placement field times weights gives the per-piece material. */
  lemma FenMaterialIsMaterial(w: Weights, pl: Placement, color: Color)
    ensures FenMaterial(w, BoardFen(pl), color, PieceOrder) == MaterialValue(w, pl, color)
  {
    FenMaterialKinds(w, BoardFen(pl), color);
    FenCount(pl, Piece(Pawn, color));
    FenCount(pl, Piece(Knight, color));
    FenCount(pl, Piece(Bishop, color));
    FenCount(pl, Piece(Rook, color));
    FenCount(pl, Piece(Queen, color));
    FenCount(pl, Piece(King, color));
    MaterialRegroup(w, pl, 0, color);
  }

  /** The positional bonus a square contributes to `color`. */
  function SquareTerm(w: Weights, pl: Placement, color: Color, sq: Square): int
  {
    if pl[sq].Some? && pl[sq].value.color == color
    then w.square(pl[sq].value.kind, Mirror(color, sq)) else 0
  }

  function PositionalBelow(w: Weights, pl: Placement, color: Color, n: nat): int
    requires n <= 64
  {
    if n == 0 then 0 else PositionalBelow(w, pl, color, n - 1) + SquareTerm(w, pl, color, n - 1)
  }

  /** The positional score of `color`: the table entry of every piece of that
      colour at its (for white, mirrored) square. */
  function PositionalValue(w: Weights, pl: Placement, color: Color): int
  {
    PositionalBelow(w, pl, color, 64)
  }

  /** Sum of the table entries of a piece list. */
  function SquareWeights(w: Weights, es: seq<PieceEntry>): int
  {
    if es == [] then 0 else w.square(es[0].kind, es[0].index) + SquareWeights(w, es[1..])
  }

  lemma {:induction false} SquareWeightsConcat(w: Weights, a: seq<PieceEntry>, b: seq<PieceEntry>)
    ensures SquareWeights(w, a + b) == SquareWeights(w, a) + SquareWeights(w, b)
  {
    if a == [] {
      assert a + b == b;
    } else {
      assert (a + b)[1..] == a[1..] + b;
      SquareWeightsConcat(w, a[1..], b);
    }
  }

  lemma {:induction false} PiecesBelowScore(w: Weights, pl: Placement, color: Color, n: nat)
    requires n <= 64
    ensures SquareWeights(w, Listed(PieceMapBelow(pl, n), color)) == PositionalBelow(w, pl, color, n)
  {
    if n > 0 {
      var head := if pl[n - 1].Some? then [(n - 1, pl[n - 1].value)] else [];
      assert PieceMapBelow(pl, n) == head + PieceMapBelow(pl, n - 1);
      ListedConcat(head, PieceMapBelow(pl, n - 1), color);
      SquareWeightsConcat(w, Listed(head, color), Listed(PieceMapBelow(pl, n - 1), color));
      PiecesBelowScore(w, pl, color, n - 1);
    }
  }

  /** Summing the table over the piece list scores every piece of the colour
      at its mirrored square and nothing else. */
  lemma PiecesScore(w: Weights, pl: Placement, color: Color)
    ensures SquareWeights(w, PiecesOf(pl, color)) == PositionalValue(w, pl, color)
  {
    PiecesBelowScore(w, pl, color, 64);
  }

  /** The check term: nothing unless the scored colour is not the side to move;
      then 200 for check and a further 1500 for checkmate. */
  function CheckBonus(rules: Rules, p: Position, color: Color): (b: int)
    ensures color == p.turn ==> b == 0
    ensures b == 0 || b == 200 || b == 1700
    ensures b == 1700 <==> color != p.turn && Checkmated(rules, p)
    ensures b == 200 <==> color != p.turn && rules.isCheck(p) && !Checkmated(rules, p)
  {
    if color != p.turn
    then (if rules.isCheck(p) then 200 else 0) + (if Checkmated(rules, p) then 1500 else 0)
    else 0
  }

  /** The evaluation of `color`: material plus position plus the check term. */
  function Score(w: Weights, rules: Rules, p: Position, color: Color): int
  {
    MaterialValue(w, p.placement, color) + PositionalValue(w, p.placement, color) + CheckBonus(rules, p, color)
  }

  /** `calculate_score(board, color)`. */
  method CalculateScore(board: Board, w: Weights, color: Color) returns (score: int)
    ensures score == Score(w, board.rules, board.Current(), color)
  {
    var p := board.Current();
    var materialScore := MaterialLoop(w, BoardFen(p.placement), color);
    FenMaterialIsMaterial(w, p.placement, color);

    var boardPieces := GetPieces(board, color);
    var positionScore := PositionLoop(w, boardPieces);
    PiecesScore(w, p.placement, color);

    var checkScore := 0;
    if color != p.turn {
      var check := board.IsCheck();
      if check {
        checkScore := checkScore + 200;
      }
      var mate := board.IsCheckmate();
      if mate {
        checkScore := checkScore + 1500;
      }
    }
    score := materialScore + positionScore + checkScore;
  }

  /** The material loop of `calculate_score`: for each kind, the occurrences
      of its letter (upper case for white) in the placement field times its
      weight. */
  method MaterialLoop(w: Weights, boardFen: string, color: Color) returns (materialScore: int)
    ensures materialScore == FenMaterial(w, boardFen, color, PieceOrder)
  {
    materialScore := 0;
    for i := 0 to |PieceOrder|
      invariant materialScore == FenMaterial(w, boardFen, color, PieceOrder[..i])
    {
      var piece := KindLetter(PieceOrder[i]);
      if color == White {
        piece := Upper(piece);
      }
      assert PieceOrder[..i + 1][..i] == PieceOrder[..i];
      materialScore := materialScore + Count(boardFen, piece) * w.piece(PieceOrder[i]);
    }
    assert PieceOrder[..|PieceOrder|] == PieceOrder;
  }

  /** The positional loop of `calculate_score`: the table entry of every
      item of the piece list. */
  method PositionLoop(w: Weights, boardPieces: seq<PieceEntry>) returns (positionScore: int)
    ensures positionScore == SquareWeights(w, boardPieces)
  {
    positionScore := 0;
    for i := 0 to |boardPieces|
      invariant positionScore == SquareWeights(w, boardPieces[..i])
    {
      assert boardPieces[..i + 1] == boardPieces[..i] + [boardPieces[i]];
      SquareWeightsConcat(w, boardPieces[..i], [boardPieces[i]]);
      positionScore := positionScore + w.square(boardPieces[i].kind, boardPieces[i].index);
    }
    assert boardPieces[..|boardPieces|] == boardPieces;
  }

  // ===== get_mapping and board_repr ============================================

  /** First substitution: a character other than the piece's two letters, a
      space or a newline becomes a dot. */
  function MaskOthers(k: Kind): char -> string
  {
    c => if c == KindLetter(k) || c == Upper(KindLetter(k)) || c == ' ' || c == '\n' then [c] else ['.']
  }

  /** Second substitution: the black letter becomes `-1`. */
  function MarkBlack(k: Kind): char -> string
  {
    c => if c == KindLetter(k) then "-1" else [c]
  }

  /** Third substitution: the white letter becomes `1`. */
  function MarkWhite(k: Kind): char -> string
  {
    c => if c == Upper(KindLetter(k)) then "1" else [c]
  }

  /** Fourth substitution: a dot becomes `0`. */
  const ZeroDots: char -> string := c => if c == '.' then "0" else [c]

  /** The four substitutions of `get_mapping`, one after the other. */
  function Marked(s: string, k: Kind): string
  {
    Subst(Subst(Subst(Subst(s, MaskOthers(k)), MarkBlack(k)), MarkWhite(k)), ZeroDots)
  }

  /** The numeral a square's symbol turns into. */
  function CellText(o: Option<Piece>, k: Kind): (t: string)
    ensures ' ' !in t && '\n' !in t
  {
    if o == Some(Piece(k, White)) then "1" else if o == Some(Piece(k, Black)) then "-1" else "0"
  }

  /** Entry (`row`, `col`) of the plane of kind `k`: 1 for a white piece of that
      kind, -1 for a black one, 0 otherwise. Row 0 is the eighth rank, column 0
      the a-file. */
  function CellValue(pl: Placement, k: Kind, row: nat, col: nat): int
    requires row < 8 && col < 8
  {
    var o := pl[8 * (7 - row) + col];
    if o == Some(Piece(k, White)) then 1 else if o == Some(Piece(k, Black)) then -1 else 0
  }

  /** The 8x8 matrix `get_mapping(board, k)` returns. */
  function Mapping(pl: Placement, k: Kind): seq<seq<int>>
  {
    seq(8, row requires 0 <= row < 8 => seq(8, col requires 0 <= col < 8 => CellValue(pl, k, row, col)))
  }

  function CellTexts(pl: Placement, k: Kind, rank: nat): seq<string>
    requires rank < 8
  {
    seq(8, f requires 0 <= f < 8 => CellText(pl[8 * rank + f], k))
  }

  /** The text lines after the substitutions, eighth rank first. */
  function MarkedLines(pl: Placement, k: Kind): seq<string>
  {
    seq(8, r requires 0 <= r < 8 => Join(CellTexts(pl, k, 7 - r), ' '))
  }

  lemma MarkedSymbol(o: Option<Piece>, k: Kind)
    ensures Marked([SquareSymbol(o)], k) == CellText(o, k)
  {
    var c := SquareSymbol(o);
    SubstChar(c, MaskOthers(k));
    var one: string := "1";
    var minusOne: string := "-1";
    assert minusOne == ['-'] + ['1'];
    if o == Some(Piece(k, White)) {
      SubstChar(c, MarkBlack(k));
      SubstChar(c, MarkWhite(k));
      SubstChar('1', ZeroDots);
    } else if o == Some(Piece(k, Black)) {
      SubstChar(c, MarkBlack(k));
      SubstConcat(['-'], ['1'], MarkWhite(k));
      SubstChar('-', MarkWhite(k));
      SubstChar('1', MarkWhite(k));
      SubstConcat(['-'], ['1'], ZeroDots);
      SubstChar('-', ZeroDots);
      SubstChar('1', ZeroDots);
    } else {
      if o.Some? {
        SymbolFacts(o.value, Piece(k, White));
        SymbolFacts(o.value, Piece(k, Black));
      }
      assert MaskOthers(k)(c) == ".";
      SubstChar('.', MarkBlack(k));
      SubstChar('.', MarkWhite(k));
      SubstChar('.', ZeroDots);
    }
  }

  /** The substitutions leave spaces and newlines alone, so they act on the
      pieces of a join one by one. */
  lemma MarkedJoin(xs: seq<string>, sep: char, k: Kind)
    requires sep == ' ' || sep == '\n'
    ensures Marked(Join(xs, sep), k) == Join(seq(|xs|, i requires 0 <= i < |xs| => Marked(xs[i], k)), sep)
  {
    var ys1 := SubstEach(xs, MaskOthers(k));
    SubstJoin(xs, sep, MaskOthers(k));
    var ys2 := SubstEach(ys1, MarkBlack(k));
    SubstJoin(ys1, sep, MarkBlack(k));
    var ys3 := SubstEach(ys2, MarkWhite(k));
    SubstJoin(ys2, sep, MarkWhite(k));
    SubstJoin(ys3, sep, ZeroDots);
    assert SubstEach(ys3, ZeroDots) == seq(|xs|, i requires 0 <= i < |xs| => Marked(xs[i], k));
  }

  /** Joining pieces whose substitutions are known. */
  lemma MarkedJoinEach(xs: seq<string>, ys: seq<string>, sep: char, k: Kind)
    requires sep == ' ' || sep == '\n'
    requires |xs| == |ys| && forall i :: 0 <= i < |xs| ==> Marked(xs[i], k) == ys[i]
    ensures Marked(Join(xs, sep), k) == Join(ys, sep)
  {
    MarkedJoin(xs, sep, k);
    assert seq(|xs|, i requires 0 <= i < |xs| => Marked(xs[i], k)) == ys;
  }

  /** One rank line after the substitutions: each symbol replaced by its numeral. */
  lemma MarkedRankLine(pl: Placement, k: Kind, rank: nat)
    requires rank < 8
    ensures Marked(RankLine(pl, rank), k) == Join(CellTexts(pl, k, rank), ' ')
  {
    var cells := seq(8, f requires 0 <= f < 8 => [SquareSymbol(pl[8 * rank + f])]);
    forall f | 0 <= f < 8
      ensures Marked(cells[f], k) == CellTexts(pl, k, rank)[f]
    {
      MarkedSymbol(pl[8 * rank + f], k);
    }
    MarkedJoinEach(cells, CellTexts(pl, k, rank), ' ', k);
  }

  /** The text after the four substitutions: each symbol replaced by its numeral. */
  lemma MarkedPicture(pl: Placement, k: Kind)
    ensures Marked(Picture(pl), k) == Join(MarkedLines(pl, k), '\n')
  {
    var lines := seq(8, r requires 0 <= r < 8 => RankLine(pl, 7 - r));
    forall r | 0 <= r < 8
      ensures Marked(lines[r], k) == MarkedLines(pl, k)[r]
    {
      MarkedRankLine(pl, k, 7 - r);
    }
    MarkedJoinEach(lines, MarkedLines(pl, k), '\n', k);
  }

  /** A line of numerals holds no newline, and splitting it on spaces gives
      the numerals back. */
  lemma LineSplits(ts: seq<string>)
    requires |ts| > 0 && forall f :: 0 <= f < |ts| ==> ' ' !in ts[f] && '\n' !in ts[f]
    ensures '\n' !in Join(ts, ' ') && Split(Join(ts, ' '), ' ') == ts
  {
    NotInJoin(ts, ' ', '\n');
    SplitJoin(ts, ' ');
  }

  /** Splitting the substituted text on newlines and then on spaces recovers
      the lines and the numerals. */
  lemma SplitMarked(pl: Placement, k: Kind)
    ensures Split(Join(MarkedLines(pl, k), '\n'), '\n') == MarkedLines(pl, k)
    ensures forall r :: 0 <= r < 8 ==> Split(MarkedLines(pl, k)[r], ' ') == CellTexts(pl, k, 7 - r)
  {
    var lines := MarkedLines(pl, k);
    forall r | 0 <= r < 8
      ensures '\n' !in lines[r] && Split(lines[r], ' ') == CellTexts(pl, k, 7 - r)
    {
      var ts := CellTexts(pl, k, 7 - r);
      forall f | 0 <= f < 8
        ensures ' ' !in ts[f] && '\n' !in ts[f]
      {
        assert ts[f] == CellText(pl[8 * (7 - r) + f], k);
      }
      LineSplits(ts);
    }
    SplitJoin(lines, '\n');
  }

  lemma ParseCell(pl: Placement, k: Kind, row: nat, col: nat)
    requires row < 8 && col < 8
    ensures IsNumeral(CellTexts(pl, k, 7 - row)[col])
    ensures ParseInt(CellTexts(pl, k, 7 - row)[col]) == CellValue(pl, k, row, col)
  {
    ParseDigit(0);
    ParseDigit(1);
    var t := CellTexts(pl, k, 7 - row)[col];
    if t == "-1" {
      assert t[1..] == [DigitChar(1)];
    }
  }

  /** The numerals of line `row` of the substituted text parse to row `row` of
      the mapping. */
  lemma MarkedCells(pl: Placement, k: Kind)
    ensures |Split(Marked(Picture(pl), k), '\n')| == 8
    ensures forall row :: 0 <= row < 8 ==>
              var cells := Split(Split(Marked(Picture(pl), k), '\n')[row], ' ');
              |cells| == 8 && forall col :: 0 <= col < 8 ==>
                IsNumeral(cells[col]) && ParseInt(cells[col]) == CellValue(pl, k, row, col)
  {
    MarkedPicture(pl, k);
    SplitMarked(pl, k);
    var lines := Split(Marked(Picture(pl), k), '\n');
    assert lines == MarkedLines(pl, k);
    forall row | 0 <= row < 8
      ensures var cells := Split(lines[row], ' ');
              |cells| == 8 && forall col :: 0 <= col < 8 ==>
                IsNumeral(cells[col]) && ParseInt(cells[col]) == CellValue(pl, k, row, col)
    {
      var cells := Split(lines[row], ' ');
      assert cells == CellTexts(pl, k, 7 - row);
      forall col | 0 <= col < 8
        ensures IsNumeral(cells[col]) && ParseInt(cells[col]) == CellValue(pl, k, row, col)
      {
        ParseCell(pl, k, row, col);
      }
    }
  }

  /** `get_mapping(board, k)`: substitute on `str(board)`, split it into lines
      and numerals, and convert each numeral. */
  method GetMapping(board: Board, k: Kind) returns (matrix: seq<seq<int>>)
    ensures matrix == Mapping(board.Current().placement, k)
  {
    var pl := board.Current().placement;
    var s := Picture(pl);
    s := Subst(s, MaskOthers(k));
    s := Subst(s, MarkBlack(k));
    s := Subst(s, MarkWhite(k));
    s := Subst(s, ZeroDots);
    MarkedCells(pl, k);
    var lines := Split(s, '\n');
    matrix := [];
    for i := 0 to |lines|
      invariant |matrix| == i
      invariant forall r :: 0 <= r < i ==> matrix[r] == Mapping(pl, k)[r]
    {
      var cells := Split(lines[i], ' ');
      var row := seq(|cells|, j requires 0 <= j < |cells| => ParseInt(cells[j]));
      assert row == Mapping(pl, k)[i];
      matrix := matrix + [row];
    }
  }

  /** The signed planes agree with the piece lists: +1 exactly where
      `get_pieces(board, WHITE)` lists that kind (at the mirrored index), -1
      exactly where `get_pieces(board, BLACK)` does. */
  lemma MappingAgreesWithPieces(pl: Placement, k: Kind, row: nat, col: nat)
    requires row < 8 && col < 8
    ensures CellValue(pl, k, row, col) == 1 <==> PieceEntry(k, Mirror(White, 8 * (7 - row) + col)) in PiecesOf(pl, White)
    ensures CellValue(pl, k, row, col) == -1 <==> PieceEntry(k, 8 * (7 - row) + col) in PiecesOf(pl, Black)
  {
    var sq: Square := 8 * (7 - row) + col;
    PiecesOfExact(pl, White, PieceEntry(k, Mirror(White, sq)));
    PiecesOfExact(pl, Black, PieceEntry(k, sq));
  }

  /** The channel order of `board_repr`. */
  const PlaneOrder: seq<Kind> := [Pawn, Rook, Knight, Bishop, Queen, King]

  /** The six planes of `board_repr`, without the batch axis. */
  function Planes(pl: Placement): seq<seq<seq<int>>>
  {
    seq(6, i requires 0 <= i < 6 => Mapping(pl, PlaneOrder[i]))
  }

  /** `board_repr(board)`. */
  method BoardRepr(board: Board) returns (layers: seq<seq<seq<int>>>)
    ensures layers == Planes(board.Current().placement)
  {
    layers := [];
    for i := 0 to |PlaneOrder|
      invariant |layers| == i
      invariant forall j :: 0 <= j < i ==> layers[j] == Planes(board.Current().placement)[j]
    {
      var layer := GetMapping(board, PlaneOrder[i]);
      layers := layers + [layer];
    }
  }

  /** No square shows in two planes, and a square shows in some plane exactly
      when it is occupied. */
  lemma PlanesPartition(pl: Placement, row: nat, col: nat)
    requires row < 8 && col < 8
    ensures forall i, j :: 0 <= i < j < 6 ==> Planes(pl)[i][row][col] == 0 || Planes(pl)[j][row][col] == 0
    ensures pl[8 * (7 - row) + col].Some? <==> exists i :: 0 <= i < 6 && Planes(pl)[i][row][col] != 0
  {
    var o := pl[8 * (7 - row) + col];
    forall i | 0 <= i < 6
      ensures Planes(pl)[i][row][col] == CellValue(pl, PlaneOrder[i], row, col)
    {
    }
    if o.Some? {
      var i := match o.value.kind
        case Pawn => 0 case Rook => 1 case Knight => 2
        case Bishop => 3 case Queen => 4 case King => 5;
      assert PlaneOrder[i] == o.value.kind;
      if o.value.color == White {
        assert o == Some(Piece(o.value.kind, White));
      } else {
        assert o == Some(Piece(o.value.kind, Black));
      }
      assert Planes(pl)[i][row][col] == CellValue(pl, o.value.kind, row, col);
    }
  }

  // ===== move_gen ==============================================================

  /** The network's output after squeezing: two 8x8 score planes, indexed by
      plane, row and column (row 0 is the eighth rank); plane 0 scores source
      squares, plane 1 destination squares. */
  type Prediction = (nat, nat, nat) -> int

  /** The score of a square on a plane. */
  function SquareScore(pred: Prediction, plane: nat, sq: Square): ExtInt
  {
    Fin(pred(plane, 7 - Rank(sq), File(sq)))
  }

  /** The first loop's scores: each legal move's source square on plane 0. */
  function SourceScores(pred: Prediction, ms: seq<Move>): (xs: seq<ExtInt>)
    ensures |xs| == |ms|
  {
    seq(|ms|, i requires 0 <= i < |ms| => SquareScore(pred, 0, ms[i].from))
  }

  /** The second loop's scores: each legal move leaving `start` has its
      destination's score on plane 1; the others are skipped, which a score
      of minus infinity stands for. */
  function DestScores(pred: Prediction, src: Square, ms: seq<Move>): (xs: seq<ExtInt>)
    ensures |xs| == |ms|
  {
    seq(|ms|, i requires 0 <= i < |ms| => if ms[i].from == src then SquareScore(pred, 1, ms[i].to) else NegInf)
  }

  /** `move[:2] == start` holds exactly for the moves leaving the square
      `start` names. */
  lemma StartTest(m: Move, src: Square)
    ensures (Uci(m)[..2] == SquareName(src)) == (m.from == src)
  {
    SquareNameInjective(m.from, src);
  }

  /** The source the first loop settles on: that of the first legal move whose
      source scores highest. */
  function ChosenSource(pred: Prediction, ms: seq<Move>): Square
    requires |ms| > 0
  {
    ms[FirstBest(SourceScores(pred, ms), true)].from
  }

  /** The index of the move whose destination the second loop settles on. */
  function ChosenIndex(pred: Prediction, ms: seq<Move>): (i: nat)
    requires |ms| > 0
    ensures i < |ms|
  {
    FirstBest(DestScores(pred, ChosenSource(pred, ms), ms), true)
  }

  /** What `move_gen` returns: None where it raises (no legal moves, so that
      `from_x` is still the integer 0), and otherwise source then destination. */
  function MoveCode(pred: Prediction, ms: seq<Move>): Option<string>
  {
    if ms == [] then None
    else Some(SquareName(ChosenSource(pred, ms)) + SquareName(ms[ChosenIndex(pred, ms)].to))
  }

  /** A chosen move exists exactly when there is a legal move, and its code is
      the four-character code of a legal move leaving the chosen source. */
  lemma MoveCodeIsLegal(pred: Prediction, ms: seq<Move>)
    ensures MoveCode(pred, ms).Some? <==> ms != []
    ensures ms != [] ==> ms[ChosenIndex(pred, ms)].from == ChosenSource(pred, ms)
                         && MoveCode(pred, ms).value == Code(ms[ChosenIndex(pred, ms)])
  {
    if ms != [] {
      var src := ChosenSource(pred, ms);
      var k1 := FirstBest(SourceScores(pred, ms), true);
      var xs := DestScores(pred, src, ms);
      var k2 := ChosenIndex(pred, ms);
      assert xs[k1].Fin?;
      FirstBestIsFirstBest(xs, true);
      assert !Better(true, xs[k1], xs[k2]);
    }
  }

  /** The chosen source scores at least as high as every legal move's source,
      and strictly higher than the sources of the moves listed before it. */
  lemma ChosenSourceIsBest(pred: Prediction, ms: seq<Move>)
    requires |ms| > 0
    ensures forall i :: 0 <= i < |ms| ==>
              pred(0, 7 - Rank(ms[i].from), File(ms[i].from))
              <= pred(0, 7 - Rank(ChosenSource(pred, ms)), File(ChosenSource(pred, ms)))
    ensures forall i :: 0 <= i < FirstBest(SourceScores(pred, ms), true) ==>
              pred(0, 7 - Rank(ms[i].from), File(ms[i].from))
              < pred(0, 7 - Rank(ChosenSource(pred, ms)), File(ChosenSource(pred, ms)))
  {
    var xs := SourceScores(pred, ms);
    var k := FirstBest(xs, true);
    FirstBestIsFirstBest(xs, true);
    forall i | 0 <= i < |ms|
      ensures pred(0, 7 - Rank(ms[i].from), File(ms[i].from)) <= pred(0, 7 - Rank(ms[k].from), File(ms[k].from))
    {
      assert !Better(true, xs[i], xs[k]);
    }
    forall i | 0 <= i < k
      ensures pred(0, 7 - Rank(ms[i].from), File(ms[i].from)) < pred(0, 7 - Rank(ms[k].from), File(ms[k].from))
    {
      assert Better(true, xs[k], xs[i]);
    }
  }

  /** Among the legal moves leaving the chosen source, the chosen destination
      scores at least as high as every other, and strictly higher than every
      earlier one: ties go to the first move generated. */
  lemma ChosenDestIsBest(pred: Prediction, ms: seq<Move>)
    requires |ms| > 0
    ensures forall i :: 0 <= i < |ms| && ms[i].from == ChosenSource(pred, ms) ==>
              pred(1, 7 - Rank(ms[i].to), File(ms[i].to))
              <= pred(1, 7 - Rank(ms[ChosenIndex(pred, ms)].to), File(ms[ChosenIndex(pred, ms)].to))
    ensures forall i :: 0 <= i < ChosenIndex(pred, ms) && ms[i].from == ChosenSource(pred, ms) ==>
              pred(1, 7 - Rank(ms[i].to), File(ms[i].to))
              < pred(1, 7 - Rank(ms[ChosenIndex(pred, ms)].to), File(ms[ChosenIndex(pred, ms)].to))
  {
    MoveCodeIsLegal(pred, ms);
    var src := ChosenSource(pred, ms);
    var xs := DestScores(pred, src, ms);
    var k := ChosenIndex(pred, ms);
    FirstBestIsFirstBest(xs, true);
    forall i | 0 <= i < |ms| && ms[i].from == src
      ensures pred(1, 7 - Rank(ms[i].to), File(ms[i].to)) <= pred(1, 7 - Rank(ms[k].to), File(ms[k].to))
    {
      assert !Better(true, xs[i], xs[k]);
    }
    forall i | 0 <= i < k && ms[i].from == src
      ensures pred(1, 7 - Rank(ms[i].to), File(ms[i].to)) < pred(1, 7 - Rank(ms[k].to), File(ms[k].to))
    {
      assert Better(true, xs[k], xs[i]);
    }
  }

  /** Reading a square back from its name, as `move_gen` does with
      `8 - int(...)` and `ltr_to_num`. */
  lemma ReadSquare(sq: Square)
    ensures SquareName(sq)[0] in FileLetters && LtrToNum(SquareName(sq)[0]) == File(sq)
    ensures IsNumeral([SquareName(sq)[1]]) && ParseInt([SquareName(sq)[1]]) == Rank(sq) + 1
  {
    FileMapsInverse(File(sq));
    ParseDigit(Rank(sq) + 1);
  }

  /** The characters of a move's UCI text that `move_gen` reads back. */
  lemma ReadMove(m: Move)
    ensures Uci(m)[0] in FileLetters && LtrToNum(Uci(m)[0]) == File(m.from)
    ensures IsNumeral([Uci(m)[1]]) && ParseInt([Uci(m)[1]]) == Rank(m.from) + 1
    ensures Uci(m)[2] in FileLetters && LtrToNum(Uci(m)[2]) == File(m.to)
    ensures IsNumeral([Uci(m)[3]]) && ParseInt([Uci(m)[3]]) == Rank(m.to) + 1
  {
    var u := Uci(m);
    assert u[0] == SquareName(m.from)[0] && u[1] == SquareName(m.from)[1];
    assert u[2] == SquareName(m.to)[0] && u[3] == SquareName(m.to)[1];
    ReadSquare(m.from);
    ReadSquare(m.to);
  }

  /** The first loop of `move_gen`: the file letter and rank number of the
      best-scoring source; `None` stands for `from_x` still holding the
      integer 0, which happens only when there is no legal move. */
  method ScanSources(pred: Prediction, ms: seq<Move>) returns (fromX: Option<char>, fromY: int)
    ensures fromX.None? <==> ms == []
    ensures ms != [] ==> fromX == Some(SquareName(ChosenSource(pred, ms))[0])
                         && fromY == Rank(ChosenSource(pred, ms)) + 1
  {
    var maxScore := NegInf;
    fromX := None;
    fromY := 0;
    ghost var xs := SourceScores(pred, ms);
    for i := 0 to |ms|
      invariant maxScore == Best(xs[..i], true)
      invariant fromX.None? <==> i == 0
      invariant i > 0 ==> fromX == Some(NumToLtr(File(ms[FirstBest(xs[..i], true)].from)))
                          && fromY == Rank(ms[FirstBest(xs[..i], true)].from) + 1
    {
      var move := Uci(ms[i]);
      ReadMove(ms[i]);
      var row := 8 - ParseInt([move[1]]);
      var col := LtrToNum(move[0]);
      var curScore := Fin(pred(0, row, col));
      assert curScore == xs[i];
      assert xs[..i + 1] == xs[..i] + [curScore];
      BestSnoc(xs[..i], curScore, true);
      if Less(maxScore, curScore) {
        maxScore := curScore;
        fromX := Some(NumToLtr(col));
        fromY := 8 - row;
      }
    }
    assert xs[..|ms|] == xs;
  }

  /** The second loop of `move_gen`: the file letter and rank number of the
      best-scoring destination among the moves leaving `start`; `None` when no
      move leaves it. */
  method ScanDestinations(pred: Prediction, ms: seq<Move>, start: string, ghost src: Square)
      returns (toX: Option<char>, toY: int)
    requires start == SquareName(src)
    ensures toX.None? <==> Best(DestScores(pred, src, ms), true) == NegInf
    ensures toX.Some? ==> ms != []
                          && toX == Some(NumToLtr(File(ms[FirstBest(DestScores(pred, src, ms), true)].to)))
                          && toY == Rank(ms[FirstBest(DestScores(pred, src, ms), true)].to) + 1
  {
    var maxScore := NegInf;
    toX := None;
    toY := 0;
    ghost var ys := DestScores(pred, src, ms);
    ghost var best: nat := 0;
    for i := 0 to |ms|
      invariant maxScore == Best(ys[..i], true)
      invariant toX.None? <==> maxScore == NegInf
      invariant toX.Some? ==> 0 < i && best == FirstBest(ys[..i], true) < |ms|
      invariant toX.Some? ==> toX == Some(NumToLtr(File(ms[best].to))) && toY == Rank(ms[best].to) + 1
    {
      var move := Uci(ms[i]);
      ScanStep(ys, i, true);
      StartTest(ms[i], src);
      if move[..2] == start {
        ReadMove(ms[i]);
        var row := 8 - ParseInt([move[3]]);
        var col := LtrToNum(move[2]);
        var curScore := Fin(pred(1, row, col));
        assert curScore == ys[i];
        if Less(maxScore, curScore) {
          maxScore := curScore;
          toX := Some(NumToLtr(col));
          toY := 8 - row;
          best := i;
        }
      } else {
        assert ys[i] == NegInf;
      }
    }
    assert ys[..|ms|] == ys;
  }

  /** `move_gen(pred, board)`. */
  method MoveGen(pred: Prediction, board: Board) returns (r: Option<string>)
    ensures r == MoveCode(pred, board.rules.legalMoves(board.Current()))
  {
    var ms := board.LegalMoves();
    var fromX, fromY := ScanSources(pred, ms);
    if fromX.None? {
      return None;
    }
    var start := [fromX.value] + [DigitChar(fromY)];
    assert start == SquareName(ChosenSource(pred, ms));
    var toX, toY := ScanDestinations(pred, ms, start, ChosenSource(pred, ms));
    ghost var ys := DestScores(pred, ChosenSource(pred, ms), ms);
    ghost var k1 := FirstBest(SourceScores(pred, ms), true);
    assert ys[k1].Fin?;
    BestIsBest(ys, true);
    assert Best(ys, true) != NegInf;
    var end := [toX.value] + [DigitChar(toY)];
    assert end == SquareName(ms[ChosenIndex(pred, ms)].to);
    r := Some(start + end);
  }
}
