/** `chess_app/utils/inference.py`: the network-backed predictor. It first
    probes every legal move for a mate in one, and otherwise feeds the six
    planes of `board_repr` to the network and lets `move_gen` spell a move out
    of the two score planes it returns. The network is a parameter. */
module Inference {
  import opened Wrappers
  import opened Chess
  import opened Functions

  /** The inference session: from the six signed planes to the two score
      planes (the batch axis already squeezed away). */
  type Network = seq<seq<seq<int>>> -> Prediction

  /** Why `predict` raises: `move_gen` finds no legal move (and fails on
      `from_x + str(from_y)`), or `push_uci` refuses the move it spelled. */
  datatype PredictError = NoLegalMove | Rejected(UciError)

  /** Playing `m` from `p` checkmates the opponent. */
  predicate Mates(rules: Rules, p: Position, m: Move)
  {
    Checkmated(rules, rules.play(p, m))
  }

  /** The first move of `ms`, in order, that mates. */
  function FirstMate(rules: Rules, p: Position, ms: seq<Move>): Option<Move>
  {
    if ms == [] then None
    else if Mates(rules, p, ms[0]) then Some(ms[0])
    else FirstMate(rules, p, ms[1..])
  }

  /** Skipping moves that do not mate does not change the first mate. */
  lemma {:induction false} FirstMateAfter(rules: Rules, p: Position, ms: seq<Move>, i: nat)
    requires i <= |ms|
    requires forall j :: 0 <= j < i ==> !Mates(rules, p, ms[j])
    ensures FirstMate(rules, p, ms) == FirstMate(rules, p, ms[i..])
  {
    if i > 0 {
      assert ms[1..][i - 1..] == ms[i..];
      FirstMateAfter(rules, p, ms[1..], i - 1);
    } else {
      assert ms[0..] == ms;
    }
  }

  /** The scan finds the first mating move in generation order, and finds
      nothing exactly when no legal move mates. */
  lemma FirstMateIsFirst(rules: Rules, p: Position, ms: seq<Move>)
    ensures FirstMate(rules, p, ms).None? <==> forall m :: m in ms ==> !Mates(rules, p, m)
    ensures forall i :: 0 <= i < |ms| && Mates(rules, p, ms[i]) && (forall j :: 0 <= j < i ==> !Mates(rules, p, ms[j]))
              ==> FirstMate(rules, p, ms) == Some(ms[i])
  {
    forall i | 0 <= i < |ms| && Mates(rules, p, ms[i]) && (forall j :: 0 <= j < i ==> !Mates(rules, p, ms[j]))
      ensures FirstMate(rules, p, ms) == Some(ms[i])
    {
      FirstMateAfter(rules, p, ms, i);
    }
    if forall m :: m in ms ==> !Mates(rules, p, m) {
      FirstMateAfter(rules, p, ms, |ms|);
    } else {
      var i :| 0 <= i < |ms| && Mates(rules, p, ms[i]);
      FirstMin(rules, p, ms, i);
    }
  }

  /** If some move mates, there is a first one. */
  lemma {:induction false} FirstMin(rules: Rules, p: Position, ms: seq<Move>, i: nat)
    requires i < |ms| && Mates(rules, p, ms[i])
    ensures FirstMate(rules, p, ms).Some?
    decreases i
  {
    if exists j :: 0 <= j < i && Mates(rules, p, ms[j]) {
      var j :| 0 <= j < i && Mates(rules, p, ms[j]);
      FirstMin(rules, p, ms, j);
    } else {
      FirstMateAfter(rules, p, ms, i);
    }
  }

  /** What `board.push_uci(uci)` followed by `board.pop()` returns when the
      legal moves are `ms`: the parsed move if it is legal, the error otherwise. */
  function PushUciPop(uci: string, ms: seq<Move>): Result<Move, UciError>
  {
    match ParseUci(uci)
    case None => Failure(InvalidUci)
    case Some(m) => if m in ms then Success(m) else Failure(IllegalMove)
  }

  /** The fallback: the move spelled by `move_gen`, played and taken back. */
  function Fallback(code: Option<string>, ms: seq<Move>): Result<Move, PredictError>
  {
    match code
    case None => Failure(NoLegalMove)
    case Some(c) =>
      match PushUciPop(c, ms)
      case Failure(e) => Failure(Rejected(e))
      case Success(m) => Success(m)
  }

  /** The code `move_gen` spells from the network's output on `p`. */
  function NetworkCode(net: Network, rules: Rules, p: Position): Option<string>
  {
    MoveCode(net(Planes(p.placement)), rules.legalMoves(p))
  }

  /** What `predict(board)` returns on a board standing at `p`. */
  function Decision(net: Network, rules: Rules, p: Position): Result<Move, PredictError>
  {
    match FirstMate(rules, p, rules.legalMoves(p))
    case Some(m) => Success(m)
    case None => Fallback(NetworkCode(net, rules, p), rules.legalMoves(p))
  }

  /** The probing loop of `predict`: push each legal move, test for
      checkmate, pop it again; the first mating move is returned. */
  method MateScan(board: Board) returns (found: Option<Move>)
    modifies board
    ensures board.moveStack == old(board.moveStack)
    ensures found == FirstMate(board.rules, board.Current(), board.rules.legalMoves(board.Current()))
  {
    ghost var p := board.Current();
    var ms := board.LegalMoves();
    for i := 0 to |ms|
      invariant board.moveStack == old(board.moveStack)
      invariant forall j :: 0 <= j < i ==> !Mates(board.rules, p, ms[j])
    {
      board.Push(ms[i]);
      var mate := board.IsCheckmate();
      if mate {
        var m := board.Pop();
        FirstMateAfter(board.rules, p, ms, i);
        return Some(m);
      }
      var _ := board.Pop();
    }
    FirstMateAfter(board.rules, p, ms, |ms|);
    found := None;
  }

  /** The network part of `predict`: `board_repr`, the session run, and
      `move_gen` on the squeezed output. */
  method NetworkMove(board: Board, net: Network) returns (code: Option<string>)
    ensures code == NetworkCode(net, board.rules, board.Current())
  {
    var inputs := BoardRepr(board);
    var pred := net(inputs);
    code := MoveGen(pred, board);
  }

  /** `predict(board)`: the first mating move if there is one, and otherwise
      the network's move, checked by `push_uci` and taken back by `pop`. The
      board ends as it started. */
  method Predict(board: Board, net: Network) returns (r: Result<Move, PredictError>)
    modifies board
    ensures board.moveStack == old(board.moveStack)
    ensures r == Decision(net, board.rules, board.Current())
  {
    var found := MateScan(board);
    if found.Some? {
      return Success(found.value);
    }
    var code := NetworkMove(board, net);
    if code.None? {
      return Failure(NoLegalMove);
    }
    var pushed := board.PushUci(code.value);
    if pushed.Failure? {
      return Failure(Rejected(pushed.error));
    }
    var m := board.Pop();
    r := Success(m);
  }

  /** A four-character code parses to a move without promotion. */
  lemma ParseCode(c: string)
    requires |c| == 4
    ensures ParseUci(c).Some? ==> ParseUci(c).value.promotion.None?
  {
  }

  /** Whatever `predict` returns is a legal move, and a move that does not
      mate never carries a promotion piece: `move_gen` spells four characters. */
  lemma DecisionIsLegal(net: Network, rules: Rules, p: Position)
    ensures Decision(net, rules, p).Success? ==> Decision(net, rules, p).value in rules.legalMoves(p)
    ensures Decision(net, rules, p).Success? && FirstMate(rules, p, rules.legalMoves(p)).None? ==>
              Decision(net, rules, p).value.promotion.None?
  {
    var ms := rules.legalMoves(p);
    FirstMateFound(rules, p, ms);
    var code := NetworkCode(net, rules, p);
    if FirstMate(rules, p, ms).None? && code.Some? {
      ParseCode(code.value);
    }
  }

  /** A move the scan finds is a legal mating move. */
  lemma {:induction false} FirstMateFound(rules: Rules, p: Position, ms: seq<Move>)
    ensures FirstMate(rules, p, ms).Some? ==>
              FirstMate(rules, p, ms).value in ms && Mates(rules, p, FirstMate(rules, p, ms).value)
  {
    if ms != [] && !Mates(rules, p, ms[0]) {
      FirstMateFound(rules, p, ms[1..]);
    }
  }

  /** Without a mate in one, the result is the move `move_gen` picked when
      that move promotes nothing: the move of the first best source and,
      among the moves leaving it, the first best destination. */
  lemma DecisionFollowsNetwork(net: Network, rules: Rules, p: Position)
    requires FirstMate(rules, p, rules.legalMoves(p)).None?
    requires rules.legalMoves(p) != []
    requires var ms := rules.legalMoves(p);
             var k := ChosenIndex(net(Planes(p.placement)), ms);
             ms[k].from != ms[k].to && ms[k].promotion.None?
    ensures var ms := rules.legalMoves(p);
            Decision(net, rules, p) == Success(ms[ChosenIndex(net(Planes(p.placement)), ms)])
  {
    var ms := rules.legalMoves(p);
    var pred := net(Planes(p.placement));
    var m := ms[ChosenIndex(pred, ms)];
    MoveCodeIsLegal(pred, ms);
    UciRoundTrip(m);
    assert Uci(m) == Code(m);
  }

  /** The move `move_gen` picks is a promotion whose plain four-character
      form is not legal: `push_uci` raises on it. */
  lemma PromotionRejected(net: Network, rules: Rules, p: Position)
    requires FirstMate(rules, p, rules.legalMoves(p)).None?
    requires rules.legalMoves(p) != []
    requires var ms := rules.legalMoves(p);
             var k := ChosenIndex(net(Planes(p.placement)), ms);
             ms[k].from != ms[k].to && Move(ms[k].from, ms[k].to, None) !in ms
    ensures Decision(net, rules, p) == Failure(Rejected(IllegalMove))
  {
    var ms := rules.legalMoves(p);
    var pred := net(Planes(p.placement));
    var m := ms[ChosenIndex(pred, ms)];
    var plain := Move(m.from, m.to, None);
    MoveCodeIsLegal(pred, ms);
    UciRoundTrip(plain);
    assert Uci(plain) == Code(m);
  }

  // ----- a pawn about to promote -----------------------------------------------

  /** A position whose only legal moves are the four promotions e7-e8 and
      which nothing checks. */
  const PromotingMoves: seq<Move> :=
    [Move(52, 60, Some(Queen)), Move(52, 60, Some(Rook)), Move(52, 60, Some(Bishop)), Move(52, 60, Some(Knight))]

  const PromotingRules: Rules :=
    Rules(_ => PromotingMoves, (p, _) => p, _ => false, _ => false)

  const EmptyPosition: Position :=
    Position(seq(64, _ => None), White, Castling(false, false, false, false), None, 0, 1)

  /** A network scoring every square 0. */
  const FlatNetwork: Network := _ => (_, _, _) => 0

  /** With a promotion to play, `predict` raises instead of returning a move. */
  lemma PromotionCounterexample()
    ensures PromotingRules.legalMoves(EmptyPosition) != []
    ensures Decision(FlatNetwork, PromotingRules, EmptyPosition) == Failure(Rejected(IllegalMove))
  {
    var rules, p := PromotingRules, EmptyPosition;
    var ms := rules.legalMoves(p);
    assert forall m :: m in ms ==> !Mates(rules, p, m);
    FirstMateIsFirst(rules, p, ms);
    var k := ChosenIndex(FlatNetwork(Planes(p.placement)), ms);
    assert ms[k].from == 52 && ms[k].to == 60;
    assert Move(52, 60, None) !in ms;
    PromotionRejected(FlatNetwork, rules, p);
  }

  // ----- promotion-aware variant -------------------------------------------------

  /** What the chess library guarantees of a legal-move list and the
      promotion handling below relies on: no move stays on its square, and a
      pawn that may promote may promote to a queen. */
  predicate WellFormedMoves(ms: seq<Move>)
  {
    (forall m :: m in ms ==> m.from != m.to)
    && forall m :: m in ms && m.promotion.Some? ==> Move(m.from, m.to, Some(Queen)) in ms
  }

  /** The decoded code, with the queen suffix appended when it names one of
      the position's promotions. */
  function Queening(code: string, ms: seq<Move>): string
  {
    if code in PromotionCodes(ms) then code + "q" else code
  }

  /** `predict` with the queen suffix: what it returns on a board standing at `p`. */
  function QueeningDecision(net: Network, rules: Rules, p: Position): Result<Move, PredictError>
  {
    var ms := rules.legalMoves(p);
    match FirstMate(rules, p, ms)
    case Some(m) => Success(m)
    case None =>
      var code := NetworkCode(net, rules, p);
      Fallback(if code.Some? then Some(Queening(code.value, ms)) else None, ms)
  }

  /** Appending `q` to a move's code spells its queen promotion. */
  lemma QueenCode(m: Move)
    requires m.from != m.to
    ensures ParseUci(Code(m) + "q") == Some(Move(m.from, m.to, Some(Queen)))
  {
    var queen := Move(m.from, m.to, Some(Queen));
    UciRoundTrip(queen);
    assert Uci(queen) == Code(m) + "q";
  }

  /** With the suffix, `predict` never raises on a position with a legal
      move: it returns a legal move, the mating one if any, and otherwise the
      squares `move_gen` picked, promoting to a queen when they promote. */
  lemma QueeningSucceeds(net: Network, rules: Rules, p: Position)
    requires rules.legalMoves(p) != [] && WellFormedMoves(rules.legalMoves(p))
    ensures QueeningDecision(net, rules, p).Success?
    ensures QueeningDecision(net, rules, p).value in rules.legalMoves(p)
    ensures FirstMate(rules, p, rules.legalMoves(p)).Some? ==>
              QueeningDecision(net, rules, p).value == FirstMate(rules, p, rules.legalMoves(p)).value
    ensures FirstMate(rules, p, rules.legalMoves(p)).None? ==>
              Code(QueeningDecision(net, rules, p).value) == NetworkCode(net, rules, p).value
              && QueeningDecision(net, rules, p).value.promotion in {None, Some(Queen)}
  {
    var ms := rules.legalMoves(p);
    FirstMateFound(rules, p, ms);
    if FirstMate(rules, p, ms).None? {
      var pred := net(Planes(p.placement));
      var m := ms[ChosenIndex(pred, ms)];
      MoveCodeIsLegal(pred, ms);
      var code := Code(m);
      if code in PromotionCodes(ms) {
        var q :| q in ms && q.promotion.Some? && Code(q) == code;
        SquareNameInjective(q.from, m.from);
        SquareNameInjective(q.to, m.to);
        assert Code(q)[..2] == SquareName(q.from) && Code(m)[..2] == SquareName(m.from);
        assert Code(q)[2..] == SquareName(q.to) && Code(m)[2..] == SquareName(m.to);
        QueenCode(m);
        assert Move(m.from, m.to, Some(Queen)) in ms;
      } else {
        assert m.promotion.None?;
        UciRoundTrip(m);
        assert Uci(m) == code;
      }
    }
  }

  /** `predict` with the queen suffix. */
  method QueeningPredict(board: Board, net: Network) returns (r: Result<Move, PredictError>)
    modifies board
    ensures board.moveStack == old(board.moveStack)
    ensures r == QueeningDecision(net, board.rules, board.Current())
  {
    var found := MateScan(board);
    if found.Some? {
      return Success(found.value);
    }
    var code := NetworkMove(board, net);
    if code.None? {
      return Failure(NoLegalMove);
    }
    var ms := board.LegalMoves();
    var _, promotions := CodeSets(ms);
    var uci := code.value;
    if uci in promotions {
      uci := uci + "q";
    }
    var pushed := board.PushUci(uci);
    if pushed.Failure? {
      return Failure(Rejected(pushed.error));
    }
    var m := board.Pop();
    r := Success(m);
  }
}
