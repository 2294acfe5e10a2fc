/** `chess_app/utils/minimax.py`: a depth-limited minimax search over the
    board, black (the engine) maximising and white minimising the difference
    of the two static evaluations. */
module Minimax {
  import opened Wrappers
  import opened Extended
  import opened Chess
  import opened Functions

  /** The leaf evaluation: black's score minus white's, both taken on the
      same position. */
  function LeafScore(w: Weights, rules: Rules, p: Position): int
  {
    Score(w, rules, p, Black) - Score(w, rules, p, White)
  }

  /** The search stops at depth 0 and on a finished game. */
  predicate IsLeaf(rules: Rules, h: seq<Position>, depth: nat)
    requires |h| > 0
  {
    depth == 0 || GameOver(rules, h)
  }

  /** The value `predict` returns on a board whose history is `h`: the leaf
      evaluation at a leaf, and otherwise the best child value (highest when
      `isAi`, lowest when not), the initial infinity when there are none. */
  function Value(w: Weights, rules: Rules, h: seq<Position>, depth: nat, isAi: bool): ExtInt
    requires |h| > 0
    decreases depth, 1
  {
    if IsLeaf(rules, h, depth) then Fin(LeafScore(w, rules, Last(h)))
    else Best(Children(w, rules, h, depth, isAi), isAi)
  }

  /** The position after each legal move, in generation order. */
  function Next(rules: Rules, h: seq<Position>, m: Move): (h': seq<Position>)
    requires |h| > 0
    ensures |h'| == |h| + 1 && Last(h') == rules.play(Last(h), m)
  {
    h + [rules.play(Last(h), m)]
  }

  /** The values of the children of a node, one per legal move, in
      generation order. */
  function Children(w: Weights, rules: Rules, h: seq<Position>, depth: nat, isAi: bool): (xs: seq<ExtInt>)
    requires |h| > 0 && depth > 0
    ensures |xs| == |rules.legalMoves(Last(h))|
    decreases depth, 0
  {
    var ms := rules.legalMoves(Last(h));
    seq(|ms|, i requires 0 <= i < |ms| => Value(w, rules, Next(rules, h, ms[i]), depth - 1, !isAi))
  }

  /** Child `i` is the value of the position after the `i`-th legal move. */
  lemma ChildAt(w: Weights, rules: Rules, h: seq<Position>, depth: nat, isAi: bool, i: nat)
    requires |h| > 0 && depth > 0 && i < |rules.legalMoves(Last(h))|
    ensures Children(w, rules, h, depth, isAi)[i]
         == Value(w, rules, Next(rules, h, rules.legalMoves(Last(h))[i]), depth - 1, !isAi)
  {
  }

  /** The move `predict` returns: none at a leaf, and otherwise the first
      legal move whose child value is the best one, provided it improves on
      the initial infinity. */
  function BestMove(w: Weights, rules: Rules, h: seq<Position>, depth: nat, isAi: bool): Option<Move>
    requires |h| > 0
  {
    if IsLeaf(rules, h, depth) then None
    else Chosen(Children(w, rules, h, depth, isAi), rules.legalMoves(Last(h)), isAi)
  }

  /** The move a scan over the child values `xs` of the moves `ms` keeps: the
      move of the first best value, unless no value improved on the
      initial infinity. */
  function Chosen(xs: seq<ExtInt>, ms: seq<Move>, isAi: bool): Option<Move>
    requires |xs| <= |ms|
  {
    if Best(xs, isAi) == Init(isAi) then None else Some(ms[FirstBest(xs, isAi)])
  }

  /** One step of the scan: the move changes exactly when the new child value
      is strictly better than the incumbent. */
  lemma ChosenStep(xs: seq<ExtInt>, ms: seq<Move>, i: nat, isAi: bool)
    requires i < |xs| <= |ms|
    ensures Chosen(xs[..i + 1], ms, isAi)
         == if Better(isAi, xs[i], Best(xs[..i], isAi)) then Some(ms[i]) else Chosen(xs[..i], ms, isAi)
  {
    ScanStep(xs, i, isAi);
    if i == 0 {
      assert xs[..0] == [];
    }
  }

  /** The leaf case of `predict`: black's score minus white's. */
  method Evaluate(board: Board, w: Weights) returns (score: int)
    ensures score == LeafScore(w, board.rules, board.Current())
  {
    var chessaiScore := CalculateScore(board, w, Black);
    var player1Score := CalculateScore(board, w, White);
    score := chessaiScore - player1Score;
  }

  /** `predict(board, depth, is_ai)`: returns the move and the value, and
      leaves the board's move stack as it found it. */
  method Predict(board: Board, w: Weights, depth: nat, isAi: bool) returns (move: Option<Move>, eval: ExtInt)
    modifies board
    ensures board.moveStack == old(board.moveStack)
    ensures move == BestMove(w, board.rules, board.History(), depth, isAi)
    ensures eval == Value(w, board.rules, board.History(), depth, isAi)
    decreases depth, 1
  {
    var over := board.IsGameOver();
    if depth == 0 || over {
      var score := Evaluate(board, w);
      return None, Fin(score);
    }

    eval := Init(isAi);
    move := None;
    var ms := board.LegalMoves();
    ghost var h := board.History();
    ghost var xs := Children(w, board.rules, h, depth, isAi);
    for i := 0 to |ms|
      invariant board.moveStack == old(board.moveStack) && board.History() == h
      invariant eval == Best(xs[..i], isAi)
      invariant move == Chosen(xs[..i], ms, isAi)
    {
      var currEval := Explore(board, w, depth, isAi, ms[i]);
      ChildAt(w, board.rules, h, depth, isAi, i);
      ScanStep(xs, i, isAi);
      ChosenStep(xs, ms, i, isAi);
      if isAi {
        if Less(eval, currEval) {
          eval := currEval;
          move := Some(ms[i]);
        }
      } else {
        if Less(currEval, eval) {
          eval := currEval;
          move := Some(ms[i]);
        }
      }
    }
    assert xs[..|ms|] == xs;
  }

  /** The body of `predict`'s loop up to the comparison: push the move,
      search below it, and pop it again. */
  method Explore(board: Board, w: Weights, depth: nat, isAi: bool, m: Move) returns (currEval: ExtInt)
    requires depth > 0
    modifies board
    ensures board.moveStack == old(board.moveStack) && board.History() == old(board.History())
    ensures currEval == Value(w, board.rules, Next(board.rules, old(board.History()), m), depth - 1, !isAi)
    decreases depth, 0
  {
    ghost var h := board.History();
    board.Push(m);
    assert board.History() == Next(board.rules, h, m);
    var _, eval := Predict(board, w, depth - 1, !isAi);
    currEval := eval;
    var _ := board.Pop();
  }

  /** Every value is finite: a node that is not a leaf has a legal move, so
      its best child replaces the initial infinity. */
  lemma {:induction false} ValueFinite(w: Weights, rules: Rules, h: seq<Position>, depth: nat, isAi: bool)
    requires |h| > 0
    ensures Value(w, rules, h, depth, isAi).Fin?
    decreases depth
  {
    if !IsLeaf(rules, h, depth) {
      var ms := rules.legalMoves(Last(h));
      var xs := Children(w, rules, h, depth, isAi);
      forall i | 0 <= i < |ms|
        ensures xs[i].Fin?
      {
        ValueFinite(w, rules, Next(rules, h, ms[i]), depth - 1, !isAi);
      }
      assert xs != [];
    }
  }

  /** A move is returned exactly when the node is not a leaf, and it is then a
      legal move whose child value is the node's value. */
  lemma BestMoveAchievesValue(w: Weights, rules: Rules, h: seq<Position>, depth: nat, isAi: bool)
    requires |h| > 0
    ensures BestMove(w, rules, h, depth, isAi).Some? <==> !IsLeaf(rules, h, depth)
    ensures BestMove(w, rules, h, depth, isAi).Some? ==>
              var m := BestMove(w, rules, h, depth, isAi).value;
              m in rules.legalMoves(Last(h))
              && Value(w, rules, Next(rules, h, m), depth - 1, !isAi) == Value(w, rules, h, depth, isAi)
  {
    if !IsLeaf(rules, h, depth) {
      ValueFinite(w, rules, h, depth, isAi);
      var xs := Children(w, rules, h, depth, isAi);
      assert xs != [];
      assert Best(xs, isAi) != Init(isAi);
    }
  }

  /** At a node that is not a leaf, no legal move has a child value better
      than the node's value, and every move listed before the returned one
      has a strictly worse child value. */
  lemma NodeIsBest(w: Weights, rules: Rules, h: seq<Position>, depth: nat, isAi: bool)
    requires |h| > 0 && !IsLeaf(rules, h, depth)
    ensures forall m :: m in rules.legalMoves(Last(h)) ==>
              !Better(isAi, Value(w, rules, Next(rules, h, m), depth - 1, !isAi), Value(w, rules, h, depth, isAi))
    ensures forall i :: 0 <= i < FirstBest(Children(w, rules, h, depth, isAi), isAi) ==>
              Better(isAi, Value(w, rules, h, depth, isAi),
                     Value(w, rules, Next(rules, h, rules.legalMoves(Last(h))[i]), depth - 1, !isAi))
  {
    var ms := rules.legalMoves(Last(h));
    var xs := Children(w, rules, h, depth, isAi);
    var v := Value(w, rules, h, depth, isAi);
    assert xs != [];
    assert v == xs[FirstBest(xs, isAi)];
    FirstBestIsFirstBest(xs, isAi);
    forall m | m in ms
      ensures !Better(isAi, Value(w, rules, Next(rules, h, m), depth - 1, !isAi), v)
    {
      var i :| 0 <= i < |ms| && ms[i] == m;
      ChildAt(w, rules, h, depth, isAi, i);
    }
    forall i | 0 <= i < FirstBest(xs, isAi)
      ensures Better(isAi, v, Value(w, rules, Next(rules, h, ms[i]), depth - 1, !isAi))
    {
      ChildAt(w, rules, h, depth, isAi, i);
    }
  }

  /** Searching one ply deep picks by the static evaluation of the position
      each legal move leads to. */
  lemma OnePly(w: Weights, rules: Rules, h: seq<Position>, isAi: bool)
    requires |h| > 0 && !GameOver(rules, h)
    ensures var ms := rules.legalMoves(Last(h));
            Value(w, rules, h, 1, isAi)
            == Best(seq(|ms|, i requires 0 <= i < |ms| => Fin(LeafScore(w, rules, rules.play(Last(h), ms[i])))), isAi)
  {
    var ms := rules.legalMoves(Last(h));
    assert Children(w, rules, h, 1, isAi)
        == seq(|ms|, i requires 0 <= i < |ms| => Fin(LeafScore(w, rules, rules.play(Last(h), ms[i]))));
  }

  /** On a finished game the search returns no move and the leaf
      evaluation whatever the depth and the side. */
  lemma TerminalIgnoresDepth(w: Weights, rules: Rules, h: seq<Position>, d1: nat, d2: nat, a1: bool, a2: bool)
    requires |h| > 0 && GameOver(rules, h)
    ensures BestMove(w, rules, h, d1, a1) == None
    ensures Value(w, rules, h, d1, a1) == Value(w, rules, h, d2, a2) == Fin(LeafScore(w, rules, Last(h)))
  {
  }

  /** A node with a single legal move that is not a leaf returns that move. */
  lemma SingleMove(w: Weights, rules: Rules, h: seq<Position>, depth: nat, isAi: bool, m: Move)
    requires |h| > 0 && depth > 0 && !GameOver(rules, h)
    requires rules.legalMoves(Last(h)) == [m]
    ensures BestMove(w, rules, h, depth, isAi) == Some(m)
    ensures Value(w, rules, h, depth, isAi) == Value(w, rules, Next(rules, h, m), depth - 1, !isAi)
  {
    BestMoveAchievesValue(w, rules, h, depth, isAi);
  }
}
