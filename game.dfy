/** `chess_app/game.py`: one turn of the game. The human's move is pushed
    onto the live board; if moves remain, a predictor chooses a reply on a
    copy of the position and only that reply is pushed onto the live board;
    the state bundle of the final board is returned. The network and the
    random choice are parameters of the model. */
module Game {
  import opened Wrappers
  import opened Chess
  import opened Functions
  import Minimax
  import opened Inference

  /** Why `play` raises: the human's text is not a move (`Move.from_uci`),
      the human's move starts on an empty square (`push` asserts that the
      moving piece exists), the minimax predictor found no move and
      `push(None)` fails, or the network predictor raised. */
  datatype PlayError = InvalidHumanMove | EmptySource | NoMoveToPush | PredictFailed(PredictError)

  /** The reply of the two deterministic predictors on a copy standing at
      `p`: the minimax move at depth 2 with the engine maximising, or the
      network predictor's move. */
  function EngineReply(w: Weights, net: Network, rules: Rules, p: Position, predictor: string): Result<Move, PlayError>
  {
    if predictor == "minimax" then
      match Minimax.BestMove(w, rules, [p], 2, true)
      case None => Failure(NoMoveToPush)
      case Some(m) => Success(m)
    else
      match Decision(net, rules, p)
      case Failure(e) => Failure(PredictFailed(e))
      case Success(m) => Success(m)
  }

  /** The dispatch of `play`: the predictor runs on `chess.Board(board.fen())`,
      a fresh board set up at the live position, so the live board is left
      alone; any predictor other than `minimax` and `chessai` picks a legal
      move of the live board at random. */
  method AiMove(board: Board, w: Weights, net: Network, predictor: string) returns (r: Result<Move, PlayError>)
    requires board.rules.legalMoves(board.Current()) != []
    ensures predictor == "minimax" || predictor == "chessai" ==>
              r == EngineReply(w, net, board.rules, board.Current(), predictor)
    ensures predictor != "minimax" && predictor != "chessai" ==>
              r.Success? && r.value in board.rules.legalMoves(board.Current())
  {
    var copyBoard := new Board(board.rules, board.Current());
    if predictor == "minimax" {
      var move, _ := Minimax.Predict(copyBoard, w, 2, true);
      if move.None? {
        return Failure(NoMoveToPush);
      }
      r := Success(move.value);
    } else if predictor == "chessai" {
      var move := Inference.Predict(copyBoard, net);
      if move.Failure? {
        return Failure(PredictFailed(move.error));
      }
      r := Success(move.value);
    } else {
      var ms := board.LegalMoves();
      assert ms[0] in ms;
      var move :| move in ms;
      r := Success(move);
    }
  }

  /** The position the human's move leads to. */
  function AfterHuman(rules: Rules, p: Position, human: Move): Position
  {
    rules.play(p, human)
  }

  /** `play(player1_move, board, predictor)`. */
  method Play(humanMove: string, board: Board, predictor: string, w: Weights, net: Network)
      returns (r: Result<GameState, PlayError>)
    modifies board
    ensures ParseUci(humanMove).None? ==> r == Failure(InvalidHumanMove) && board.moveStack == old(board.moveStack)
    ensures ParseUci(humanMove).Some? && old(board.Current()).placement[ParseUci(humanMove).value.from].None? ==>
              r == Failure(EmptySource) && board.moveStack == old(board.moveStack) + [ParseUci(humanMove).value]
    ensures ParseUci(humanMove).Some? && old(board.Current()).placement[ParseUci(humanMove).value.from].Some? ==>
              var human := ParseUci(humanMove).value;
              var p1 := AfterHuman(board.rules, old(board.Current()), human);
              (board.rules.legalMoves(p1) == [] ==>
                 board.moveStack == old(board.moveStack) + [human]
                 && r.Success? && Reports(r.value, board.rules, board.History()))
              && (board.rules.legalMoves(p1) != [] && (predictor == "minimax" || predictor == "chessai") ==>
                    var reply := EngineReply(w, net, board.rules, p1, predictor);
                    (reply.Failure? ==> r == Failure(reply.error) && board.moveStack == old(board.moveStack) + [human])
                    && (reply.Success? ==>
                          board.moveStack == old(board.moveStack) + [human, reply.value]
                          && r.Success? && Reports(r.value, board.rules, board.History())))
              && (board.rules.legalMoves(p1) != [] && predictor != "minimax" && predictor != "chessai" ==>
                    |board.moveStack| == |old(board.moveStack)| + 2
                    && board.moveStack[..|old(board.moveStack)| + 1] == old(board.moveStack) + [human]
                    && Last(board.moveStack) in board.rules.legalMoves(p1)
                    && r.Success? && Reports(r.value, board.rules, board.History()))
  {
    var parsed := ParseUci(humanMove);
    if parsed.None? {
      return Failure(InvalidHumanMove);
    }
    var moving := board.Current().placement[parsed.value.from];
    board.Push(parsed.value);
    if moving.None? {
      return Failure(EmptySource);
    }
    var ms := board.LegalMoves();
    if ms != [] {
      var move := AiMove(board, w, net, predictor);
      if move.Failure? {
        return Failure(move.error);
      }
      board.Push(move.value);
    }
    var gs := GetGameState(board);
    r := Success(gs);
  }

  /** A board set up at `p` has not seen `p` five times. */
  lemma FreshHistory(rules: Rules, p: Position)
    ensures GameOver(rules, [p]) <==> rules.legalMoves(p) == [] || rules.drawnByRule(p)
  {
    assert [p][1..] == [];
    assert Occurrences([p], p) == 1;
  }

  /** With legal moves on the copy, minimax finds no move exactly when the
      copy is drawn by rule (insufficient material, seventy-five moves): the
      search stops at the root and `play` then pushes `None`. */
  lemma MinimaxNoneIffDrawn(w: Weights, rules: Rules, p: Position)
    requires rules.legalMoves(p) != []
    ensures Minimax.BestMove(w, rules, [p], 2, true).None? <==> rules.drawnByRule(p)
    ensures EngineReply(w, AnyNetwork, rules, p, "minimax") == Failure(NoMoveToPush) <==> rules.drawnByRule(p)
  {
    FreshHistory(rules, p);
    Minimax.BestMoveAchievesValue(w, rules, [p], 2, true);
  }

  /** An arbitrary network, for stating facts about the minimax branch. */
  const AnyNetwork: Network := FlatNetwork

  /** Rules offering one legal move everywhere and declaring every position
      drawn by rule, as an insufficient-material position with a legal king
      step is. */
  const DrawnRules: Rules := Rules(_ => [Move(4, 12, None)], (p, _) => p, _ => false, _ => true)

  /** Under those rules the minimax branch of `play` has no move to push. */
  lemma DrawnCounterexample(w: Weights)
    ensures DrawnRules.legalMoves(EmptyPosition) != []
    ensures EngineReply(w, AnyNetwork, DrawnRules, EmptyPosition, "minimax") == Failure(NoMoveToPush)
  {
    MinimaxNoneIffDrawn(w, DrawnRules, EmptyPosition);
  }

  // ----- the driver with its two fixes ----------------------------------------------

  /** The reply of the deterministic predictors when the network predictor
      appends the queen suffix. */
  function CheckedReply(w: Weights, net: Network, rules: Rules, p: Position, predictor: string): Result<Move, PlayError>
  {
    if predictor == "minimax" then
      match Minimax.BestMove(w, rules, [p], 2, true)
      case None => Failure(NoMoveToPush)
      case Some(m) => Success(m)
    else
      match QueeningDecision(net, rules, p)
      case Failure(e) => Failure(PredictFailed(e))
      case Success(m) => Success(m)
  }

  /** On a position where the game goes on, both deterministic predictors
      return a legal move. */
  lemma CheckedReplySucceeds(w: Weights, net: Network, rules: Rules, p: Position, predictor: string)
    requires !GameOver(rules, [p]) && WellFormedMoves(rules.legalMoves(p))
    ensures CheckedReply(w, net, rules, p, predictor).Success?
    ensures CheckedReply(w, net, rules, p, predictor).value in rules.legalMoves(p)
  {
    FreshHistory(rules, p);
    Minimax.BestMoveAchievesValue(w, rules, [p], 2, true);
    QueeningSucceeds(net, rules, p);
  }

  /** The dispatch with the queen suffix in the network predictor. */
  method CheckedAiMove(board: Board, w: Weights, net: Network, predictor: string) returns (r: Result<Move, PlayError>)
    requires board.rules.legalMoves(board.Current()) != []
    ensures predictor == "minimax" || predictor == "chessai" ==>
              r == CheckedReply(w, net, board.rules, board.Current(), predictor)
    ensures predictor != "minimax" && predictor != "chessai" ==>
              r.Success? && r.value in board.rules.legalMoves(board.Current())
  {
    var copyBoard := new Board(board.rules, board.Current());
    if predictor == "minimax" {
      var move, _ := Minimax.Predict(copyBoard, w, 2, true);
      if move.None? {
        return Failure(NoMoveToPush);
      }
      r := Success(move.value);
    } else if predictor == "chessai" {
      var move := QueeningPredict(copyBoard, net);
      if move.Failure? {
        return Failure(PredictFailed(move.error));
      }
      r := Success(move.value);
    } else {
      var ms := board.LegalMoves();
      assert ms[0] in ms;
      var move :| move in ms;
      r := Success(move);
    }
  }

  /** `play` testing `is_game_over()` instead of the legal moves before
      replying, and with the queen suffix: once the human's move parses and
      starts on a piece, it never raises on a well-formed move list, and it
      replies exactly when the game goes on. */
  method CheckedPlay(humanMove: string, board: Board, predictor: string, w: Weights, net: Network)
      returns (r: Result<GameState, PlayError>)
    modifies board
    ensures ParseUci(humanMove).None? ==> r == Failure(InvalidHumanMove) && board.moveStack == old(board.moveStack)
    ensures ParseUci(humanMove).Some? && old(board.Current()).placement[ParseUci(humanMove).value.from].None? ==>
              r == Failure(EmptySource) && board.moveStack == old(board.moveStack) + [ParseUci(humanMove).value]
    ensures ParseUci(humanMove).Some? && old(board.Current()).placement[ParseUci(humanMove).value.from].Some? ==>
              var human := ParseUci(humanMove).value;
              var h1 := old(board.History()) + [AfterHuman(board.rules, old(board.Current()), human)];
              (GameOver(board.rules, h1) ==>
                 board.moveStack == old(board.moveStack) + [human]
                 && r.Success? && Reports(r.value, board.rules, board.History()))
              && (!GameOver(board.rules, h1) && WellFormedMoves(board.rules.legalMoves(Last(h1))) ==>
                    |board.moveStack| == |old(board.moveStack)| + 2
                    && board.moveStack[..|old(board.moveStack)| + 1] == old(board.moveStack) + [human]
                    && Last(board.moveStack) in board.rules.legalMoves(Last(h1))
                    && r.Success? && Reports(r.value, board.rules, board.History()))
  {
    var parsed := ParseUci(humanMove);
    if parsed.None? {
      return Failure(InvalidHumanMove);
    }
    var moving := board.Current().placement[parsed.value.from];
    board.Push(parsed.value);
    if moving.None? {
      return Failure(EmptySource);
    }
    ghost var h1 := board.History();
    ghost var stack1 := board.moveStack;
    var over := board.IsGameOver();
    if !over {
      ghost var p1 := board.Current();
      FreshHistory(board.rules, p1);
      var move := CheckedAiMove(board, w, net, predictor);
      if WellFormedMoves(board.rules.legalMoves(p1)) {
        CheckedReplySucceeds(w, net, board.rules, p1, predictor);
      }
      if move.Failure? {
        return Failure(move.error);
      }
      board.Push(move.value);
      assert board.moveStack == stack1 + [move.value];
    }
    var gs := GetGameState(board);
    r := Success(gs);
  }
}
