# Chess move selection of the portfolio site's chess app

This project is a Dafny model of the chess layer of the `chess_app` Django
application: the depth-limited minimax search the engine plays with, the
static evaluator it scores positions with, the network-backed predictor with
its mate-in-one scan, the helpers that encode boards and moves for the
browser and for the network, and the turn driver that plays the human's move
and the engine's reply.

The chess-rules library is modelled as an abstract board. A `Chess.Board`
object holds the position it was set up from and a stack of moves; its
history of positions is a function of the stack, so `pop` restores the
previous position exactly. A `Rules` value supplies what stays
uninterpreted: the legal moves in generation order, the position a move leads
to, check detection, and the draws the library recognises from the position
alone. `is_checkmate` is "in check with no legal move". `is_game_over` is "no
legal move, or drawn by rule, or the current position seen a fifth time",
where two positions are the same when they agree on the pieces, the side to
move, the castling rights and the en-passant square, whatever the move
clocks say.
Squares are numbered a1 = 0 … h8 = 63. Moves are spelled in UCI long
algebraic notation (`e2e4`, with a fifth letter for a promotion). The
placement field of FEN and the board's text picture are spelled out
character by character.

Modules, one per source file plus the shared pieces:

- `Wrappers` (`wrappers.dfy`): Option and Result.
- `Text` (`text.dfy`): `str.count`, `str.join`, `str.split`, one-character
  `re.sub` and `int()`, with the split-after-join round trip.
- `Extended` (`extended.dfy`): integers with ±infinity, and the left-to-right
  scan in which only a strictly better value replaces the incumbent.
- `Chess` (`chess.dfy`): the board interface described above.
- `Functions` (`functions.dfy`): `chess_app/utils/functions.py`.
- `Minimax` (`minimax.dfy`): `chess_app/utils/minimax.py`.
- `Inference` (`inference.dfy`): `chess_app/utils/inference.py`.
- `Game` (`game.dfy`): `chess_app/game.py`.

Each Python function that loops or changes the board is a method with loop
invariants, proved against a specification function. The lemmas state
properties of those functions: `Value` and `BestMove` for minimax, `Score`
for the evaluator, `MoveCode` for `move_gen`, and `Decision` for the network
predictor.

Where the design description of the system and the code differ, the model
follows the code:

- At a leaf the search scores black's evaluation minus white's, whatever
  side is maximising.
- The driver tests `board.legal_moves` and not `is_game_over()` before it
  replies. This is the second finding below.

## Model

| member | source | states |
|---|---|---|
| `Chess.FileMapsInverse` | chess_app/utils/functions.py:5 | `num_to_ltr` and `ltr_to_num` are inverse bijections between files a..h and 0..7 |
| `Chess.UciRoundTrip` | chess_app/game.py:23 | `Move.from_uci` reads back the UCI spelling of every move, promotion letter included |
| `Chess.Board.Pop` | chess_app/utils/minimax.py:25-27 | `pop` returns the last move pushed, and the history of positions returns to what it was before that push |
| `Chess.Board.PushUci` | chess_app/utils/inference.py:17 | `push_uci` refuses text that is not a move and moves that are not legal, leaving the board unchanged; otherwise it pushes the parsed move |
| `Text.SplitJoin` | chess_app/static/chess_app/js/board.js:17 | splitting a comma-joined non-empty list of comma-free strings on `,` gives the list back |
| `Functions.Code` | chess_app/utils/functions.py:24-26 | a move's code is four characters, contains no comma, and is the first four characters of its UCI spelling |
| `Functions.CodeSets` | chess_app/utils/functions.py:20-26 | `legal_moves` is exactly the set of four-character prefixes of the legal moves, `promotions` the prefixes of the promoting ones, and `promotions ⊆ legal_moves` |
| `Functions.CommaJoin` | chess_app/utils/functions.py:29-30 | the joined text lists each code once, in some order; when the codes hold no comma, splitting the text on `,` recovers the set, and an empty set gives the empty text |
| `Functions.GetGameState` | chess_app/utils/functions.py:8-36 | the bundle lists the legal and promotion codes, carries the current position, the game-over flag and the check flag of the board |
| `Functions.GetPieces` | chess_app/utils/functions.py:39-61 | the loop over the piece map returns the colour's list: each white piece as (kind, 63 - square), each black piece as (kind, square), in piece-map order |
| `Functions.PiecesOfExact` | chess_app/utils/functions.py:53-58 | an entry is in a colour's list exactly when a piece of that kind and colour stands on the square it mirrors to (white) or names (black) |
| `Functions.PiecesPartition` | chess_app/utils/functions.py:53-61 | the two lists together hold as many entries as the piece map has pieces: every piece lands in exactly one list |
| `Functions.MaterialLoop` | chess_app/utils/functions.py:76-80 | the material loop sums, over the six kinds, the count of the kind's letter (upper case for white) in the placement field times the kind's weight |
| `Functions.FenMaterialIsMaterial` | chess_app/utils/functions.py:75-80 | counting letters in the placement field equals counting pieces: the material term is the weight of every piece of the colour, once per piece |
| `Functions.PositionLoop` | chess_app/utils/functions.py:82-85 | the positional loop sums the table entry of every item of the piece list |
| `Functions.PiecesScore` | chess_app/utils/functions.py:82-85 | the positional term is the table entry of each piece of the colour at its square, mirrored for white |
| `Functions.CheckBonus` | chess_app/utils/functions.py:87-92 | the check term is 0 when the scored colour is to move; otherwise 200 for check plus 1500 for checkmate, so one of 0, 200, 1700, with each value characterised exactly |
| `Functions.CalculateScore` | chess_app/utils/functions.py:64-94 | `calculate_score` is material plus position plus the check term, a function of the position and the colour alone |
| `Functions.GetMapping` | chess_app/utils/functions.py:96-108 | the four substitutions on the board's picture, the line and space splits and `int()` yield the 8x8 plane: 1 where the white piece of the kind stands, -1 where the black one stands, 0 elsewhere |
| `Functions.MappingAgreesWithPieces` | chess_app/utils/functions.py:96-108 | a plane entry is 1 exactly where the white piece list has that kind, and -1 exactly where the black list has it |
| `Functions.BoardRepr` | chess_app/utils/functions.py:111-118 | the six planes are stacked in the order p, r, n, b, q, k |
| `Functions.PlanesPartition` | chess_app/utils/functions.py:111-118 | no square is non-zero in two planes, and a square is non-zero in some plane exactly when it is occupied |
| `Functions.ScanSources` | chess_app/utils/functions.py:125-146 | the first loop ends on the source square of the first legal move whose source scores highest on plane 0, and leaves `from_x` unset exactly when there is no legal move |
| `Functions.ScanDestinations` | chess_app/utils/functions.py:148-172 | the second loop ends on the destination of the first legal move from the chosen source whose destination scores highest on plane 1 |
| `Functions.MoveGen` | chess_app/utils/functions.py:121-175 | `move_gen` raises when there is no legal move, and otherwise returns source then destination as chosen by the two scans |
| `Functions.MoveCodeIsLegal` | chess_app/utils/functions.py:121-175 | the decoded text is the four-character code of a legal move leaving the chosen source |
| `Functions.ChosenSourceIsBest` | chess_app/utils/functions.py:125-143 | the chosen source scores at least as high as every legal move's source, and strictly higher than the sources of the moves listed before it |
| `Functions.ChosenDestIsBest` | chess_app/utils/functions.py:152-169 | among the legal moves from the chosen source, the chosen destination scores at least as high as every other, and strictly higher than every earlier one (the strict `>` keeps the first best) |
| `Extended.FirstBestIsFirstBest` | chess_app/utils/minimax.py:28-35 | a scan replacing only on strict improvement ends on the first index holding a best value |
| `Minimax.Evaluate` | chess_app/utils/minimax.py:17-20 | the leaf score is black's evaluation minus white's |
| `Minimax.Predict` | chess_app/utils/minimax.py:4-36 | `predict` returns the best move and value of the search tree and leaves the board's move stack as it found it |
| `Minimax.Explore` | chess_app/utils/minimax.py:24-27 | each probe pushes the move, searches one ply shallower with the other side, and pops, restoring the board |
| `Minimax.TerminalIgnoresDepth` | chess_app/utils/minimax.py:17-20 | on a finished game the result is no move and the leaf score, whatever the depth and side |
| `Minimax.ValueFinite` | chess_app/utils/minimax.py:22-36 | every value is finite: a node that is not a leaf has a legal move, so the initial infinity is always replaced |
| `Minimax.BestMoveAchievesValue` | chess_app/utils/minimax.py:24-31 | a move is returned exactly at nodes that are not leaves; it is legal and its child value is the node's value |
| `Minimax.NodeIsBest` | chess_app/utils/minimax.py:28-35 | no legal move's child is better than the node value (max when maximising, min when minimising), and every move before the returned one is strictly worse |
| `Minimax.OnePly` | chess_app/utils/minimax.py:17-36 | at depth 1 the value is the best leaf score among the positions the legal moves lead to |
| `Minimax.SingleMove` | chess_app/utils/minimax.py:24-36 | a node that is not a leaf with a single legal move returns that move |
| `Inference.FirstMateIsFirst` | chess_app/utils/inference.py:6-9 | the scan finds the first mating move in generation order, and nothing exactly when no legal move mates |
| `Inference.MateScan` | chess_app/utils/inference.py:6-10 | the probing loop returns the first mating move and pops every probe, on the early return and on the fall-through |
| `Inference.NetworkMove` | chess_app/utils/inference.py:11-16 | the network sees only `board_repr` of the board, and the move text is `move_gen` of its output |
| `Inference.Predict` | chess_app/utils/inference.py:5-18 | `predict` returns the first mating move, or else the move `move_gen` spells if `push_uci` accepts it; the board ends as it started |
| `Inference.DecisionIsLegal` | chess_app/utils/inference.py:5-18 | a returned move is legal, and a fallback move never carries a promotion piece |
| `Inference.DecisionFollowsNetwork` | chess_app/utils/inference.py:15-18 | without a mate in one, when the decoded move promotes nothing, the result is that move |
| `Inference.PromotionRejected` | chess_app/utils/inference.py:16-17 | without a mate in one, when the decoded move is a promotion with no plain form, `push_uci` raises |
| `Inference.PromotionCounterexample` | chess_app/utils/inference.py:16-17 | with only the e7-e8 promotions legal, `predict` raises instead of returning a move |
| `Inference.QueeningSucceeds` | chess_app/utils/inference.py:16-17 | with the queen suffix, `predict` returns a legal move on every position that has one: the mating move, or the squares `move_gen` chose, promoting to a queen |
| `Inference.QueeningPredict` | chess_app/utils/inference.py:5-18 | the predictor with the queen suffix, board unchanged at the end |
| `Game.AiMove` | chess_app/game.py:25-31 | the predictor runs on a fresh board set up at the live position; `minimax` at depth 2 maximising, `chessai` the network predictor, anything else a legal move of the live board |
| `Game.Play` | chess_app/game.py:7-35 | the human's move is pushed first, and `play` fails if it is not UCI text or starts on an empty square (the assertion inside `push`); a reply is pushed only if legal moves remain; the live board gains two moves then and one otherwise; the bundle describes the final board; a predictor's failure is reported |
| `Game.MinimaxNoneIffDrawn` | chess_app/game.py:24-32 | with legal moves left, minimax on the copy returns no move exactly when the position is drawn by rule, and `play` then fails pushing it |
| `Game.DrawnCounterexample` | chess_app/game.py:24-32 | under rules that offer a legal move but declare the position drawn by rule, as for bare kings, the minimax branch of `play` has no move to push |
| `Game.CheckedReplySucceeds` | chess_app/game.py:24-31 | when the game goes on, both deterministic predictors return a legal move |
| `Game.CheckedPlay` | chess_app/game.py:7-35 | the driver that tests `is_game_over()` fails on the human's move as `play` does, and otherwise replies exactly when the game goes on, always pushing a legal reply |

## Findings

| source | as written | input that shows it | evidently intended | confidence | as-written member | corrected member |
|---|---|---|---|---|---|---|
| chess_app/utils/inference.py:16-17 | `move_gen` spells four characters and `push_uci` parses them as a move without promotion | a position where the decoded move is a pawn promotion, e.g. only e7e8q/r/b/n legal: `push_uci("e7e8")` raises | append `q` when the code is one of the position's promotion codes | not executed | `Inference.PromotionCounterexample` | `Inference.QueeningSucceeds` |
| chess_app/game.py:24-32 | a reply is made whenever `board.legal_moves` is non-empty, and minimax's move is pushed unchecked | a position with legal moves drawn by insufficient material, e.g. bare kings: minimax stops at the root, returns `None`, and `push(None)` raises | reply only when `is_game_over()` is false | not executed | `Game.DrawnCounterexample` | `Game.CheckedPlay` |

## Left out

- Legal-move generation, the effect of a move, check detection, and the draw
  rules (insufficient material, the seventy-five-move rule) belong to the
  chess library. They are the uninterpreted fields of `Rules`. The
  well-formedness the promotion fix relies on is stated as
  `Inference.WellFormedMoves`: no move stays on its square, and a promoting
  pawn may promote to a queen.
- `board.fen()` and `chess.Board(fen)` are modelled as handing over the
  whole position. Only the placement field of FEN is spelled out
  character by character. The library writes the en-passant square only
  when a legal en-passant capture exists, and the model ignores that
  difference. The copy's lost move history is modelled: the copy starts with
  an empty stack.
- The ONNX session is the `Network` parameter. Its float32 scores are
  integers. The batch axis that `expand_dims` adds and `squeeze` removes is
  not represented.
- `Game.Play`: when the human's move starts on an empty square, python-chess
  raises from inside `push` after it has appended the move and reset the
  en-passant square and the clocks. The model reports `EmptySource` with the
  move on the stack; the half-updated position is not modelled.
- Moves the library lists as legal are taken to start on a piece, so pushing
  the reply never trips the assertion in `push`.
- The repetition count compares the en-passant square always; python-chess
  counts it only when an en-passant capture is legal.
- `Game.AiMove`: `random.choice` is modelled as an arbitrary legal move of the live board, not as a uniform draw.
- `Move.from_uci` also accepts the null move `0000` and drop moves. The model
  refuses both as invalid text.
- The chess960 castling conversions inside `push_uci` are not modelled.
- Python's set iteration order is unspecified, so `",".join(...)` takes the
  codes in an arbitrary order. `Functions.CommaJoin` chooses one.
- `float('inf')` is the `Extended.ExtInt` infinity. The branch where a
  non-leaf node has no legal move and returns ±infinity cannot be reached,
  because `is_game_over` holds whenever there is no legal move
  (`Minimax.ValueFinite`).
- Checkmate dominance depends on the weight tables. `piece_weights` and
  `position_weights` are a `Weights` parameter, so no bound on the material
  and positional terms is assumed or proved.
- Python exceptions are `Failure` results. The Django views, forms, models,
  URL configuration, the quiz and authentication apps, the loading scripts
  and the JavaScript are not part of this model.
