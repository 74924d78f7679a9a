# Chess rules engine — Dafny model

This project models the rules engine of a small two-player chess program
(`CHESS_FILES/chess_engine.py`): the `GameState` class that holds the 8x8 board,
the side to move, the move log, the castling rights, the en-passant square, the
snapshot history used by undo and the king-capture end flag; the `Move` class
that records a move and prints it in algebraic form; pseudo-legal move
generation for every piece including castling and en passant; attack
detection and the check test; and the legal-move filter that applies and
undoes each candidate.

The model follows the code, not the laws of chess. Everything is an immutable
value and every engine method is a pure function that returns the new state
(or the new state together with its result, where the engine mutates itself
and also returns something).

Modules, one per file:

- `Wrappers` (`wrappers.dfy`): `Option`.
- `Pieces` (`pieces.dfy`): colours, kinds, the `Piece` of a square (the engine's
  two-letter codes `"wK"`, `"bp"`, `"--"`), on-board coordinates, the board and
  the starting position.
- `Moves` (`moves.dfy`): the `Move` record, its constructor, square names and
  move notation.
- `GameState` (`gamestate.dfy`): the state record, `makeMove`, `undoMove`,
  the en-passant and castling-rights updates, reset, and the apply/undo laws.
- `Attacks` (`attacks.dfy`): `squareUnderAttack`, the king search and `inCheck`,
  with an independent "some enemy piece attacks this square" definition
  proved equal to the engine's scan.
- `Generation` (`generation.dfy`): every piece generator, `getAllPossibleMoves`,
  each proved to produce exactly the moves of a reference pattern.
- `Invariants` (`invariants.dfy`): a consistency invariant of positions reached
  by play (each right held is backed by the colour's only king on column 4 and
  its rook on the corner of the home row; the en-passant square is empty and on
  the skipped row), kept by every generated move that does not capture a king,
  and what it buys: in such positions the legal-move computation restores the
  state, except for the queenside column-3 case.
- `Legality` (`legality.dfy`): `getValidMoves` as the engine runs it (trial
  apply, turn flip, check test, turn flip, undo, threaded through the live
  state) and `isValidMove`.

Coordinates stored in a move or the en-passant square are of type `Coord`
(0 to 7). The attack test takes unbounded integers, because `inCheck` calls it
with (-1, -1) when it finds no king; that call is modelled as written.
Python's `//` on a positive divisor is Dafny's `/`.

## Model

| member | source | states |
|---|---|---|
| Pieces.InitialBoard | CHESS_FILES/chess_engine.py:10-19 | the kings start on e1 and e8, the pawns fill ranks 2 and 7, the four middle ranks are empty, and the back ranks hold rook, knight, bishop, queen, king, bishop, knight, rook |
| GameState.Init | CHESS_FILES/chess_engine.py:5-30 | a new game has the starting board, White to move, empty logs, all four castling rights, no en-passant square, and no winner |
| GameState.ResetGame | CHESS_FILES/chess_engine.py:180-202 | reset gives the new-game state from any state, and undo right after it does nothing |
| Moves.NewMove | CHESS_FILES/chess_engine.py:450-464 | the moved piece is the one on the start square; the captured piece is the one on the end square, or for en passant the one at (start row, end column); these two fields are the only ones read from the board |
| Moves.RankFile | CHESS_FILES/chess_engine.py:478-479 | a square's name is two characters: the file letter 'a' plus the column, then the rank digit '8' minus the row |
| Moves.ParseSquare | CHESS_FILES/chess_engine.py:445-448 | reading a name through the rank and file tables succeeds exactly for a letter a-h followed by a digit 1-8, and names the square back |
| Moves.RankFileInjective | CHESS_FILES/chess_engine.py:445-448 | different squares get different names, so the naming is a bijection onto the 64 names |
| Moves.Notation | CHESS_FILES/chess_engine.py:466-476 | a castle prints "O-O" exactly when the king moved two columns right and "O-O-O" otherwise; any other move prints its start and end square names, followed by " e.p." for en passant |
| Moves.CastleNotationIsNotSquares | CHESS_FILES/chess_engine.py:466-476 | castle notation never starts with a square name, so it cannot be read as a square pair |
| GameState.UpdateEnPassant | CHESS_FILES/chess_engine.py:85-95 | after a move there is an en-passant square exactly when a pawn moved two rows; it is in the end column, halfway between the start and end rows |
| GameState.ClearForMoved | CHESS_FILES/chess_engine.py:98-118 | a king move clears both rights of its colour; a rook leaving column 7 or 0 clears that side's right of its colour; nothing else changes |
| GameState.ClearForCaptured | CHESS_FILES/chess_engine.py:120-131 | capturing a rook on column 7 or 0 clears the victim's right for that side; nothing else changes |
| GameState.UpdateCastlingRights | CHESS_FILES/chess_engine.py:97-131 | each right afterwards is the right before, minus exactly the king-move, rook-departure and rook-capture cases, decided by column and never by row; no right is ever set |
| GameState.MakeMove | CHESS_FILES/chess_engine.py:32-83 | the turn passes; the move and a snapshot of the old rights, en-passant square, end flag and winner are pushed; a castle's rook goes from its corner to its landing column first; an en-passant capture empties the square beside the start; the end square then holds the moved piece and the start is emptied; squares the move does not touch are unchanged; rights and en-passant square follow their update rules, so no right is gained; capturing a king ends the game with the mover as winner, and any other move leaves end flag and winner alone |
| GameState.UndoMove | CHESS_FILES/chess_engine.py:133-176 | with an empty move log or history nothing changes; otherwise both logs lose their last entry, the rights, en-passant square, end flag and winner come back from the popped snapshot, and the turn passes back |
| GameState.UndoMakeKeepsAuxiliary | CHESS_FILES/chess_engine.py:133-147 | for any move, undo after apply gives back everything but the board: turn, logs, rights, en-passant square, end flag and winner |
| GameState.UndoMakeRoundTrip | CHESS_FILES/chess_engine.py:144-176 | for a move built against the board (a castle shaped as generated), undo after apply restores the whole state if and only if an en-passant destination was empty and a castle's rook landing square was empty |
| GameState.QueensideCastleLosesColumnThree | CHESS_FILES/chess_engine.py:169-176 | a queenside castle with a piece on column 3 of the king's row loses that piece: after apply and undo the square is empty and the state differs |
| GameState.GameEndsOnlyByKingCapture | CHESS_FILES/chess_engine.py:67-71 | from an unfinished game, a move ends the game exactly when it captures a king, and then the mover wins |
| Attacks.RayHits | CHESS_FILES/chess_engine.py:398-412 | a ray reports a hit exactly when the first occupied square along it holds an enemy queen, an enemy rook on a straight ray, or an enemy bishop on a diagonal |
| Attacks.SquareUnderAttack | CHESS_FILES/chess_engine.py:375-424 | the four-stage scan for an enemy pawn, knight, slider and king; specified by `Attacks.SquareUnderAttackIsAttacked`: it answers yes exactly when some enemy piece attacks the square by its own movement pattern |
| Attacks.SquareUnderAttackIsAttacked | CHESS_FILES/chess_engine.py:375-424 | the engine's scan (pawns, knights, rays, king) answers yes exactly when some enemy piece attacks the square by its own movement pattern |
| Attacks.AttackerDetected | CHESS_FILES/chess_engine.py:375-424 | any enemy piece that attacks the square by its movement pattern is found by the scan |
| Attacks.InCheck | CHESS_FILES/chess_engine.py:361-373 | the scan of the first king square found, (-1, -1) when there is none; specified by `Attacks.InCheckMeansKingAttacked`: with a king on the board, the side to move is in check exactly when that king is attacked |
| Attacks.FindKing | CHESS_FILES/chess_engine.py:363-372 | the king search gives (-1, -1) exactly when the colour has no king, and otherwise the first such king in row-major order |
| Attacks.InCheckMeansKingAttacked | CHESS_FILES/chess_engine.py:361-373 | when the side to move has a king on the board, it is in check exactly when some enemy piece attacks the king the search finds |
| Generation.KnightMoves | CHESS_FILES/chess_engine.py:306-313 | the knight moves are exactly the plain moves to the eight L-shaped targets on the board not held by the mover's colour |
| Generation.KingSteps | CHESS_FILES/chess_engine.py:315-325 | the king steps are exactly the plain moves to the adjacent squares on the board not held by the mover's colour |
| Generation.Ray | CHESS_FILES/chess_engine.py:429-439 | a slide along one direction gives exactly the squares up to the first occupied one, that one included only when it holds an enemy |
| Generation.Slide | CHESS_FILES/chess_engine.py:426-439 | the moves along a list of directions are exactly the squares in clear sight along one of them that the mover may land on; `Generation.RookMoves`, `Generation.BishopMoves` and `Generation.QueenMoves` fix the directions per piece |
| Generation.RookMoves | CHESS_FILES/chess_engine.py:297-298 | rook moves are exactly the slides along rows and columns |
| Generation.BishopMoves | CHESS_FILES/chess_engine.py:300-301 | bishop moves are exactly the slides along diagonals |
| Generation.QueenMoves | CHESS_FILES/chess_engine.py:303-304 | queen moves are exactly the slides along all eight directions |
| Generation.PawnMoves | CHESS_FILES/chess_engine.py:268-295 | pawn moves are exactly: one row forward to an empty square; two rows from the home row when both squares are empty; diagonal captures of enemies; and en passant onto the recorded square from the fifth rank (own side's view) in an adjacent column |
| Generation.CastleMoves | CHESS_FILES/chess_engine.py:330-358 | a castle is generated exactly when the mover is not in check, the king is on column 4, the right is held, the corner holds a rook of the mover's colour, and columns 5 and 6 (kingside) or 1 and 2 (queenside) of the home row are empty and unattacked |
| Generation.KingMoves | CHESS_FILES/chess_engine.py:315-328 | king moves are exactly its steps and its castles |
| Generation.PieceMoves | CHESS_FILES/chess_engine.py:253-265 | the generator is chosen by the piece kind, and gives exactly that kind's pattern |
| Generation.MovesFrom | CHESS_FILES/chess_engine.py:246-265 | scanning from a square onward gives exactly the pattern moves of the mover's pieces on that square and later ones |
| Generation.AllPossibleMoves | CHESS_FILES/chess_engine.py:244-266 | the pseudo-legal moves are exactly the pattern moves of every piece of the side to move |
| Generation.GeneratedShape | CHESS_FILES/chess_engine.py:244-266 | every generated move is built against the board, moves a piece of the side to move to another square, never lands on the mover's own piece unless it is en passant or a castle, is a king castle when flagged castle, and a pawn capture when flagged en passant |
| Generation.HomeCastleRestorable | CHESS_FILES/chess_engine.py:353-358 | a castle generated for a king on its home row lands on an empty square, and apply/undo restores it exactly when it is kingside or column 3 of that row is empty |
| Generation.GeneratedPawnRows | CHESS_FILES/chess_engine.py:268-295 | a generated pawn move goes one row forward, or two from its home row, or is an en-passant capture from its fifth rank onto the recorded square |
| Invariants.InitConsistent | CHESS_FILES/chess_engine.py:5-30 | the starting position has every right backed by its only king and its rook, and no en-passant square |
| Invariants.MakeKeepsRight | CHESS_FILES/chess_engine.py:97-131 | from a consistent position, a right that survives a generated move that captures no king is still backed by the colour's only king on column 4 and its rook on the corner of the home row |
| Invariants.NoNewKing | CHESS_FILES/chess_engine.py:41-75 | from a consistent position, a generated move that captures no king and does not move a king of a colour puts no king of that colour on a square that lacked one |
| Invariants.MakeKeepsPassant | CHESS_FILES/chess_engine.py:85-95 | from a consistent position, after a generated move the en-passant square, if any, is empty, on row 5 with Black to move or on row 2 with White to move |
| Invariants.MakeKeepsConsistent | CHESS_FILES/chess_engine.py:32-83 | from a consistent position, applying a generated move that does not capture a king keeps the whole consistency invariant |
| Invariants.CastleFromHome | CHESS_FILES/chess_engine.py:330-358 | in a consistent position a castle is generated only for a king on its home row, so the squares checked are the king's own row |
| Invariants.ConsistentRestorable | CHESS_FILES/chess_engine.py:204-231 | in a consistent position every generated move survives apply/undo, if and only if no generated queenside castle has a piece on column 3 |
| Invariants.ConsistentValidMoves | CHESS_FILES/chess_engine.py:204-231 | in a consistent position without that queenside case, the legal-move computation returns the state it was given and keeps exactly the generated moves after which the mover is not in check |
| Legality.Tried | CHESS_FILES/chess_engine.py:214-219 | the state the check test sees: the board after the move with the turn handed back to the mover |
| Legality.KeepsKingSafe | CHESS_FILES/chess_engine.py:214-219 | the keep-or-drop test of a candidate; specified by `Legality.KeepsKingSafeMeansUnattacked`: while the mover keeps a king, a move is kept exactly when no enemy piece attacks the first king found after it |
| Legality.AfterTrial | CHESS_FILES/chess_engine.py:212-224 | one trial leaves everything but the board as it was; for a candidate built against the board (a castle shaped as generated), the whole state comes back exactly when the candidate is restorable |
| Legality.TrialLoop | CHESS_FILES/chess_engine.py:212-224 | the loop keeps a subsequence of the candidates in their original order, and leaves everything but the board as it was |
| Legality.SafeAmong | CHESS_FILES/chess_engine.py:213-220 | the reference filter keeps exactly the candidates after which the mover is not in check |
| Legality.TrialLoopFilters | CHESS_FILES/chess_engine.py:204-231 | when every candidate is restorable the loop leaves the state unchanged and keeps exactly the reference filter's moves, in order |
| Legality.ValidMoves | CHESS_FILES/chess_engine.py:204-231 | the legal moves are a subsequence of the generated moves in generation order, and the state afterwards differs from the state before at most in its board |
| Legality.PassantGuardIsDead | CHESS_FILES/chess_engine.py:226-229 | the en-passant square, the rights and the turn are always restored by the trials, so the guard that resets the en-passant square never fires |
| Legality.ValidMovesExact | CHESS_FILES/chess_engine.py:204-231 | when every generated move is restorable, the legal moves are exactly the generated moves after which the mover is not in check, and the state is unchanged |
| Legality.KeepsKingSafeMeansUnattacked | CHESS_FILES/chess_engine.py:216-218 | while the mover keeps a king after the move, keeping a move means no enemy piece attacks the king the search finds |
| Legality.QuietMove | CHESS_FILES/chess_engine.py:286-295 | with no en-passant square and columns 1 and 5 of the mover's home row occupied, no generated move is a castle or an en-passant capture |
| Legality.QuietPositionRestores | CHESS_FILES/chess_engine.py:204-231 | with no en-passant square and columns 1 and 5 of both home rows occupied, every generated move is restorable |
| Legality.InitialTrialsRestore | CHESS_FILES/chess_engine.py:204-231 | in the starting position the trials leave the state unchanged and the legal moves are exactly the safe generated moves |
| Legality.AnySameSquares | CHESS_FILES/chess_engine.py:236-242 | the scan answers yes exactly when some listed move has the same start and end squares |
| Legality.IsValidMove | CHESS_FILES/chess_engine.py:233-242 | a move is valid exactly when some legal move has the same four coordinates, whatever its pieces and flags; the state left behind is the legal-move computation's |

## Left out

- `CHESS_FILES/chess_main.py` (window, drawing, images, sounds, themes, animation, click handling) is not part of this model: it is presentation and input with no rules logic.
- The engine mutates one object; here each operation returns a new value, so Python list aliasing of the castling-rights list does not arise and the snapshot copy is simply the value.
- The defensive en-passant restore at the end of `getValidMoves` is not modelled: `Legality.PassantGuardIsDead` shows it never changes the state.
- Promotion, checkmate and stalemate do not exist in the engine and are not invented here. The only end of game is a king capture; the winner is a colour, so a "Stalemate" winner can never occur.
- Generation.GeneratedShape: does not claim that a castle lands off the mover's own pieces, because the generator checks the home row, not the king's row; Generation.HomeCastleRestorable states it for a king on its home row.
- Legality.ValidMoves: states the unchanged state and the exact filter only when every generated move is restorable (`Legality.ValidMovesExact`, and `Invariants.ConsistentValidMoves` for positions reached by play); for other states the board after the trials is whatever the engine's apply/undo leaves, as in the engine.
- The default defending colour of `squareUnderAttack` (the side to move, when none is given) is not modelled: every caller in the engine passes a colour.
- Python's negative list indices and `IndexError` do not arise: every board access in the engine is guarded, and the model's coordinates are bounded.

## Recorded behaviour

These are modelled as the engine does them, not corrected:

- Queenside castling checks only columns 1 and 2 and overwrites column 3; this is recorded as behaviour (`GameState.QueensideCastleLosesColumnThree`, `Generation.HomeCastleRestorable`), not corrected.
- A castle is built from the king's own square (r, 4) while the emptiness, rook and attack checks look at the colour's home row. This is modelled as written; `Invariants.CastleFromHome` shows the two agree in positions reached by play.
- The en-passant capture does not check that the recorded square is on the expected row or empty, as in the engine.
