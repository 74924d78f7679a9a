/**
  Legal-move filtering. The engine keeps a pseudo-legal move when, after applying it
  and handing the turn back to the mover, the mover is not in check; it then undoes
  the move. The trial runs on the live state, so each candidate is tried on whatever
  the previous apply/undo pair left behind.
 */
module Legality {
  import opened Wrappers
  import opened Pieces
  import opened Moves
  import opened GameState
  import opened Attacks
  import opened Generation

  /** The state in which the engine asks about the mover's king after trying m. */
  function Tried(s: State, m: Move): (t: State)
    ensures t.whiteToMove == s.whiteToMove
    ensures t.board == MakeMove(s, m).board
  {
    var t := MakeMove(s, m);
    t.(whiteToMove := !t.whiteToMove)
  }

  /** After m the mover is not in check. */
  predicate KeepsKingSafe(s: State, m: Move) {
    !InCheck(Tried(s, m))
  }

  /** The state one trial of m leaves behind: applied, turn flipped and flipped back, undone. */
  function AfterTrial(s: State, m: Move): (t: State)
    ensures t == s.(board := t.board)
    ensures BuiltAgainst(s.board, m) && (m.isCastle ==> CastleShaped(m)) ==> (t == s <==> Restorable(s.board, m))
  {
    var tried := Tried(s, m);
    UndoMakeKeepsAuxiliary(s, m);
    assert BuiltAgainst(s.board, m) && (m.isCastle ==> CastleShaped(m)) ==>
      (UndoMove(MakeMove(s, m)) == s <==> Restorable(s.board, m)) by {
      if BuiltAgainst(s.board, m) && (m.isCastle ==> CastleShaped(m)) {
        UndoMakeRoundTrip(s, m);
      }
    }
    UndoMove(tried.(whiteToMove := !tried.whiteToMove))
  }

  /** a is b with some elements left out, the rest kept in order. */
  predicate SubsequenceOf(a: seq<Move>, b: seq<Move>)
    decreases |b|
  {
    || |a| == 0
    || (&& |b| > 0
        && ((a[0] == b[0] && SubsequenceOf(a[1..], b[1..])) || SubsequenceOf(a, b[1..])))
  }

  /** Keeping or dropping one more element in front keeps the subsequence relation. */
  lemma SubsequenceStep(m: Move, keep: bool, a: seq<Move>, b: seq<Move>)
    requires SubsequenceOf(a, b)
    ensures SubsequenceOf((if keep then [m] else []) + a, [m] + b)
  {
    var b' := [m] + b;
    assert b'[1..] == b;
    if keep {
      var a' := [m] + a;
      assert a'[1..] == a;
    } else {
      assert [] + a == a;
    }
  }

  /** The trial loop of the engine over `cands`, in order, threading the state through. */
  function TrialLoop(s: State, cands: seq<Move>): (res: (State, seq<Move>))
    decreases |cands|
    ensures res.0 == s.(board := res.0.board)
    ensures forall m :: m in res.1 ==> m in cands
    ensures SubsequenceOf(res.1, cands)
  {
    if |cands| == 0 then
      (s, [])
    else
      var m := cands[0];
      var keep := KeepsKingSafe(s, m);
      var rest := TrialLoop(AfterTrial(s, m), cands[1..]);
      SubsequenceStep(m, keep, rest.1, cands[1..]);
      assert [m] + cands[1..] == cands;
      (rest.0, (if keep then [m] else []) + rest.1)
  }

  /** The reference filter: the candidates that keep the mover's king safe, each tried on s itself. */
  function SafeAmong(s: State, cands: seq<Move>): (ms: seq<Move>)
    decreases |cands|
    ensures forall m :: m in ms <==> m in cands && KeepsKingSafe(s, m)
    ensures |ms| <= |cands|
  {
    if |cands| == 0 then []
    else (if KeepsKingSafe(s, cands[0]) then [cands[0]] else []) + SafeAmong(s, cands[1..])
  }

  /** Every candidate is built against s's board, shaped as generated, and restorable. */
  predicate AllRestorable(s: State, cands: seq<Move>) {
    forall m :: m in cands ==> BuiltAgainst(s.board, m) && (m.isCastle ==> CastleShaped(m)) && Restorable(s.board, m)
  }

  /** When every candidate is restorable, each trial gives s back, so the loop leaves the
      state untouched and keeps exactly what the reference filter keeps, in the same order. */
  lemma {:induction false} TrialLoopFilters(s: State, cands: seq<Move>)
    requires AllRestorable(s, cands)
    ensures TrialLoop(s, cands) == (s, SafeAmong(s, cands))
  {
    if |cands| > 0 {
      assert cands[0] in cands;
      assert AfterTrial(s, cands[0]) == s;
      assert AllRestorable(s, cands[1..]) by {
        forall m | m in cands[1..] ensures m in cands { }
      }
      TrialLoopFilters(s, cands[1..]);
    }
  }

  /** The engine's legal moves with the state the trials leave behind. */
  function ValidMoves(s: State): (res: (State, seq<Move>))
    ensures res.0 == s.(board := res.0.board)
    ensures forall m :: m in res.1 ==> Generated(s, m)
    ensures SubsequenceOf(res.1, AllPossibleMoves(s))
  {
    TrialLoop(s, AllPossibleMoves(s))
  }

  /** The engine's guard that puts the en-passant square back after the trials never
      changes anything: the trials always restore it. */
  lemma PassantGuardIsDead(s: State)
    ensures ValidMoves(s).0.enPassant == s.enPassant
    ensures ValidMoves(s).0.rights == s.rights && ValidMoves(s).0.whiteToMove == s.whiteToMove
  {
  }

  /** When every generated move is restorable, the legal moves are exactly the generated
      moves that keep the mover's king safe, and the state is left as it was. */
  lemma ValidMovesExact(s: State)
    requires AllRestorable(s, AllPossibleMoves(s))
    ensures ValidMoves(s).0 == s
    ensures forall m :: m in ValidMoves(s).1 <==> Generated(s, m) && KeepsKingSafe(s, m)
  {
    TrialLoopFilters(s, AllPossibleMoves(s));
  }

  /** Keeping the king safe means, while the mover still has a king after the move, that
      the first such king in row-major order is not attacked by any enemy piece. */
  lemma KeepsKingSafeMeansUnattacked(s: State, m: Move, kr: Coord, kc: Coord)
    requires MakeMove(s, m).board[kr][kc] == Occupied(s.ToMove(), King)
    ensures FindKing(MakeMove(s, m).board, s.ToMove()) != (-1, -1)
    ensures KeepsKingSafe(s, m) <==>
      !Attacked(MakeMove(s, m).board, FindKing(MakeMove(s, m).board, s.ToMove()).0,
                FindKing(MakeMove(s, m).board, s.ToMove()).1, s.ToMove())
  {
    InCheckMeansKingAttacked(Tried(s, m), kr, kc);
  }

  /** Scans `moves` in order for one with the same start and end squares as `move`. */
  method AnySameSquares(moves: seq<Move>, move: Move) returns (ok: bool)
    ensures ok <==> exists m :: m in moves && SameSquares(m, move)
  {
    var i := 0;
    while i < |moves|
      invariant 0 <= i <= |moves|
      invariant forall j :: 0 <= j < i ==> !SameSquares(moves[j], move)
    {
      if SameSquares(moves[i], move) {
        return true;
      }
      i := i + 1;
    }
    return false;
  }

  /** Whether some legal move has the same start and end squares as `move`, whatever its
      pieces and flags; also returns the state the legal-move computation leaves behind. */
  method IsValidMove(s: State, move: Move) returns (t: State, ok: bool)
    ensures t == ValidMoves(s).0
    ensures ok <==> exists m :: m in ValidMoves(s).1 && SameSquares(m, move)
  {
    var res := ValidMoves(s);
    t := res.0;
    ok := AnySameSquares(res.1, move);
  }

  /** With no en-passant square and columns 1 and 5 of the mover's home row occupied, a
      generated move is neither a castle nor an en-passant capture. */
  lemma QuietMove(s: State, m: Move)
    requires Generated(s, m) && s.enPassant == None
    requires s.board[HomeRow(s.ToMove())][5] != Empty && s.board[HomeRow(s.ToMove())][1] != Empty
    ensures !m.isCastle && !m.isEnPassant
  {
    GeneratedShape(s, m);
    if m.isEnPassant {
      GeneratedPawnRows(s, m);
    }
  }

  /** With no en-passant square and columns 1 and 5 of both home rows occupied, no castle or
      en-passant capture is generated, so every trial restores the position. */
  lemma {:induction false} QuietPositionRestores(s: State)
    requires s.enPassant == None
    requires s.board[7][5] != Empty && s.board[7][1] != Empty && s.board[0][5] != Empty && s.board[0][1] != Empty
    ensures AllRestorable(s, AllPossibleMoves(s))
  {
    forall m | m in AllPossibleMoves(s)
      ensures BuiltAgainst(s.board, m) && (m.isCastle ==> CastleShaped(m)) && Restorable(s.board, m)
    {
      GeneratedShape(s, m);
      QuietMove(s, m);
    }
  }

  /** From the starting position every trial restores the position, and the legal moves are
      exactly the generated moves that keep the mover's king safe. */
  lemma InitialTrialsRestore()
    ensures ValidMoves(Init()).0 == Init()
    ensures forall m :: m in ValidMoves(Init()).1 <==> Generated(Init(), m) && KeepsKingSafe(Init(), m)
  {
    var s := Init();
    assert s.board[7][5] != Empty && s.board[7][1] != Empty && s.board[0][5] != Empty && s.board[0][1] != Empty;
    QuietPositionRestores(s);
    ValidMovesExact(s);
  }
}
