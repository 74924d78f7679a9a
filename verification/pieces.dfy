/**
  Pieces and the 8x8 board of the chess engine.

  Row 0 is rank 8 (Black's back rank) and row 7 is rank 1; column 0 is file a.
  The engine stores each square as a two-letter code such as "wK" or "bp",
  and "--" for an empty square; here that code is the `Piece` datatype.
 */
module Pieces {

  datatype Color = White | Black {
    function Opponent(): (o: Color)
      ensures o != this
    {
      if this == White then Black else White
    }
  }

  datatype Kind = Pawn | Knight | Bishop | Rook | Queen | King

  /** The content of one square. */
  datatype Piece = Empty | Occupied(color: Color, kind: Kind)

  /** A row or column index that lies on the board. */
  type Coord = x: int | 0 <= x < 8

  /** A square given by its (row, column) indices. */
  datatype Square = Square(row: Coord, col: Coord)

  predicate OnBoard(r: int, c: int) {
    0 <= r < 8 && 0 <= c < 8
  }

  ghost predicate IsGrid(g: seq<seq<Piece>>) {
    |g| == 8 && forall i :: 0 <= i < 8 ==> |g[i]| == 8
  }

  type Board = g: seq<seq<Piece>> | IsGrid(g) witness seq(8, _ => seq(8, _ => Empty))

  /** The board with square (r, c) overwritten by p. */
  function Put(b: Board, r: Coord, c: Coord, p: Piece): Board {
    b[r := b[r][c := p]]
  }

  /** True when (r, c) is on the board and holds exactly p. */
  predicate HasAt(b: Board, r: int, c: int, p: Piece) {
    OnBoard(r, c) && b[r][c] == p
  }

  /** A piece of `color` may land on a square holding p: it is empty or holds an enemy. */
  predicate CanLand(p: Piece, color: Color) {
    p == Empty || p.color != color
  }

  /** p is a piece of the colour opposite to `color`. */
  predicate IsEnemy(p: Piece, color: Color) {
    p.Occupied? && p.color != color
  }

  /** p is a piece of `color`. */
  predicate IsOwn(p: Piece, color: Color) {
    p.Occupied? && p.color == color
  }

  function Abs(x: int): nat {
    if x < 0 then -x else x
  }

  /** The row direction in which pawns of `color` advance. */
  function Forward(color: Color): int {
    if color == White then -1 else 1
  }

  /** The back rank of either side, from file a to file h. */
  const BackRank: seq<Kind> := [Rook, Knight, Bishop, Queen, King, Bishop, Knight, Rook]

  function RankOf(color: Color, kinds: seq<Kind>): seq<Piece>
    requires |kinds| == 8
  {
    seq(8, i requires 0 <= i < 8 => Occupied(color, kinds[i]))
  }

  /** The standard starting position. */
  function InitialBoard(): (b: Board)
    ensures b[7][4] == Occupied(White, King) && b[0][4] == Occupied(Black, King)
    ensures forall c :: 0 <= c < 8 ==> b[6][c] == Occupied(White, Pawn) && b[1][c] == Occupied(Black, Pawn)
    ensures forall r, c :: 2 <= r < 6 && 0 <= c < 8 ==> b[r][c] == Empty
    ensures forall c :: 0 <= c < 8 ==> b[7][c] == Occupied(White, BackRank[c]) && b[0][c] == Occupied(Black, BackRank[c])
  {
    var empty := seq(8, _ => Empty);
    var pawns := [Pawn, Pawn, Pawn, Pawn, Pawn, Pawn, Pawn, Pawn];
    [RankOf(Black, BackRank), RankOf(Black, pawns), empty, empty, empty, empty,
     RankOf(White, pawns), RankOf(White, BackRank)]
  }
}
