/** The `Board` class: an 8x8 table of pieces, filled once by its constructor
    and read only through a rank-inverted accessor. The table is stored with
    row 0 holding black's back rank; the accessor maps logical rank `r` to
    stored row `7 - r`, so logical rank 0 is white's back rank. */
module ChessBoard {
  import opened Pieces

  /** The width of `std::size_t`: indices are unsigned and arithmetic on them wraps. */
  const SizeModulus: nat := 0x1_0000_0000_0000_0000

  type Size = x: nat | x < SizeModulus

  /** The private `state_` array. A board value is never changed after it is built:
      there is no operation here that produces a different board from an old one. */
  datatype Board = Board(state: seq<seq<Piece>>)

  /** `std::array<std::array<Piece, 8>, 8>`: exactly eight rows of exactly eight
      cells; an empty square is the `NO` occupant, never a missing cell. */
  predicate Valid(b: Board) {
    |b.state| == 8 && forall r :: 0 <= r < 8 ==> |b.state[r]| == 8
  }

  /** The row index `7 - rank` computed in `std::size_t`: for a rank above 7 the
      subtraction wraps around to a huge value. The result lands inside the
      eight stored rows exactly when the rank is a real rank, and then stored
      row and logical rank add up to 7. */
  function StoredRow(rank: Size): (row: Size)
    ensures row < 8 <==> rank < 8
    ensures rank < 8 ==> row + rank == 7
  {
    if rank <= 7 then 7 - rank
    else
      assert (7 - rank) % SizeModulus == SizeModulus + 7 - rank;
      (7 - rank) % SizeModulus
  }

  /** The rows of the constructor's aggregate initialiser, by stored row. */
  const BlackBackRow: seq<Piece> := [BR, BN, BB, BQ, BK, BB, BN, BR]
  const BlackPawnRow: seq<Piece> := [BP, BP, BP, BP, BP, BP, BP, BP]
  const EmptyRow: seq<Piece> := [NO, NO, NO, NO, NO, NO, NO, NO]
  const ExtraPawnRow: seq<Piece> := [NO, NO, NO, WP, NO, NO, NO, NO]
  const WhitePawnRow: seq<Piece> := [WP, WP, WP, WP, WP, WP, WP, WP]
  const WhiteBackRow: seq<Piece> := [WR, WN, WB, WK, WQ, WB, WN, WR]

  /** The `Board()` constructor: the fixed table of the aggregate initialiser,
      stored row 0 first. Black's back rank has the queen on file 3, white's the
      king on file 3, and stored row 4 carries a lone white pawn on file 3. */
  function NewBoard(): (b: Board)
    ensures Valid(b)
  {
    Board([BlackBackRow, BlackPawnRow, EmptyRow, EmptyRow, ExtraPawnRow, EmptyRow, WhitePawnRow, WhiteBackRow])
  }

  /** `operator[](rank, file) const`: the piece on logical square (rank, file).
      Both indices must be below 8: a larger rank wraps `7 - rank` past the
      table and a larger file runs off the end of the row. */
  function At(b: Board, rank: Size, file: Size): (p: Piece)
    requires Valid(b)
    requires rank < 8 && file < 8
    ensures p == b.state[7 - rank][file]
  {
    b.state[StoredRow(rank)][file]
  }

  /** The eight pieces of one logical rank, by file, as the accessor reads them. */
  function Rank(b: Board, rank: Size): (pieces: seq<Piece>)
    requires Valid(b)
    requires rank < 8
    ensures |pieces| == 8
    ensures forall file :: 0 <= file < 8 ==> pieces[file] == At(b, rank, file)
  {
    b.state[StoredRow(rank)]
  }

  /** Logical ranks 0 .. n-1 read one after the other through the accessor. */
  function Ranks(b: Board, n: nat): (squares: seq<Piece>)
    requires Valid(b)
    requires n <= 8
    ensures |squares| == 8 * n
  {
    if n == 0 then [] else Ranks(b, n - 1) + Rank(b, n - 1)
  }

  /** In the first n ranks, square (rank, file) sits at position 8 * rank + file. */
  lemma {:induction false} RanksAt(b: Board, n: nat, i: nat)
    requires Valid(b)
    requires n <= 8 && i < 8 * n
    ensures Ranks(b, n)[i] == At(b, i / 8, i % 8)
  {
    if i < 8 * (n - 1) {
      RanksAt(b, n - 1, i);
    } else {
      assert i / 8 == n - 1;
    }
  }

  /** All 64 squares as the accessor reads them, rank 0 first. */
  function Squares(b: Board): (squares: seq<Piece>)
    requires Valid(b)
    ensures |squares| == 64
  {
    Ranks(b, 8)
  }

  /** Square (rank, file) is the 8 * rank + file-th of all squares. */
  lemma SquaresAt(b: Board, rank: nat, file: nat)
    requires Valid(b)
    requires rank < 8 && file < 8
    ensures Squares(b)[8 * rank + file] == At(b, rank, file)
  {
    RanksAt(b, 8, 8 * rank + file);
  }

  /** The stored cells in memory order: stored row 0 first. */
  function Flatten(rows: seq<seq<Piece>>): seq<Piece>
  {
    if rows == [] then [] else rows[0] + Flatten(rows[1..])
  }

  /** Stored row r is logical rank 7 - r: reading the accessor at rank 7 - r
      gives back exactly what the table holds in row r. */
  lemma StoredRowIsRank(b: Board, row: nat, file: nat)
    requires Valid(b)
    requires row < 8 && file < 8
    ensures At(b, 7 - row, file) == b.state[row][file]
  {
  }

  /** Reading all squares through the accessor sees exactly the stored cells:
      the same pieces with the same multiplicities, only the rows in reverse. */
  lemma {:induction false} SquaresPermuteStorage(b: Board)
    requires Valid(b)
    ensures multiset(Squares(b)) == multiset(Flatten(b.state))
  {
    RanksAreLowRows(b, 8);
    assert b.state[0..] == b.state;
  }

  /** Ranks 0 .. n-1 hold the same pieces as stored rows 8-n .. 7. */
  lemma {:induction false} RanksAreLowRows(b: Board, n: nat)
    requires Valid(b)
    requires n <= 8
    ensures multiset(Ranks(b, n)) == multiset(Flatten(b.state[8 - n..]))
  {
    if n == 0 {
      assert b.state[8..] == [];
    } else {
      RanksAreLowRows(b, n - 1);
      var rows := b.state[8 - n..];
      assert rows[0] == Rank(b, n - 1);
      assert rows[1..] == b.state[8 - (n - 1)..];
      calc {
        multiset(Ranks(b, n));
        multiset(Ranks(b, n - 1) + Rank(b, n - 1));
        multiset(Ranks(b, n - 1)) + multiset(Rank(b, n - 1));
        multiset(Flatten(rows[1..])) + multiset(rows[0]);
        multiset(Flatten(rows));
      }
    }
  }
}
