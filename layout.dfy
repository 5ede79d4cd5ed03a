/** What the accessor reads on the board the constructor builds. The table is
    reproduced literally, including its two oddities: the back ranks are not
    mirror images (black's queen and white's king both stand on file 3), and a
    ninth white pawn stands on stored row 4, which the rank inversion makes
    logical rank 3. */
module StartingLayout {
  import opened Pieces
  import opened ChessBoard
  import opened Census

  /** Rank 0 is white's back rank, with the king on file 3 and the queen on file 4. */
  lemma WhiteBackRank()
    ensures Rank(NewBoard(), 0) == [WR, WN, WB, WK, WQ, WB, WN, WR]
  {
  }

  /** Rank 7 is black's back rank, with the queen on file 3 and the king on file 4. */
  lemma BlackBackRank()
    ensures Rank(NewBoard(), 7) == [BR, BN, BB, BQ, BK, BB, BN, BR]
  {
  }

  /** The back ranks are not mirror images: on files 3 and 4 the two sides
      have queen and king the other way round. */
  lemma BackRanksAsymmetric()
    ensures At(NewBoard(), 7, 3) == BQ && At(NewBoard(), 0, 3) == WK
    ensures At(NewBoard(), 7, 4) == BK && At(NewBoard(), 0, 4) == WQ
  {
  }

  /** Rank 6 is all black pawns and rank 1 all white pawns. */
  lemma PawnRanks(file: nat)
    requires file < 8
    ensures At(NewBoard(), 6, file) == BP
    ensures At(NewBoard(), 1, file) == WP
  {
  }

  /** Ranks 2 to 5 are empty except for the extra white pawn on rank 3, file 3. */
  lemma MiddleRanks(rank: nat, file: nat)
    requires 2 <= rank <= 5 && file < 8
    ensures At(NewBoard(), rank, file) == if rank == 3 && file == 3 then WP else NO
  {
  }

  /** Counting the first n ranks is counting the first n - 1 and then rank n - 1. */
  lemma {:induction false} RanksCount(b: Board, n: nat, q: Piece)
    requires Valid(b) && 1 <= n <= 8
    ensures Count(Ranks(b, n), q) == Count(Ranks(b, n - 1), q) + Count(Rank(b, n - 1), q)
  {
    CountAppend(Ranks(b, n - 1), Rank(b, n - 1), q);
  }

  /** The count over all squares is the sum of the counts of the eight ranks. */
  lemma SquaresCount(b: Board, q: Piece)
    requires Valid(b)
    ensures Count(Squares(b), q) == Count(Rank(b, 0), q) + Count(Rank(b, 1), q) + Count(Rank(b, 2), q) + Count(Rank(b, 3), q)
      + Count(Rank(b, 4), q) + Count(Rank(b, 5), q) + Count(Rank(b, 6), q) + Count(Rank(b, 7), q)
  {
    RanksCount(b, 1, q); RanksCount(b, 2, q); RanksCount(b, 3, q); RanksCount(b, 4, q);
    RanksCount(b, 5, q); RanksCount(b, 6, q); RanksCount(b, 7, q); RanksCount(b, 8, q);
  }

  /** Counting the squares as the accessor reads them gives the same result as
      counting the stored cells in memory order. */
  lemma SquaresCountStorage(b: Board, q: Piece)
    requires Valid(b)
    ensures Count(Squares(b), q) == Count(Flatten(b.state), q)
  {
    SquaresPermuteStorage(b);
    CountIsMultiplicity(Squares(b), q);
    CountIsMultiplicity(Flatten(b.state), q);
  }

  /** Pieces on a back rank: two rooks, two knights, two bishops, one queen, one king. */
  function BackRankCount(q: Piece, rook: Piece, knight: Piece, bishop: Piece, queen: Piece, king: Piece): nat {
    if q == rook || q == knight || q == bishop then 2
    else if q == queen || q == king then 1
    else 0
  }

  /** Rank by rank, how many of each piece the starting board holds. */
  lemma RankCount0(q: Piece)
    ensures Count(Rank(NewBoard(), 0), q) == BackRankCount(q, WR, WN, WB, WQ, WK)
  {
    CountEight(Rank(NewBoard(), 0), q);
  }

  lemma RankCount1(q: Piece)
    ensures Count(Rank(NewBoard(), 1), q) == if q == WP then 8 else 0
  {
    CountEight(Rank(NewBoard(), 1), q);
  }

  lemma RankCount2(q: Piece)
    ensures Count(Rank(NewBoard(), 2), q) == if q == NO then 8 else 0
  {
    CountEight(Rank(NewBoard(), 2), q);
  }

  lemma RankCount3(q: Piece)
    ensures Count(Rank(NewBoard(), 3), q) == if q == NO then 7 else if q == WP then 1 else 0
  {
    CountEight(Rank(NewBoard(), 3), q);
  }

  lemma RankCount4(q: Piece)
    ensures Count(Rank(NewBoard(), 4), q) == if q == NO then 8 else 0
  {
    CountEight(Rank(NewBoard(), 4), q);
  }

  lemma RankCount5(q: Piece)
    ensures Count(Rank(NewBoard(), 5), q) == if q == NO then 8 else 0
  {
    CountEight(Rank(NewBoard(), 5), q);
  }

  lemma RankCount6(q: Piece)
    ensures Count(Rank(NewBoard(), 6), q) == if q == BP then 8 else 0
  {
    CountEight(Rank(NewBoard(), 6), q);
  }

  lemma RankCount7(q: Piece)
    ensures Count(Rank(NewBoard(), 7), q) == BackRankCount(q, BR, BN, BB, BQ, BK)
  {
    CountEight(Rank(NewBoard(), 7), q);
  }

  /** How many squares of the starting board hold `q`: every piece of a full
      set, except that white has nine pawns, and 31 empty squares. */
  function StartingCount(q: Piece): nat {
    match q
    case NO => 31
    case WP => 9
    case BP => 8
    case WN | WB | WR | BN | BB | BR => 2
    case WQ | WK | BQ | BK => 1
  }

  /** Over all 64 squares the starting board holds `StartingCount(q)` of each `q`. */
  lemma {:induction false} BoardCensus(q: Piece)
    ensures Count(Squares(NewBoard()), q) == StartingCount(q)
  {
    SquaresCount(NewBoard(), q);
    RankCount0(q); RankCount1(q); RankCount2(q); RankCount3(q);
    RankCount4(q); RankCount5(q); RankCount6(q); RankCount7(q);
    var b := NewBoard();
    StartingSum(q, Count(Rank(b, 0), q), Count(Rank(b, 1), q), Count(Rank(b, 2), q), Count(Rank(b, 3), q),
      Count(Rank(b, 4), q), Count(Rank(b, 5), q), Count(Rank(b, 6), q), Count(Rank(b, 7), q));
  }

  /** The eight rank counts add up to the board count. */
  lemma StartingSum(q: Piece, c0: nat, c1: nat, c2: nat, c3: nat, c4: nat, c5: nat, c6: nat, c7: nat)
    requires c0 == BackRankCount(q, WR, WN, WB, WQ, WK) && c1 == (if q == WP then 8 else 0)
    requires c2 == (if q == NO then 8 else 0) && c3 == (if q == NO then 7 else if q == WP then 1 else 0)
    requires c4 == (if q == NO then 8 else 0) && c5 == (if q == NO then 8 else 0)
    requires c6 == (if q == BP then 8 else 0) && c7 == BackRankCount(q, BR, BN, BB, BQ, BK)
    ensures c0 + c1 + c2 + c3 + c4 + c5 + c6 + c7 == StartingCount(q)
  {
  }

  /** One king of each colour, nine white pawns (the eight on rank 1 and the
      extra one on rank 3) against eight black pawns, and 31 empty squares. */
  lemma {:induction false} PieceCensus()
    ensures Count(Squares(NewBoard()), WK) == 1 && Count(Squares(NewBoard()), BK) == 1
    ensures Count(Squares(NewBoard()), WP) == 9 && Count(Squares(NewBoard()), BP) == 8
    ensures Count(Squares(NewBoard()), NO) == 31
  {
    BoardCensus(WK); BoardCensus(BK); BoardCensus(WP); BoardCensus(BP); BoardCensus(NO);
  }

  /** 17 white pieces and 16 black pieces; with the 31 empty squares that
      accounts for all 64. */
  lemma {:induction false} ColorCensus()
    ensures ColorCount(Squares(NewBoard()), White) == 17
    ensures ColorCount(Squares(NewBoard()), Black) == 16
    ensures ColorCount(Squares(NewBoard()), White) + ColorCount(Squares(NewBoard()), Black)
      + Count(Squares(NewBoard()), NO) == 64
  {
    Partition(Squares(NewBoard()));
    BoardCensus(WP); BoardCensus(WN); BoardCensus(WB); BoardCensus(WR); BoardCensus(WQ); BoardCensus(WK);
    BoardCensus(BP); BoardCensus(BN); BoardCensus(BB); BoardCensus(BR); BoardCensus(BQ); BoardCensus(BK);
  }
}
