# holy-hell board model

A Dafny model of the `Board` class of holy-hell, a small SDL chessboard viewer.
The class holds an 8x8 table of `Piece` occupants that its constructor fills
once with a fixed starting layout. It offers one read-only accessor,
`operator[](rank, file)`, which reads stored row `7 - rank`, so that logical
rank 0 is white's back rank although the table stores black's back rank first.

The model has four modules:

- `Pieces` (pieces.dfy): the closed `Piece` enumeration (`NO` for the empty
  square, then six white and six black pieces) and the colour of an occupant.
- `ChessBoard` (board.dfy): the board as an immutable value of eight rows of
  eight cells. `NewBoard` is the constructor's table, literally, and `At` is
  the accessor. The `7 - rank` index is computed in `std::size_t`, so ranks
  above 7 wrap around. Also here: the 64 squares in accessor order (`Squares`)
  and the proof that they are the stored cells rearranged.
- `Census` (census.dfy): counting occupants per piece and per colour. Includes
  the fact that the white, black and empty counts cover every square.
- `StartingLayout` (layout.dfy): what the accessor reads on the constructed
  board, rank by rank, and the piece counts over all 64 squares.

The table is reproduced as written. Two oddities are kept:

- The back ranks are not mirror images. Black has `R N B Q K B N R`, white has
  `R N B K Q B N R`, so black's queen and white's king both stand on file 3.
- Stored row 4 holds a lone white pawn on file 3. The rank inversion makes this
  logical rank 3.

As a result the board holds 17 white pieces (nine of them pawns), 16 black
pieces and 31 empty squares.

## Model

| member | source | states |
|---|---|---|
| ChessBoard.Valid | include/board.hpp:14 | exactly eight rows of exactly eight cells |
| ChessBoard.StoredRow | src/board.cpp:15 | `7 - rank` in `std::size_t` lands on a stored row exactly when the rank is below 8; then stored row and rank add up to 7 |
| ChessBoard.NewBoard | src/board.cpp:5-13 | the constructed table has exactly eight rows of exactly eight cells |
| ChessBoard.At | src/board.cpp:15 | for rank and file below 8, the accessor returns the cell in stored row `7 - rank`, column `file` |
| ChessBoard.Rank | src/board.cpp:15 | a logical rank is eight pieces, and its entry at each file is what the accessor returns for that square |
| ChessBoard.RanksAt | src/board.cpp:15 | in the first n ranks read one after another, position i holds the accessor's value at rank i / 8, file i % 8 |
| ChessBoard.Squares | include/board.hpp:14 | reading all ranks through the accessor yields 64 squares |
| ChessBoard.SquaresAt | src/board.cpp:15 | square (rank, file) is entry `8 * rank + file` of all 64 squares |
| ChessBoard.StoredRowIsRank | src/board.cpp:15 | reading logical rank `7 - row` gives back stored row `row`, cell by cell |
| ChessBoard.RanksAreLowRows | src/board.cpp:15 | ranks 0 .. n-1 hold the same pieces, with the same multiplicities, as stored rows 8-n .. 7 |
| ChessBoard.SquaresPermuteStorage | src/board.cpp:15 | the 64 squares read through the accessor are a permutation of the stored cells in memory order |
| Census.Partition | include/board.hpp:14 | every cell holds exactly one occupant: the white, black and empty counts add up to the number of cells |
| StartingLayout.WhiteBackRank | src/board.cpp:13 | rank 0 is `WR WN WB WK WQ WB WN WR` |
| StartingLayout.BlackBackRank | src/board.cpp:6 | rank 7 is `BR BN BB BQ BK BB BN BR` |
| StartingLayout.BackRanksAsymmetric | src/board.cpp:6-13 | black's queen and white's king are both on file 3; black's king and white's queen are both on file 4 |
| StartingLayout.PawnRanks | src/board.cpp:7-12 | every file of rank 6 holds a black pawn and every file of rank 1 a white pawn |
| StartingLayout.MiddleRanks | src/board.cpp:8-11 | ranks 2 to 5 are empty except for the white pawn at rank 3, file 3 |
| StartingLayout.SquaresCount | src/board.cpp:15 | the count of any piece over all squares is the sum of its counts over the eight ranks |
| StartingLayout.SquaresCountStorage | src/board.cpp:15 | counting through the accessor gives the same count as counting the stored cells |
| StartingLayout.RankCount0 | src/board.cpp:13 | rank 0 holds two each of white rook, knight and bishop, one white queen and one white king, and nothing else |
| StartingLayout.RankCount1 | src/board.cpp:12 | rank 1 holds eight white pawns and nothing else |
| StartingLayout.RankCount2 | src/board.cpp:11 | rank 2 holds eight empty squares |
| StartingLayout.RankCount3 | src/board.cpp:10 | rank 3 holds seven empty squares and one white pawn |
| StartingLayout.RankCount4 | src/board.cpp:9 | rank 4 holds eight empty squares |
| StartingLayout.RankCount5 | src/board.cpp:8 | rank 5 holds eight empty squares |
| StartingLayout.RankCount6 | src/board.cpp:7 | rank 6 holds eight black pawns and nothing else |
| StartingLayout.RankCount7 | src/board.cpp:6 | rank 7 holds two each of black rook, knight and bishop, one black queen and one black king, and nothing else |
| StartingLayout.BoardCensus | src/board.cpp:5-13 | for every occupant, its count over the 64 squares is the starting count: 31 empty, 9 white pawns, 8 black pawns, 2 of each rook, knight and bishop, 1 of each queen and king |
| StartingLayout.PieceCensus | src/board.cpp:5-13 | exactly one white king and one black king, nine white pawns, eight black pawns and 31 empty squares |
| StartingLayout.ColorCensus | src/board.cpp:5-13 | 17 white pieces and 16 black pieces on the board, which with the 31 empty squares accounts for all 64 |

## Left out

- main.cpp is not modelled. It creates the SDL window and renderer, runs the event loop (which only handles quitting) and prints errors with fmt. All of that is I/O.
- piece.hpp is not part of this model. `Piece` is rebuilt from the names board.cpp uses. It has no underlying integer values and no ordering.
- The fmt headers that board.cpp includes are unused by its code and are not modelled.
- ChessBoard.At: the accessor does no bounds check. A rank above 7 wraps `7 - rank` outside the table, and a file above 7 runs off the row. Both are undefined behaviour in C++, so the model requires both indices to be below 8 instead of modelling what such a read returns. `StoredRow` shows that the wrapped row index is out of range.
- The accessor being `const`, the board never changing after construction, and reads being deterministic are not stated as separate lemmas. They hold by construction: a board is an immutable value, and `At` is a pure function of the board and the two indices.
