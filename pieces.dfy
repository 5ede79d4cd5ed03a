/** The occupant of one square: the closed `Piece` enumeration the board stores.
    `NO` is the empty square; every other value is a colour (W or B) and a kind
    (P pawn, N knight, B bishop, R rook, Q queen, K king). No ordering or numeric
    value is attached to the variants. */
module Pieces {

  datatype Piece =
    | NO
    | WP | WN | WB | WR | WQ | WK
    | BP | BN | BB | BR | BQ | BK

  datatype Color = White | Black

  /** The colour of an occupant, or None for the empty square. */
  function ColorOf(p: Piece): (c: Option<Color>)
    ensures c.None? <==> p == NO
  {
    match p
    case NO => None
    case WP | WN | WB | WR | WQ | WK => Some(White)
    case BP | BN | BB | BR | BQ | BK => Some(Black)
  }

  datatype Option<T> = None | Some(value: T)
}
