/** Counting the occupants of a collection of squares, piece by piece and by colour. */
module Census {
  import opened Pieces

  /** One if the square holds `q`, zero otherwise. */
  function Occ(p: Piece, q: Piece): nat { if p == q then 1 else 0 }

  /** How many of the squares hold `q`. */
  function Count(s: seq<Piece>, q: Piece): (n: nat)
    ensures n <= |s|
  {
    if s == [] then 0 else Count(s[..|s| - 1], q) + Occ(s[|s| - 1], q)
  }

  /** Counting two runs of squares one after the other adds their counts. */
  lemma {:induction false} CountAppend(a: seq<Piece>, b: seq<Piece>, q: Piece)
    ensures Count(a + b, q) == Count(a, q) + Count(b, q)
  {
    if b == [] {
      assert a + b == a;
    } else {
      var c := b[..|b| - 1];
      CountAppend(a, c, q);
      assert (a + b)[..|a + b| - 1] == a + c;
    }
  }

  /** The count over one rank is the sum over its eight files. */
  lemma {:induction false} CountEight(s: seq<Piece>, q: Piece)
    requires |s| == 8
    ensures Count(s, q) == Occ(s[0], q) + Occ(s[1], q) + Occ(s[2], q) + Occ(s[3], q)
                         + Occ(s[4], q) + Occ(s[5], q) + Occ(s[6], q) + Occ(s[7], q)
  {
    assert s[..8] == s;
    forall k | 0 <= k < 8
      ensures Count(s[..k + 1], q) == Count(s[..k], q) + Occ(s[k], q)
    {
      assert s[..k + 1][..k] == s[..k];
    }
    assert s[..0] == [];
  }

  /** The count of `q` is its multiplicity among the squares. */
  lemma {:induction false} CountIsMultiplicity(s: seq<Piece>, q: Piece)
    ensures Count(s, q) == multiset(s)[q]
  {
    if s != [] {
      var init := s[..|s| - 1];
      CountIsMultiplicity(init, q);
      assert s == init + [s[|s| - 1]];
    }
  }

  /** How many of the squares hold a piece of colour `c`. */
  function ColorCount(s: seq<Piece>, c: Color): nat {
    match c
    case White => Count(s, WP) + Count(s, WN) + Count(s, WB) + Count(s, WR) + Count(s, WQ) + Count(s, WK)
    case Black => Count(s, BP) + Count(s, BN) + Count(s, BB) + Count(s, BR) + Count(s, BQ) + Count(s, BK)
  }

  /** One more square raises the count of its own colour by one and leaves the
      other colour's count as it was. */
  lemma ColorCountLast(s: seq<Piece>, c: Color)
    requires s != []
    ensures ColorCount(s, c) == ColorCount(s[..|s| - 1], c) + (if ColorOf(s[|s| - 1]) == Some(c) then 1 else 0)
  {
  }

  /** Every square holds exactly one occupant: a white piece, a black piece or
      the empty value, so the three counts add up to the number of squares. */
  lemma {:induction false} Partition(s: seq<Piece>)
    ensures ColorCount(s, White) + ColorCount(s, Black) + Count(s, NO) == |s|
  {
    if s != [] {
      var init := s[..|s| - 1];
      Partition(init);
      ColorCountLast(s, White);
      ColorCountLast(s, Black);
    }
  }
}
