/**
 The square grid that particle state lives on.

 N particles are stored in a `side x side` texture, `side = sqrt(N)`, filled
 row-major: particle `i` occupies column `i mod side` of row `i div side`.
 This module holds the integer facts behind that layout: the square root the
 texture size comes from, and the ordinal <-> (column, row) bijection.
 */
module Layout {

  /** One texel position of a `side x side` texture. */
  datatype Texel = Texel(col: nat, row: nat)

  function Square(n: nat): nat {
    n * n
  }

  lemma {:induction false} SquareMonotone(a: nat, b: nat)
    requires a <= b
    ensures Square(a) <= Square(b)
  {
    assert a * a <= a * b by {
      MulLeftMonotone(a, a, b);
    }
    assert a * b <= b * b by {
      MulLeftMonotone(b, a, b);
    }
  }

  lemma {:induction false} MulLeftMonotone(k: nat, a: nat, b: nat)
    requires a <= b
    ensures a * k <= b * k
  {
    assert b * k == a * k + (b - a) * k;
  }

  /** Search upwards from `r` for the integer square root of `n`. */
  function SqrtFrom(n: nat, r: nat): (s: nat)
    requires Square(r) <= n
    ensures r <= s
    ensures Square(s) <= n < Square(s + 1)
    decreases n - r
  {
    if n < Square(r + 1) then r
    else
      assert r + 1 <= Square(r + 1);
      SqrtFrom(n, r + 1)
  }

  /** The integer square root: what `Math.sqrt` returns on a perfect square. */
  function Sqrt(n: nat): (s: nat)
    ensures Square(s) <= n < Square(s + 1)
  {
    SqrtFrom(n, 0)
  }

  /** `n` is a perfect square, so `Math.sqrt(n)` is an exact integer. */
  predicate IsSquare(n: nat) {
    Square(Sqrt(n)) == n
  }

  /** The root of a square is the number that was squared. */
  lemma {:induction false} SqrtOfSquare(s: nat)
    ensures Sqrt(Square(s)) == s
  {
    var r := Sqrt(Square(s));
    SquareBetween(r, s);
  }

  /** A square lies between `r*r` and `(r+1)*(r+1)` only for its own root `r`. */
  lemma {:induction false} SquareBetween(r: nat, s: nat)
    requires Square(r) <= Square(s) < Square(r + 1)
    ensures r == s
  {
    if r < s {
      SquareMonotone(r + 1, s);
    } else if r > s {
      SquareMonotone(s + 1, r);
    }
  }

  /** `IsSquare` holds exactly of the numbers that are some natural's square. */
  lemma IsSquareIffSomeRoot(n: nat)
    ensures IsSquare(n) <==> exists s: nat :: Square(s) == n
  {
    if exists s: nat :: Square(s) == n {
      var s: nat :| Square(s) == n;
      SqrtOfSquare(s);
    }
  }

  lemma {:induction false} DivModUnique(n: nat, side: nat, row: nat, col: nat)
    requires col < side
    requires n == row * side + col
    ensures n / side == row
    ensures n % side == col
  {
    var q := n / side;
    var m := n % side;
    assert n == q * side + m;
    if q < row {
      MulLeftMonotone(side, q + 1, row);
      assert false;
    } else if q > row {
      MulLeftMonotone(side, row + 1, q);
      assert false;
    }
  }

  predicate InGrid(t: Texel, side: nat) {
    t.col < side && t.row < side
  }

  /** The set of all texels of a `side x side` texture. */
  function Grid(side: nat): (g: set<Texel>)
    ensures forall t: Texel :: t in g <==> InGrid(t, side)
  {
    set col: nat, row: nat | col < side && row < side :: Texel(col, row)
  }

  /** The texel particle `i` occupies: column `i mod side`, row `i div side`. */
  function TexelOf(i: nat, side: nat): (t: Texel)
    requires side > 0
    ensures t.col < side
    ensures t.row * side + t.col == i
  {
    Texel(i % side, i / side)
  }

  /** The row-major position of a texel: the ordinal of the particle it holds. */
  function OrdinalOf(t: Texel, side: nat): (i: nat)
    ensures InGrid(t, side) ==> i < Square(side)
  {
    OrdinalBelowSquare(t, side);
    t.row * side + t.col
  }

  /** The row-major position of a grid texel is below `side * side`. */
  lemma {:induction false} OrdinalBelowSquare(t: Texel, side: nat)
    ensures InGrid(t, side) ==> t.row * side + t.col < Square(side)
  {
    if InGrid(t, side) {
      MulLeftMonotone(side, t.row + 1, side);
    }
  }

  /** Every ordinal below `side * side` lands on the grid, and row-major
      position undoes the split into column and row. */
  lemma {:induction false} TexelOfInGrid(i: nat, side: nat)
    requires i < Square(side)
    ensures side > 0
    ensures InGrid(TexelOf(i, side), side)
    ensures OrdinalOf(TexelOf(i, side), side) == i
  {
    var t := TexelOf(i, side);
    if side <= t.row {
      MulLeftMonotone(side, side, t.row);
      assert false;
    }
  }

  /** Splitting the row-major position of a grid texel gives the texel back. */
  lemma {:induction false} TexelOfOrdinalOf(t: Texel, side: nat)
    requires InGrid(t, side)
    ensures TexelOf(OrdinalOf(t, side), side) == t
  {
    DivModUnique(OrdinalOf(t, side), side, t.row, t.col);
  }

  /** No two particles share a texel. */
  lemma {:induction false} TexelOfInjective(i: nat, j: nat, side: nat)
    requires side > 0
    requires TexelOf(i, side) == TexelOf(j, side)
    ensures i == j
  {
  }

  /** Every texel of the grid holds some particle. */
  lemma {:induction false} TexelOfSurjective(t: Texel, side: nat)
    requires InGrid(t, side)
    ensures exists i: nat :: i < Square(side) && TexelOf(i, side) == t
  {
    TexelOfOrdinalOf(t, side);
    assert TexelOf(OrdinalOf(t, side), side) == t;
  }

  /** The ordinals `0 .. side*side-1` are mapped exactly onto the grid. */
  lemma {:induction false} TexelOfImageIsGrid(side: nat)
    ensures (set i: nat | i < Square(side) :: TexelOf(i, side)) == Grid(side)
  {
    var image := set i: nat | i < Square(side) :: TexelOf(i, side);
    forall t | t in image
      ensures t in Grid(side)
    {
      var i: nat :| i < Square(side) && TexelOf(i, side) == t;
      TexelOfInGrid(i, side);
    }
    forall t | t in Grid(side)
      ensures t in image
    {
      TexelOfOrdinalOf(t, side);
    }
  }
}
