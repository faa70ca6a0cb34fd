/**
 A square RGBA float data texture, as `makeDataTexture` creates it.

 The texture is uploaded from a flat array of floats with format RGBA and
 type FLOAT, `dimension` texels wide and `dimension` texels high. WebGL reads
 such an array row-major with four floats per texel, so texel `k` in row-major
 order is the block of four floats starting at offset `4k`. The texture is
 sampled with NEAREST filtering and CLAMP_TO_EDGE wrapping on both axes.
 */
module DataTexture {
  import opened Layout

  /** The four channels of one texel. */
  datatype Rgba = Rgba(r: real, g: real, b: real, a: real)

  /** A texture of `dimension x dimension` texels over the flat float array `data`. */
  datatype Texture = Texture(dimension: nat, data: seq<real>)

  /** The texel whose four floats start at offset `4k` of a flat array. */
  function TexelAt(data: seq<real>, k: nat): Rgba
    requires 4 * k + 4 <= |data|
  {
    Rgba(data[4 * k], data[4 * k + 1], data[4 * k + 2], data[4 * k + 3])
  }

  /** The array holds exactly one RGBA block for every texel of the texture. */
  predicate Filled(tex: Texture) {
    |tex.data| == 4 * Square(tex.dimension)
  }

  /** The contents of texel `t`: the block at its row-major position. */
  function Fetch(tex: Texture, t: Texel): (p: Rgba)
    requires Filled(tex)
    requires InGrid(t, tex.dimension)
    ensures 4 * (t.row * tex.dimension + t.col) + 4 <= |tex.data|
    ensures [p.r, p.g, p.b, p.a]
      == tex.data[4 * (t.row * tex.dimension + t.col) .. 4 * (t.row * tex.dimension + t.col) + 4]
  {
    var k := OrdinalOf(t, tex.dimension);
    assert k < Square(tex.dimension);
    assert k == t.row * tex.dimension + t.col;
    TexelAt(tex.data, k)
  }

  /** Row-major upload: texel `(k mod dim, k div dim)` holds the block at offset `4k`,
      so every block of a filled array lands in exactly one texel. */
  lemma {:induction false} FetchRowMajor(tex: Texture, k: nat)
    requires Filled(tex)
    requires k < Square(tex.dimension)
    ensures tex.dimension > 0
    ensures InGrid(TexelOf(k, tex.dimension), tex.dimension)
    ensures Fetch(tex, TexelOf(k, tex.dimension)) == TexelAt(tex.data, k)
  {
    TexelOfInGrid(k, tex.dimension);
  }

  /** CLAMP_TO_EDGE on one axis: texel indices outside the texture are moved
      to the nearest edge. */
  function ClampToEdge(k: int, dimension: nat): (c: nat)
    requires dimension > 0
    ensures c < dimension
    ensures 0 <= k < dimension ==> c == k
    ensures k < 0 ==> c == 0
    ensures dimension <= k ==> c == dimension - 1
  {
    if k < 0 then 0 else if k >= dimension then dimension - 1 else k
  }

  /** NEAREST filtering: coordinate `(u, v)` selects the texel whose square
      `[col/dim, (col+1)/dim) x [row/dim, (row+1)/dim)` contains it. */
  function NearestTexel(u: real, v: real, dimension: nat): (t: Texel)
    requires dimension > 0
    ensures InGrid(t, dimension)
  {
    Texel(ClampToEdge((u * dimension as real).Floor, dimension),
          ClampToEdge((v * dimension as real).Floor, dimension))
  }

  /** Coordinate `(u, v)` falls in the square of texel `t`:
      `[col/dim, (col+1)/dim) x [row/dim, (row+1)/dim)`. */
  predicate Covers(t: Texel, u: real, v: real, dimension: nat) {
    && t.col as real <= u * dimension as real < t.col as real + 1.0
    && t.row as real <= v * dimension as real < t.row as real + 1.0
  }

  /** What sampling the texture at `(u, v)` returns: the texel whose square
      contains the coordinate, and some texel of the texture in any case. */
  function Sample(tex: Texture, u: real, v: real): (p: Rgba)
    requires Filled(tex)
    requires tex.dimension > 0
    ensures exists t: Texel :: InGrid(t, tex.dimension) && p == Fetch(tex, t)
    ensures forall t: Texel :: InGrid(t, tex.dimension) && Covers(t, u, v, tex.dimension) ==> p == Fetch(tex, t)
  {
    var t := NearestTexel(u, v, tex.dimension);
    NearestTexelContains(u, v, tex.dimension);
    Fetch(tex, t)
  }

  /** The nearest texel is the one whose square contains the coordinate. */
  lemma {:induction false} NearestTexelContains(u: real, v: real, dimension: nat)
    requires dimension > 0
    ensures forall t: Texel :: InGrid(t, dimension) && Covers(t, u, v, dimension) ==> NearestTexel(u, v, dimension) == t
  {
    forall t: Texel | InGrid(t, dimension) && Covers(t, u, v, dimension)
      ensures NearestTexel(u, v, dimension) == t
    {
      assert (u * dimension as real).Floor == t.col;
      assert (v * dimension as real).Floor == t.row;
    }
  }

  /** Texture coordinate of the corner of texel column (or row) `k`:
      `k` steps of `1 / dimension`. */
  function Corner(k: nat, dimension: nat): real
    requires dimension > 0
  {
    (1.0 / dimension as real) * k as real
  }

  /** Scaling a corner coordinate back by the dimension recovers `k`. */
  lemma {:induction false} CornerScalesBack(k: nat, dimension: nat)
    requires dimension > 0
    ensures Corner(k, dimension) * dimension as real == k as real
  {
    ScaleBack(k as real, dimension as real);
    assert Corner(k, dimension) == (1.0 / dimension as real) * k as real;
  }

  /** Corners of texels inside the texture lie in `[0, 1)`. */
  lemma {:induction false} CornerInUnit(k: nat, dimension: nat)
    requires k < dimension
    ensures 0.0 <= Corner(k, dimension) < 1.0
  {
    FractionBelowOne(k as real, dimension as real);
  }

  lemma ScaleBack(c: real, s: real)
    requires s > 0.0
    ensures (1.0 / s) * c * s == c
  {
  }

  lemma FractionBelowOne(c: real, s: real)
    requires 0.0 <= c < s
    ensures 0.0 <= (1.0 / s) * c < 1.0
  {
    var step := 1.0 / s;
    assert step * s == 1.0;
    assert step * (s - c) > 0.0;
    assert step * c + step * (s - c) == step * s;
    var x := step * c;
    assert x < 1.0;
    assert (1.0 / s) * c == x;
  }

  /** Sampling at the corner `(col/dim, row/dim)` of a texel selects that very texel. */
  lemma {:induction false} NearestTexelOfCorner(t: Texel, dimension: nat)
    requires InGrid(t, dimension)
    ensures dimension > 0
    ensures NearestTexel(Corner(t.col, dimension), Corner(t.row, dimension), dimension) == t
  {
    CornerScalesBack(t.col, dimension);
    CornerScalesBack(t.row, dimension);
  }
}
