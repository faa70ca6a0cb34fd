/**
 The particle index buffer.

 The render pass draws one point per particle and needs to know where in the
 state texture that particle's texel lies. `generateParticleIndex` precomputes
 this once: for ordinal `i` it stores the texture coordinate
 `(step * (i mod side), step * (i div side))` with `step = 1 / side`, as two
 consecutive floats at offsets `2i` and `2i + 1` of a flat array.
 */
module IndexBuffer {
  import opened Layout
  import opened DataTexture

  /** The texture coordinate stored for particle `i`: whole multiples of
      `1 / side` that scale back to the particle's column and row. */
  function IndexEntry(i: nat, side: nat): (uv: (real, real))
    requires side > 0
    ensures uv.0 * side as real == (i % side) as real
    ensures uv.1 * side as real == (i / side) as real
    ensures 0.0 <= uv.0 < 1.0
  {
    CornerScalesBack(i % side, side);
    CornerScalesBack(i / side, side);
    CornerInUnit(i % side, side);
    (Corner(i % side, side), Corner(i / side, side))
  }

  /** The pair of floats at offsets `2i` and `2i + 1`. */
  function EntryAt(data: seq<real>, i: nat): (real, real)
    requires 2 * i + 2 <= |data|
  {
    (data[2 * i], data[2 * i + 1])
  }

  /** `data` is the index buffer of `count` particles on a texture `side` texels wide. */
  predicate IsIndexBuffer(data: seq<real>, count: nat, side: nat) {
    && side > 0
    && |data| == 2 * count
    && forall i: nat :: i < count ==> EntryAt(data, i) == IndexEntry(i, side)
  }

  /** Builds the index buffer for `count` particles, `count` a perfect square. */
  method GenerateParticleIndex(count: nat) returns (data: seq<real>)
    requires IsSquare(count)
    ensures |data| == 2 * count
    ensures count > 0 ==> IsIndexBuffer(data, count, Sqrt(count))
  {
    data := [];
    var rowLength := Sqrt(count);
    if rowLength == 0 {
      // No particles: the loop below would not run.
      return;
    }
    var step := 1.0 / rowLength as real;
    var i := 0;
    while i < count
      invariant i <= count
      invariant |data| == 2 * i
      invariant forall k: nat :: k < i ==> EntryAt(data, k) == IndexEntry(k, rowLength)
    {
      var block := [step * (i % rowLength) as real, step * (i / rowLength) as real];
      assert block[0] == Corner(i % rowLength, rowLength);
      assert block[1] == Corner(i / rowLength, rowLength);
      assert (data + block)[2 * i] == block[0] && (data + block)[2 * i + 1] == block[1];
      assert EntryAt(data + block, i) == IndexEntry(i, rowLength);
      forall k: nat | k < i
        ensures EntryAt(data + block, k) == IndexEntry(k, rowLength)
      {
        assert EntryAt(data + block, k) == EntryAt(data, k);
      }
      data := data + block;
      i := i + 1;
    }
  }

  /** Both coordinates of a particle's entry lie in `[0, 1)`. */
  lemma {:induction false} IndexEntryInUnitSquare(i: nat, side: nat)
    requires i < Square(side)
    ensures side > 0
    ensures 0.0 <= IndexEntry(i, side).0 < 1.0
    ensures 0.0 <= IndexEntry(i, side).1 < 1.0
  {
    TexelOfInGrid(i, side);
    CornerInUnit(i % side, side);
    CornerInUnit(i / side, side);
  }

  /** The entry encodes the ordinal row-major: `row * side + column == i`. */
  lemma {:induction false} IndexEntryRowMajor(i: nat, side: nat)
    requires side > 0
    ensures IndexEntry(i, side).1 * side as real * side as real
            + IndexEntry(i, side).0 * side as real == i as real
  {
    var t := TexelOf(i, side);
    assert (t.row * side) as real == t.row as real * side as real;
  }

  /** Nearest sampling at entry `i` selects particle `i`'s texel. */
  lemma {:induction false} IndexEntryNamesTexel(i: nat, side: nat)
    requires i < Square(side)
    ensures side > 0
    ensures NearestTexel(IndexEntry(i, side).0, IndexEntry(i, side).1, side) == TexelOf(i, side)
  {
    TexelOfInGrid(i, side);
    NearestTexelOfCorner(TexelOf(i, side), side);
  }

  /** Different particles get different texture coordinates. */
  lemma {:induction false} IndexEntriesDistinct(i: nat, j: nat, side: nat)
    requires i < Square(side) && j < Square(side)
    requires i != j
    ensures side > 0
    ensures IndexEntry(i, side) != IndexEntry(j, side)
  {
    IndexEntryNamesTexel(i, side);
    IndexEntryNamesTexel(j, side);
    if IndexEntry(i, side) == IndexEntry(j, side) {
      TexelOfInjective(i, j, side);
    }
  }

  /** Every texel of the texture is named by some particle's entry. */
  lemma {:induction false} IndexEntriesCoverGrid(t: Texel, side: nat)
    requires InGrid(t, side)
    ensures exists i: nat ::
      (i < Square(side) && NearestTexel(IndexEntry(i, side).0, IndexEntry(i, side).1, side) == t)
  {
    var i := OrdinalOf(t, side);
    TexelOfOrdinalOf(t, side);
    IndexEntryNamesTexel(i, side);
  }

  /** Layout agreement: sampling a `side x side` data texture at particle `i`'s
      index entry returns the block of four floats written at offset `4i`. */
  lemma {:induction false} IndexEntrySamplesParticle(index: seq<real>, data: seq<real>, side: nat, i: nat)
    requires IsIndexBuffer(index, Square(side), side)
    requires |data| == 4 * Square(side)
    requires i < Square(side)
    ensures Sample(Texture(side, data), EntryAt(index, i).0, EntryAt(index, i).1) == TexelAt(data, i)
  {
    IndexEntryNamesTexel(i, side);
    TexelOfInGrid(i, side);
    assert EntryAt(index, i) == IndexEntry(i, side);
  }
}
