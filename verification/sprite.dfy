/**
 The single-texture point-sprite set-up of `main.js`.

 Each particle's texel holds its x position, its y position and its point
 size; the fourth channel is unused and set to zero. Three random samples are
 drawn per particle, in the order x, y, size. The page creates 1024 particles,
 so the state texture is 32 x 32.
 */
module SpriteDemo {
  import opened Layout
  import opened DataTexture
  import opened Sampling
  import IndexBuffer

  /** The number of particles `main` creates. */
  const ParticleCount: nat := 1024

  function Pow2(n: nat): (p: nat)
    ensures p > 0
  {
    if n == 0 then 1 else 2 * Pow2(n - 1)
  }

  /** `2 ** (floor(r * 4) + 1)`: each quarter of `[0, 1)` picks one of four sizes. */
  function PointSize(r: real): (s: real)
    requires 0.0 <= r < 1.0
    ensures s == 2.0 <==> r < 0.25
    ensures s == 4.0 <==> 0.25 <= r < 0.5
    ensures s == 8.0 <==> 0.5 <= r < 0.75
    ensures s == 16.0 <==> 0.75 <= r
  {
    var quarter := (r * 4.0).Floor;
    assert 0 <= quarter < 4;
    QuarterSize(r, quarter);
    Pow2(quarter + 1) as real
  }

  lemma QuarterSize(r: real, quarter: nat)
    requires 0.0 <= r < 1.0
    requires quarter == (r * 4.0).Floor
    ensures quarter == 0 <==> r < 0.25
    ensures quarter == 1 <==> 0.25 <= r < 0.5
    ensures quarter == 2 <==> 0.5 <= r < 0.75
    ensures quarter == 3 <==> 0.75 <= r
    ensures Pow2(quarter + 1) == [2, 4, 8, 16][quarter]
  {
    assert Pow2(1) == 2 && Pow2(2) == 4 && Pow2(3) == 8 && Pow2(4) == 16;
  }

  /** The texel of one particle, from its three samples. */
  function SpriteTexel(rx: real, ry: real, rs: real, width: nat, height: nat): (p: Rgba)
    requires 0.0 <= rx < 1.0 && 0.0 <= ry < 1.0 && 0.0 <= rs < 1.0
    ensures 0.0 <= p.r <= width as real && (width > 0 ==> p.r < width as real)
    ensures 0.0 <= p.g <= height as real && (height > 0 ==> p.g < height as real)
    ensures p.b in {2.0, 4.0, 8.0, 16.0}
    ensures p.a == 0.0
  {
    Rgba(ScaleToExtent(rx, width), ScaleToExtent(ry, height), PointSize(rs), 0.0)
  }

  /** `data` holds the texels of `count` particles generated from `samples`. */
  predicate IsSpriteData(data: seq<real>, count: nat, width: nat, height: nat, samples: seq<real>)
    requires |samples| == 3 * count
    requires UnitSamples(samples)
  {
    && |data| == 4 * count
    && forall i: nat :: i < count ==>
         TexelAt(data, i) == SpriteTexel(samples[3 * i], samples[3 * i + 1], samples[3 * i + 2], width, height)
  }

  /** Generates the particle data: x, y, point size and a zero per particle. */
  method GenerateParticleData(count: nat, width: nat, height: nat, samples: seq<real>) returns (data: seq<real>)
    requires |samples| == 3 * count
    requires UnitSamples(samples)
    ensures IsSpriteData(data, count, width, height, samples)
    ensures forall i: nat :: i < count ==> 0.0 <= TexelAt(data, i).r && (width > 0 ==> TexelAt(data, i).r < width as real)
    ensures forall i: nat :: i < count ==> 0.0 <= TexelAt(data, i).g && (height > 0 ==> TexelAt(data, i).g < height as real)
    ensures forall i: nat :: i < count ==> TexelAt(data, i).b in {2.0, 4.0, 8.0, 16.0}
    ensures forall i: nat :: i < count ==> TexelAt(data, i).a == 0.0
  {
    data := [];
    var i := 0;
    while i < count
      invariant i <= count
      invariant |data| == 4 * i
      invariant forall k: nat :: k < i ==>
        TexelAt(data, k) == SpriteTexel(samples[3 * k], samples[3 * k + 1], samples[3 * k + 2], width, height)
    {
      var x := samples[3 * i] * width as real;
      var y := samples[3 * i + 1] * height as real;
      var size := Pow2((samples[3 * i + 2] * 4.0).Floor + 1) as real;
      var block := [x, y, size, 0.0];
      assert TexelAt(data + block, i) == SpriteTexel(samples[3 * i], samples[3 * i + 1], samples[3 * i + 2], width, height);
      forall k: nat | k < i
        ensures TexelAt(data + block, k) == TexelAt(data, k)
      {
      }
      data := data + block;
      i := i + 1;
    }
  }

  /** What `main` uploads: the index buffer and the 32 x 32 particle texture. */
  method Setup(width: nat, height: nat, samples: seq<real>) returns (index: seq<real>, particles: Texture)
    requires |samples| == 3 * ParticleCount
    requires UnitSamples(samples)
    ensures particles.dimension == 32
    ensures |index| == 2 * ParticleCount
    ensures Filled(particles)
    ensures forall i: nat :: i < ParticleCount ==>
      Sample(particles, IndexBuffer.EntryAt(index, i).0, IndexBuffer.EntryAt(index, i).1)
        == SpriteTexel(samples[3 * i], samples[3 * i + 1], samples[3 * i + 2], width, height)
  {
    SqrtOfSquare(32);
    index := IndexBuffer.GenerateParticleIndex(ParticleCount);
    var data := GenerateParticleData(ParticleCount, width, height, samples);
    particles := Texture(Sqrt(ParticleCount), data);
    forall i: nat | i < ParticleCount
      ensures Sample(particles, IndexBuffer.EntryAt(index, i).0, IndexBuffer.EntryAt(index, i).1)
        == SpriteTexel(samples[3 * i], samples[3 * i + 1], samples[3 * i + 2], width, height)
    {
      IndexBuffer.IndexEntrySamplesParticle(index, data, 32, i);
    }
  }
}
