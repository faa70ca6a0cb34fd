/**
 The particle state of `modules/particle.js`, used by the physics variant.

 There are `2048 ** 2` particles on a 2048 x 2048 state texture. Each
 particle's texel holds its position (x, y) and its velocity (x, y); the
 positions are drawn at random over the canvas, two samples per particle in
 the order x, y, and the velocities start at zero.
 */
module Particles {
  import opened Layout
  import opened DataTexture
  import opened Sampling
  import IndexBuffer

  /** `NUM_PARTICLES = 2048 ** 2`. */
  const NumParticles: nat := 2048 * 2048

  /** `NUM_PARTICLES_SQRT = Math.sqrt(NUM_PARTICLES)`: the texture's side length. */
  const NumParticlesSqrt: nat := Sqrt(NumParticles)

  /** The particle count is a perfect square with root 2048, so the texture
      and index arithmetic are exact. */
  lemma {:induction false} NumParticlesIsSquare()
    ensures NumParticlesSqrt == 2048
    ensures Square(NumParticlesSqrt) == NumParticles
    ensures IsSquare(NumParticles)
  {
    SqrtOfSquare(2048);
  }

  /** The texel of one particle: a random position and zero velocity. */
  function StateTexel(rx: real, ry: real, width: nat, height: nat): (p: Rgba)
    requires 0.0 <= rx < 1.0 && 0.0 <= ry < 1.0
    ensures 0.0 <= p.r <= width as real && (width > 0 ==> p.r < width as real)
    ensures 0.0 <= p.g <= height as real && (height > 0 ==> p.g < height as real)
    ensures p.b == 0.0 && p.a == 0.0
  {
    Rgba(ScaleToExtent(rx, width), ScaleToExtent(ry, height), 0.0, 0.0)
  }

  /** `data` holds the initial state of every particle, generated from `samples`. */
  predicate IsStateData(data: seq<real>, width: nat, height: nat, samples: seq<real>)
    requires |samples| == 2 * NumParticles
    requires UnitSamples(samples)
  {
    && |data| == 4 * NumParticles
    && forall i: nat :: i < NumParticles ==>
         TexelAt(data, i) == StateTexel(samples[2 * i], samples[2 * i + 1], width, height)
  }

  /** The index buffer for all `NUM_PARTICLES` particles. */
  method GenerateParticleIndex() returns (data: seq<real>)
    ensures |data| == 2 * NumParticles
    ensures IndexBuffer.IsIndexBuffer(data, NumParticles, NumParticlesSqrt)
  {
    NumParticlesIsSquare();
    data := IndexBuffer.GenerateParticleIndex(NumParticles);
  }

  /** Generates the initial state: x, y, then zero x and y velocity per particle. */
  method GenerateParticleData(width: nat, height: nat, samples: seq<real>) returns (data: seq<real>)
    requires |samples| == 2 * NumParticles
    requires UnitSamples(samples)
    ensures IsStateData(data, width, height, samples)
    ensures forall i: nat :: i < NumParticles ==> 0.0 <= TexelAt(data, i).r && (width > 0 ==> TexelAt(data, i).r < width as real)
    ensures forall i: nat :: i < NumParticles ==> 0.0 <= TexelAt(data, i).g && (height > 0 ==> TexelAt(data, i).g < height as real)
    ensures forall i: nat :: i < NumParticles ==> TexelAt(data, i).b == 0.0 && TexelAt(data, i).a == 0.0
  {
    data := [];
    var i := 0;
    while i < NumParticles
      invariant i <= NumParticles
      invariant |data| == 4 * i
      invariant forall k: nat :: k < i ==>
        TexelAt(data, k) == StateTexel(samples[2 * k], samples[2 * k + 1], width, height)
    {
      var x := samples[2 * i] * width as real;
      var y := samples[2 * i + 1] * height as real;
      var block := [x, y, 0.0, 0.0];
      assert TexelAt(data + block, i) == StateTexel(samples[2 * i], samples[2 * i + 1], width, height);
      forall k: nat | k < i
        ensures TexelAt(data + block, k) == TexelAt(data, k)
      {
      }
      data := data + block;
      i := i + 1;
    }
  }

  /** The state texture: `NUM_PARTICLES_SQRT` texels square, filled exactly by the data. */
  method GenerateParticleDataTexture(width: nat, height: nat, samples: seq<real>) returns (state: Texture)
    requires |samples| == 2 * NumParticles
    requires UnitSamples(samples)
    ensures state.dimension == NumParticlesSqrt == 2048
    ensures Filled(state)
    ensures IsStateData(state.data, width, height, samples)
  {
    NumParticlesIsSquare();
    var data := GenerateParticleData(width, height, samples);
    state := Texture(NumParticlesSqrt, data);
  }

  /** Layout agreement: sampling the state texture at particle `i`'s index
      entry yields the position and velocity generated for particle `i`. */
  lemma {:induction false} IndexNamesState(index: seq<real>, state: Texture, width: nat, height: nat, samples: seq<real>, i: nat)
    requires |samples| == 2 * NumParticles
    requires UnitSamples(samples)
    requires IndexBuffer.IsIndexBuffer(index, NumParticles, NumParticlesSqrt)
    requires state.dimension == NumParticlesSqrt
    requires IsStateData(state.data, width, height, samples)
    requires i < NumParticles
    ensures Filled(state)
    ensures Sample(state, IndexBuffer.EntryAt(index, i).0, IndexBuffer.EntryAt(index, i).1)
      == StateTexel(samples[2 * i], samples[2 * i + 1], width, height)
  {
    NumParticlesIsSquare();
    IndexBuffer.IndexEntrySamplesParticle(index, state.data, NumParticlesSqrt, i);
  }
}
