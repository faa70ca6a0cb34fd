/**
 Random samples as the particle generators consume them.

 The generators call `Math.random()`, which returns a number in `[0, 1)`.
 Here those calls are replaced by a sequence of samples supplied by the
 caller, consumed in call order, and every sample is known to lie in `[0, 1)`.
 */
module Sampling {

  /** Every sample is a value `Math.random()` can return. */
  predicate UnitSamples(samples: seq<real>) {
    forall k :: 0 <= k < |samples| ==> 0.0 <= samples[k] < 1.0
  }

  /** `Math.random() * extent`: a uniform position along an axis `extent` pixels long. */
  function ScaleToExtent(r: real, extent: nat): (x: real)
    requires 0.0 <= r < 1.0
    ensures 0.0 <= x <= extent as real
    ensures extent > 0 ==> x < extent as real
    ensures extent == 0 ==> x == 0.0
  {
    ProductBelow(r, extent as real);
    r * extent as real
  }

  lemma ProductBelow(r: real, e: real)
    requires 0.0 <= r < 1.0
    requires 0.0 <= e
    ensures 0.0 <= r * e <= e
    ensures 0.0 < e ==> r * e < e
  {
    assert e - r * e == (1.0 - r) * e;
  }
}
