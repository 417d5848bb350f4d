/** The pseudo-random streams of the demo (a seeded `np.random.RandomState`,
    and numpy's global generator). A stream is modelled as the sequence of
    its unit samples: `draws(k)` is the k-th number the generator produces.
    The generator's internals are not part of this model. */
module Random {
  /** An endless stream of unit samples, indexed from the generator's start. */
  type Stream = nat -> real

  /** `uniform(lo, hi)` as numpy defines it: `lo + (hi - lo) * u` for the
      next unit sample `u`. */
  function Uniform(lo: real, hi: real, u: real): (r: real)
    ensures lo <= hi && 0.0 <= u <= 1.0 ==> lo <= r <= hi
    ensures u == 0.0 ==> r == lo
  {
    UnitScaleBounds(hi - lo, u);
    lo + (hi - lo) * u
  }

  lemma UnitScaleBounds(w: real, u: real)
    ensures w >= 0.0 && 0.0 <= u <= 1.0 ==> 0.0 <= w * u <= w
  {
    if w >= 0.0 && 0.0 <= u <= 1.0 {
      assert w * u <= w * 1.0;
    }
  }

  /** Every sample of the stream lies in [0, 1), as numpy's `random_sample`
      promises. */
  ghost predicate UnitStream(draws: Stream) {
    forall k: nat :: 0.0 <= draws(k) < 1.0
  }
}
