/**
 * The seeded linear congruential generator behind `seededRandom`
 * (js/sakura-tree.js): `s := (s * 9301 + 49297) % 233280`, returning
 * `s / 233280`. The seed field starts at 12345 and is only ever assigned that
 * constant or this step applied to itself, so it is never negative and the
 * truncating `%` of JavaScript agrees with Dafny's.
 */
module SakuraRandom {

  const Multiplier: nat := 9301
  const Increment: nat := 49297
  const Modulus: nat := 233280

  /** `this.seed`: the fixed seed that keeps the tree's shape stable. */
  const TreeSeed: nat := 12345

  /** The state `seededRandom` leaves behind when called in state `s`. */
  function NextSeed(s: nat): (r: nat)
    ensures r < Modulus
  {
    (s * 9301 + 49297) % 233280
  }

  /** The value `seededRandom` returns when called in state `s`. */
  function Draw(s: nat): (r: real)
    ensures 0.0 <= r < 1.0
    ensures r * Modulus as real == NextSeed(s) as real
  {
    NextSeed(s) as real / 233280.0
  }

  /** The state after `k` calls. */
  function SeedAfter(s: nat, k: nat): nat {
    if k == 0 then s else NextSeed(SeedAfter(s, k - 1))
  }

  /** However many calls are made, the state stays in `[0, 233280)` once one call has been made. */
  lemma {:induction false} SeedStaysInRange(s: nat, k: nat)
    requires k >= 1
    ensures SeedAfter(s, k) < Modulus
    ensures 0.0 <= SeedAfter(s, k) as real / Modulus as real < 1.0
  {
    assert SeedAfter(s, k) == NextSeed(SeedAfter(s, k - 1));
  }

  /** Distinct states in range step to distinct states: `seededRandom` never merges two seeds. */
  lemma NextSeedInjective(a: nat, b: nat)
    requires a < Modulus && b < Modulus && NextSeed(a) == NextSeed(b)
    ensures a == b
  {
    var x, y := a * Multiplier + Increment, b * Multiplier + Increment;
    var q := x / Modulus - y / Modulus;
    assert x - y == q * Modulus;
    var dif := a - b;
    assert dif * Multiplier == q * Modulus;
    // 9301 * 123901 == 1 + 4940 * 233280: 123901 is the multiplier's inverse
    assert Multiplier * 123901 == 1 + 4940 * Modulus;
    calc {
      dif;
      dif * (Multiplier * 123901) - dif * 4940 * Modulus;
      (dif * Multiplier) * 123901 - dif * 4940 * Modulus;
      (q * Modulus) * 123901 - dif * 4940 * Modulus;
      (q * 123901 - dif * 4940) * Modulus;
    }
    var m := q * 123901 - dif * 4940;
    assert dif == m * Modulus;
  }
}
