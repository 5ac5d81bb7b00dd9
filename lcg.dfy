/** The draw used by settlement: one step of the Numerical Recipes linear
    congruential generator, computed on 64-bit words with wrapping multiply
    and add and then reduced modulo 2^32, and the result taken modulo 10000. */
module RandomDraw {

  const TWO_32: int := 0x1_0000_0000
  const TWO_64: int := 0x1_0000_0000_0000_0000

  type U64 = x: int | 0 <= x < 0x1_0000_0000_0000_0000

  /** The generator's multiplier and increment. */
  const MULTIPLIER: U64 := 1664525
  const INCREMENT: U64 := 1013904223

  /** The draw scale: one unit is a hundredth of a percent. */
  const SCALE: nat := 10000

  /** u64::wrapping_mul and u64::wrapping_add. */
  function WrappingMul(x: U64, y: U64): U64 { (x * y) % TWO_64 }
  function WrappingAdd(x: U64, y: U64): U64 { (x + y) % TWO_64 }

  /** The mathematical recurrence state' = (a * state + c) mod 2^32. */
  function LcgStep(state: U64): (next: U64)
    ensures next < TWO_32
  {
    (MULTIPLIER * state + INCREMENT) % TWO_32
  }

  /** Reducing modulo 2^64 first does not change a value modulo 2^32, since
      2^32 divides 2^64. */
  lemma {:induction false} ModTwo64ThenTwo32(x: int)
    ensures (x % TWO_64) % TWO_32 == x % TWO_32
  {
    var q := x / TWO_64;
    assert x == q * TWO_64 + x % TWO_64;
    assert q * TWO_64 == (q * TWO_32) * TWO_32;
    ModMultipleAdd(q * TWO_32, x % TWO_64);
  }

  lemma {:induction false} ModMultipleAdd(k: int, r: int)
    ensures (k * TWO_32 + r) % TWO_32 == r % TWO_32
  {
    var n := k * TWO_32 + r;
    assert n == (k + r / TWO_32) * TWO_32 + r % TWO_32;
  }

  /** The wrapping 64-bit computation reduced modulo 2^32 equals the
      mathematical recurrence: the u64 wrap-around never shows in the draw. */
  lemma {:induction false} WrappingStepAgrees(state: U64)
    ensures WrappingAdd(WrappingMul(MULTIPLIER, state), INCREMENT) % TWO_32 == LcgStep(state)
  {
    var p := MULTIPLIER * state;
    var w := WrappingMul(MULTIPLIER, state);
    ModTwo64ThenTwo32(w + INCREMENT);
    // w + c and p + c differ by a multiple of 2^64, hence of 2^32
    var q := p / TWO_64;
    assert w == p - q * TWO_64;
    assert (w + INCREMENT) + (q * TWO_32) * TWO_32 == p + INCREMENT;
    ModMultipleAdd(q * TWO_32, w + INCREMENT);
  }

  /** `Lcg` of the source: a generator whose `Next` advances its state. */
  class Lcg {
    var state: U64

    constructor (seed: U64)
      ensures state == seed
    {
      state := seed;
    }

    method Next() returns (value: U64)
      modifies this
      ensures state == LcgStep(old(state))
      ensures value == state
    {
      var a: U64 := MULTIPLIER;
      var c: U64 := INCREMENT;
      var m: U64 := TWO_32;
      WrappingStepAgrees(state);
      state := WrappingAdd(WrappingMul(a, state), c) % m;
      value := state;
    }
  }

  /** The draw value of a seed: the generator's first output modulo 10000. */
  function Draw(seed: U64): (d: nat)
    ensures d < SCALE
  {
    LcgStep(seed) % SCALE
  }

  /** `generate_random_value`: a fresh generator seeded with `seed`, advanced
      once, its output reduced to the draw scale. */
  method GenerateRandomValue(seed: U64) returns (value: nat)
    ensures value == ((MULTIPLIER * seed + INCREMENT) % TWO_32) % SCALE
    ensures value == Draw(seed) && value < SCALE
  {
    var lcg := new Lcg(seed);
    var timestamp := lcg.Next();
    value := timestamp % SCALE;
  }
}
