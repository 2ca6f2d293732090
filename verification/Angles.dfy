/** Angles in radians, over exact reals. */
module Angles {
  /** `std::numbers::pi_v<float>`: 13176795 / 2^22. */
  const PI: real := 13176795.0 / 4194304.0
  const TWO_PI: real := 2.0 * PI

  function Abs(x: real): real { if x < 0.0 then -x else x }

  /** The integer nearest to zero when the fraction is dropped. */
  function Trunc(x: real): int { if x >= 0.0 then x.Floor else -((-x).Floor) }

  function Turns(k: int): real { TWO_PI * k as real }

  /** `std::fmod(x, 2 pi)`: the sign of the result follows `x`. */
  function Fmod(x: real): real { x - Turns(Trunc(x / TWO_PI)) }

  lemma FmodRange(x: real)
    ensures x >= 0.0 ==> 0.0 <= Fmod(x) < TWO_PI
    ensures x <= 0.0 ==> -TWO_PI < Fmod(x) <= 0.0
  {
    var q := x / TWO_PI;
    assert q * TWO_PI == x;
    var k := Trunc(q);
    if x >= 0.0 {
      assert k as real <= q < k as real + 1.0;
    } else {
      assert q < 0.0 && k as real - 1.0 < q <= k as real;
    }
  }

  /** Equal up to whole turns. */
  ghost predicate Congruent(a: real, b: real) { exists k: int :: a == b + Turns(k) }

  lemma CongruentBy(a: real, b: real, k: int)
    requires a == b + Turns(k)
    ensures Congruent(a, b)
  {}
}
