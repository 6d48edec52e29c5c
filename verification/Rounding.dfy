/** Decimal rounding as the scoring code does it: round half away from zero at a fixed number of decimals.
    float64 is modelled by `real`, so only this explicit rounding step loses precision. */
module Rounding {

  function RoundHalfAway(x: real): int {
    if x >= 0.0 then (x + 0.5).Floor else -((0.5 - x).Floor)
  }

  function Round2(x: real): real {
    RoundHalfAway(x * 100.0) as real / 100.0
  }

  function Round4(x: real): real {
    RoundHalfAway(x * 10000.0) as real / 10000.0
  }

  /** r is the integer nearest to x; of two nearest ones the one farther from zero. */
  ghost predicate NearestAway(r: int, x: real) {
    || -0.5 < r as real - x < 0.5
    || (r as real - x == 0.5 && x >= 0.0)
    || (r as real - x == -0.5 && x < 0.0)
  }

  /** The rounding is that integer and no other. */
  lemma RoundIff(x: real, r: int)
    ensures RoundHalfAway(x) == r <==> NearestAway(r, x)
  {
    var k := RoundHalfAway(x);
    assert NearestAway(k, x);
    if NearestAway(r, x) {
      assert -1.0 <= r as real - k as real <= 1.0;
    }
  }

  /** Rounding to two decimals picks the nearest hundredth. */
  lemma Round2Iff(x: real, r: int)
    ensures Round2(x) == r as real / 100.0 <==> NearestAway(r, x * 100.0)
  {
    RoundIff(x * 100.0, r);
  }

  /** Rounding to four decimals picks the nearest ten-thousandth. */
  lemma Round4Iff(x: real, r: int)
    ensures Round4(x) == r as real / 10000.0 <==> NearestAway(r, x * 10000.0)
  {
    RoundIff(x * 10000.0, r);
  }

  lemma RoundMonotone(x: real, y: real)
    requires x <= y
    ensures RoundHalfAway(x) <= RoundHalfAway(y)
  {
    if x >= 0.0 {
      assert x + 0.5 <= y + 0.5;
    } else if y < 0.0 {
      assert 0.5 - y <= 0.5 - x;
    } else {
      assert 0.5 - x >= 0.5 && y + 0.5 >= 0.5;
    }
  }

  lemma Round2Monotone(x: real, y: real)
    requires x <= y
    ensures Round2(x) <= Round2(y)
  {
    RoundMonotone(x * 100.0, y * 100.0);
  }

  lemma Round4Monotone(x: real, y: real)
    requires x <= y
    ensures Round4(x) <= Round4(y)
  {
    RoundMonotone(x * 10000.0, y * 10000.0);
  }

  /** Rounding to four decimals moves a value by at most half a ten-thousandth, and never across zero. */
  lemma Round4Near(x: real)
    ensures x - 0.00005 <= Round4(x) <= x + 0.00005
    ensures x >= 0.0 ==> Round4(x) >= 0.0
    ensures x <= 0.0 ==> Round4(x) <= 0.0
  {
    var r := RoundHalfAway(x * 10000.0);
    assert x * 10000.0 - 0.5 <= r as real <= x * 10000.0 + 0.5;
  }

  /** Rounding to two decimals moves a value by at most half a cent. */
  lemma Round2Near(x: real)
    ensures x - 0.005 <= Round2(x) <= x + 0.005
  {
    var r := RoundHalfAway(x * 100.0);
    assert x * 100.0 - 0.5 <= r as real <= x * 100.0 + 0.5;
  }
}
