/** The numeric helpers the ledger and checkout use: `Math.max(0, x)` and
    `Math.round(x * k) / k` for k = 100 (stock) and k = 1000000
    (consumption). JavaScript's `Math.round` rounds halves up, which over
    the reals is `Floor(y + 1/2)`. */
module Rounding {

  /** `Math.max(0, x)` */
  function ClampZero(x: real): (r: real)
    ensures r >= 0.0 && r >= x
    ensures r == x || r == 0.0
  {
    if x < 0.0 then 0.0 else x
  }

  /** `Math.round(y)` */
  function Round(y: real): (n: int)
    ensures y - 0.5 < n as real <= y + 0.5
  {
    (y + 0.5).Floor
  }

  /** `Math.round(x * 100) / 100` */
  function Round2(x: real): (r: real)
    ensures x - 0.005 < r <= x + 0.005
    ensures (r * 100.0).Floor as real == r * 100.0
  {
    Round(x * 100.0) as real / 100.0
  }

  /** `Math.round(x * 1000000) / 1000000` */
  function Round6(x: real): (r: real)
    ensures x - 0.0000005 < r <= x + 0.0000005
    ensures (r * 1000000.0).Floor as real == r * 1000000.0
  {
    Round(x * 1000000.0) as real / 1000000.0
  }

  /** Rounding an integer gives it back. */
  lemma RoundInt(n: int)
    ensures Round(n as real) == n
  {
  }

  /** Rounding is monotone. */
  lemma RoundMonotone(a: real, b: real)
    requires a <= b
    ensures Round(a) <= Round(b)
  {
  }

  /** A rounded stock quantity is never negative when the unrounded one is
      not. */
  lemma Round2NonNegative(x: real)
    requires x >= 0.0
    ensures Round2(x) >= 0.0
  {
    RoundMonotone(0.0, x * 100.0);
  }

  /** Rounding an already rounded quantity changes nothing. */
  lemma Round2Idempotent(x: real)
    ensures Round2(Round2(x)) == Round2(x)
  {
    var r := Round2(x);
    var n := (r * 100.0).Floor;
    RoundInt(n);
    assert r * 100.0 == n as real;
  }

  /** Quantities already on the cent grid come back unchanged. */
  lemma Round2OfCents(n: int)
    ensures Round2(n as real / 100.0) == n as real / 100.0
  {
    assert (n as real / 100.0) * 100.0 == n as real;
    RoundInt(n);
  }

  /** Likewise for the micro-unit grid of consumption amounts. */
  lemma Round6OfMicros(n: int)
    ensures Round6(n as real / 1000000.0) == n as real / 1000000.0
  {
    assert (n as real / 1000000.0) * 1000000.0 == n as real;
    RoundInt(n);
  }
}
