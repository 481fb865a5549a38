/** Constants and scalar helpers of the audio feature-extraction engine:
    the transform layout, Swift's integer conversion, the clamp `restrict`
    and the linear remap `map`. `real` stands in for Swift's Float/Double. */
module Numerics {

  /** Transform size of the FFT tap (number of interleaved real/imaginary values). */
  const FFT_SIZE: int := 2048
  /** Sample rate of the input, in Hz. */
  const SAMPLE_RATE: real := 44100.0
  /** Largest bin index a harmonic lookup reads; larger indices yield amplitude 0. */
  const MAX_HARMONIC_BIN: int := 255

  /** The floating-point library functions the engine calls, left
      uninterpreted: any `sqrt` and `log10` may be supplied. */
  datatype Math = Math(sqrt: real -> real, log10: real -> real)

  /** Swift's `Int(x)` on a finite value: truncation toward zero. */
  function SwiftInt(x: real): (n: int)
    ensures x >= 0.0 ==> n == x.Floor
    ensures x >= 0.0 ==> 0 <= n && n as real <= x < n as real + 1.0
    ensures x < 0.0 ==> n <= 0 && n as real - 1.0 < x <= n as real
  {
    if x >= 0.0 then x.Floor else -((-x).Floor)
  }

  /** Bin index of a frequency under the 2048-point / 44.1 kHz layout:
      `Int(frequency * FFT_SIZE / SAMPLE_RATE)`. */
  function BinIndex(frequency: real): (i: int)
    ensures frequency >= 0.0 ==> i >= 0
    ensures i >= 0 <==> frequency > -SAMPLE_RATE / FFT_SIZE as real
  {
    SwiftInt(frequency * FFT_SIZE as real / SAMPLE_RATE)
  }

  /** The lowest frequency whose bin index exceeds MAX_HARMONIC_BIN:
      (MAX_HARMONIC_BIN + 1) * SAMPLE_RATE / FFT_SIZE = 5512.5 Hz. */
  const HARMONIC_CUTOFF: real := 5512.5

  /** A frequency is read as 0 by the harmonic lookups exactly when it is at
      or above 5512.5 Hz. */
  lemma BinAboveBoundIffCutoff(frequency: real)
    ensures BinIndex(frequency) > MAX_HARMONIC_BIN <==> frequency >= HARMONIC_CUTOFF
  {
    var x := frequency * FFT_SIZE as real / SAMPLE_RATE;
    if frequency >= HARMONIC_CUTOFF {
      assert x >= 256.0;
    } else if frequency >= 0.0 {
      assert x < 256.0;
    }
  }

  /** `restrict`: clamps a value to [0, 1]. */
  function Restrict(value: real): (r: real)
    ensures 0.0 <= r <= 1.0
    ensures 0.0 <= value <= 1.0 ==> r == value
    ensures value < 0.0 ==> r == 0.0
    ensures value > 1.0 ==> r == 1.0
  {
    if value < 0.0 then 0.0
    else if value > 1.0 then 1.0
    else value
  }

  /** Restrict is the nearest point of [0, 1]: no value of [0, 1] is closer. */
  lemma RestrictIsNearest(value: real, y: real)
    requires 0.0 <= y <= 1.0
    ensures Abs(Restrict(value) - value) <= Abs(y - value)
  {
  }

  /** Restrict is monotone. */
  lemma RestrictMonotone(u: real, v: real)
    requires u <= v
    ensures Restrict(u) <= Restrict(v)
  {
  }

  function Abs(x: real): (r: real)
    ensures r >= 0.0 && (r == x || r == -x)
  {
    if x < 0.0 then -x else x
  }

  /** `map`: the linear remap sending [start1, stop1] onto [start2, stop2]. */
  function Map(n: real, start1: real, stop1: real, start2: real, stop2: real): (r: real)
    requires start1 != stop1
    ensures (r - start2) * (stop1 - start1) == (n - start1) * (stop2 - start2)
  {
    ((n - start1) / (stop1 - start1)) * (stop2 - start2) + start2
  }

  /** Remapping with the two ranges swapped undoes the remap. */
  lemma MapRoundTrip(n: real, start1: real, stop1: real, start2: real, stop2: real)
    requires start1 != stop1 && start2 != stop2
    ensures Map(Map(n, start1, stop1, start2, stop2), start2, stop2, start1, stop1) == n
  {
    var m := Map(n, start1, stop1, start2, stop2);
    var back := Map(m, start2, stop2, start1, stop1);
    assert (m - start2) * (stop1 - start1) == (n - start1) * (stop2 - start2);
    assert (back - start1) * (stop2 - start2) == (m - start2) * (stop1 - start1);
    assert (back - start1) * (stop2 - start2) == (n - start1) * (stop2 - start2);
    MultiplyCancel(back - start1, n - start1, stop2 - start2);
  }

  lemma MultiplyCancel(a: real, b: real, c: real)
    requires c != 0.0 && a * c == b * c
    ensures a == b
  {
    assert (a - b) * c == 0.0;
  }

  /** The spectrum display remap `map(x, 0.3, 0.9, 0.0, 1.0)` followed by
      `restrict` is 0 exactly up to 0.3 and 1 exactly from 0.9 on. */
  lemma DisplayRemapRegions(x: real)
    ensures x <= 0.3 <==> Restrict(Map(x, 0.3, 0.9, 0.0, 1.0)) == 0.0
    ensures x >= 0.9 <==> Restrict(Map(x, 0.3, 0.9, 0.0, 1.0)) == 1.0
  {
    var m := Map(x, 0.3, 0.9, 0.0, 1.0);
    assert m * 0.6 == x - 0.3;
  }
}
