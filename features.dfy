/** The derived audio features: the spectral centroid of the spectrum,
    mapped onto [0, 1] around the 1100 Hz bright/dark threshold, and the
    "quality" rank that penalises overtones louder than the fundamental. */
module Features {
  import opened Numerics

  /** Centre frequency of bin i: `Double(i) * SAMPLE_RATE / Double(FFT_SIZE)`. */
  function BinFrequency(i: nat): real
  {
    i as real * SAMPLE_RATE / FFT_SIZE as real
  }

  /** `amplitudes.reduce(0, +)`, folded from the left as `reduce` does. */
  function AmplitudeSum(a: seq<real>): real
  {
    if |a| == 0 then 0.0 else AmplitudeSum(a[..|a| - 1]) + a[|a| - 1]
  }

  /** The amplitude-weighted sum of bin frequencies, folded from the left. */
  function WeightedFrequencySum(a: seq<real>): real
  {
    if |a| == 0 then 0.0
    else WeightedFrequencySum(a[..|a| - 1]) + BinFrequency(|a| - 1) * a[|a| - 1]
  }

  /** The spectral centroid: weighted frequency sum over amplitude sum.
      The source divides without a guard, so the sum must not be 0 here. */
  function SpectralCentroid(a: seq<real>): real
    requires AmplitudeSum(a) != 0.0
  {
    WeightedFrequencySum(a) / AmplitudeSum(a)
  }

  /** Spectral centroids above this are considered bright (Lavengood). */
  const BRIGHTNESS_THRESHOLD: real := 1100.0
  /** Compression of the mapped range. */
  const CENTROID_SCALE: real := 0.5

  /** The stored feature: `centroid / 1100 * 0.5`, first capped at 1 and then
      raised to 0 if negative, as the two assignments of the source do. */
  function CentroidToFeature(centroid: real): (feature: real)
    ensures 0.0 <= feature <= 1.0
    ensures feature == Restrict(centroid / BRIGHTNESS_THRESHOLD * CENTROID_SCALE)
  {
    var result := centroid / BRIGHTNESS_THRESHOLD * CENTROID_SCALE;
    var capped := if result > 1.0 then 1.0 else result;
    if result < 0.0 then 0.0 else capped
  }

  /** `updateSpectralCentroid`'s value for a spectrum. */
  function SpectralCentroidFeature(a: seq<real>): (feature: real)
    requires AmplitudeSum(a) != 0.0
    ensures 0.0 <= feature <= 1.0
  {
    CentroidToFeature(SpectralCentroid(a))
  }

  /** The 1100 Hz threshold maps to 0.5: the feature is above one half
      exactly for bright spectra. */
  lemma BrightIffAboveThreshold(centroid: real)
    ensures CentroidToFeature(centroid) > 0.5 <==> centroid > BRIGHTNESS_THRESHOLD
  {
  }

  /** The feature saturates at 1 exactly from 2200 Hz on, and is 0 exactly
      for centroids at or below 0 Hz. */
  lemma FeatureSaturation(centroid: real)
    ensures CentroidToFeature(centroid) == 1.0 <==> centroid >= 2.0 * BRIGHTNESS_THRESHOLD
    ensures CentroidToFeature(centroid) == 0.0 <==> centroid <= 0.0
  {
  }

  predicate AllNonNegative(a: seq<real>)
  {
    forall i :: 0 <= i < |a| ==> a[i] >= 0.0
  }

  /** A non-negative spectrum has a non-negative amplitude sum. */
  lemma {:induction false} AmplitudeSumNonNegative(a: seq<real>)
    requires AllNonNegative(a)
    ensures AmplitudeSum(a) >= 0.0
  {
    if |a| > 0 {
      AmplitudeSumNonNegative(a[..|a| - 1]);
    }
  }

  lemma ScaleBetween(f: real, g: real, x: real)
    requires 0.0 <= f <= g && x >= 0.0
    ensures 0.0 <= f * x <= g * x
  {
  }

  /** For a non-negative spectrum, the weighted sum lies between 0 and the
      top bin's frequency times the amplitude sum. */
  lemma {:induction false} WeightedSumBounds(a: seq<real>)
    requires |a| > 0
    requires AllNonNegative(a)
    ensures 0.0 <= WeightedFrequencySum(a) <= BinFrequency(|a| - 1) * AmplitudeSum(a)
  {
    var n := |a|;
    var prefix := a[..n - 1];
    var top := BinFrequency(n - 1);
    AmplitudeSumNonNegative(prefix);
    ScaleBetween(BinFrequency(n - 1), top, a[n - 1]);
    if n > 1 {
      WeightedSumBounds(prefix);
      ScaleBetween(BinFrequency(n - 2), top, AmplitudeSum(prefix));
      assert top * AmplitudeSum(a) == top * AmplitudeSum(prefix) + top * a[n - 1];
    }
  }

  /** For a non-negative spectrum with positive energy, the centroid is a
      frequency of the spectrum's range: between bin 0 and the top bin. */
  lemma CentroidInBinRange(a: seq<real>)
    requires |a| > 0
    requires AllNonNegative(a)
    requires AmplitudeSum(a) > 0.0
    ensures 0.0 <= SpectralCentroid(a) <= BinFrequency(|a| - 1)
  {
    WeightedSumBounds(a);
    var w, s := WeightedFrequencySum(a), AmplitudeSum(a);
    assert w / s * s == w;
    if w / s > BinFrequency(|a| - 1) {
      assert w / s * s > BinFrequency(|a| - 1) * s;
    }
  }

  /** Twice the sum 0 + 1 + ... + (n - 1). */
  function TwiceTriangle(n: nat): real
  {
    n as real * (n as real - 1.0)
  }

  lemma TwiceTriangleStep(n: nat)
    requires n > 0
    ensures TwiceTriangle(n) == TwiceTriangle(n - 1) + 2.0 * (n - 1) as real
  {
    var m := (n - 1) as real;
    assert n as real == m + 1.0;
    assert TwiceTriangle(n) == (m + 1.0) * m;
    assert TwiceTriangle(n - 1) == m * (m - 1.0);
  }

  /** The sums of a flat spectrum of n bins at value v. */
  lemma {:induction false} FlatSums(n: nat, v: real)
    ensures AmplitudeSum(seq(n, _ => v)) == n as real * v
    ensures 2.0 * WeightedFrequencySum(seq(n, _ => v)) == BinFrequency(1) * v * TwiceTriangle(n)
  {
    if n > 0 {
      var a := seq(n, _ => v);
      assert a[..n - 1] == seq(n - 1, _ => v);
      FlatSums(n - 1, v);
      TwiceTriangleStep(n);
      var bv := BinFrequency(1) * v;
      assert BinFrequency(n - 1) * v == bv * (n - 1) as real;
      assert bv * TwiceTriangle(n) == bv * TwiceTriangle(n - 1) + 2.0 * (bv * (n - 1) as real);
    }
  }

  /** A flat spectrum has its centroid midway between bin 0 and the top bin. */
  lemma FlatSpectrumCentroid(n: nat, v: real)
    requires n > 0 && v > 0.0
    ensures AmplitudeSum(seq(n, _ => v)) > 0.0
    ensures SpectralCentroid(seq(n, _ => v)) == BinFrequency(n - 1) / 2.0
  {
    var a := seq(n, _ => v);
    FlatSums(n, v);
    var s := n as real * v;
    ProductPositive(n as real, v);
    var w := WeightedFrequencySum(a);
    var c := BinFrequency(n - 1) / 2.0;
    assert 2.0 * w == BinFrequency(1) * v * (n as real * (n as real - 1.0));
    assert BinFrequency(n - 1) == BinFrequency(1) * (n as real - 1.0);
    assert 2.0 * w == 2.0 * c * s;
    assert w == c * s;
  }

  lemma ProductPositive(a: real, b: real)
    requires a > 0.0 && b > 0.0
    ensures a * b > 0.0
  {
  }

  /** The overtones louder than the fundamental are never 0, so the rank
      never divides by 0. */
  predicate NoZeroDivisor(fundamental: real, overtones: seq<real>)
  {
    forall k :: 0 <= k < |overtones| && overtones[k] > fundamental ==> overtones[k] != 0.0
  }

  /** A non-negative fundamental amplitude rules out a zero divisor. */
  lemma NonNegativeFundamentalDivides(fundamental: real, overtones: seq<real>)
    requires fundamental >= 0.0
    ensures NoZeroDivisor(fundamental, overtones)
  {
  }

  /** `updateQuality`'s rank, folded over the overtones from the left: start
      at 1 and multiply by fundamental / overtone for every overtone louder
      than the fundamental. */
  function QualityRank(fundamental: real, overtones: seq<real>): real
    requires NoZeroDivisor(fundamental, overtones)
  {
    if |overtones| == 0 then 1.0
    else
      var rank := QualityRank(fundamental, overtones[..|overtones| - 1]);
      var overtone := overtones[|overtones| - 1];
      if overtone > fundamental then rank * (fundamental / overtone) else rank
  }

  lemma ShrinkingFactor(rank: real, fundamental: real, overtone: real)
    requires 0.0 <= rank <= 1.0
    requires 0.0 <= fundamental < overtone
    ensures 0.0 <= rank * (fundamental / overtone) < 1.0
  {
    var ratio := fundamental / overtone;
    assert 0.0 <= ratio < 1.0;
    assert rank * ratio <= ratio;
  }

  /** With a non-negative fundamental the rank lies in [0, 1]. */
  lemma {:induction false} QualityRankInUnitRange(fundamental: real, overtones: seq<real>)
    requires fundamental >= 0.0
    ensures 0.0 <= QualityRank(fundamental, overtones) <= 1.0
  {
    if |overtones| > 0 {
      var prefix := overtones[..|overtones| - 1];
      var overtone := overtones[|overtones| - 1];
      QualityRankInUnitRange(fundamental, prefix);
      var rank := QualityRank(fundamental, prefix);
      if overtone > fundamental {
        ShrinkingFactor(rank, fundamental, overtone);
        assert QualityRank(fundamental, overtones) == rank * (fundamental / overtone);
      } else {
        assert QualityRank(fundamental, overtones) == rank;
      }
    }
  }

  /** With a non-negative fundamental the rank is exactly 1 when, and only
      when, no overtone is louder than the fundamental. */
  lemma {:induction false} QualityRankOneIff(fundamental: real, overtones: seq<real>)
    requires fundamental >= 0.0
    ensures QualityRank(fundamental, overtones) == 1.0
        <==> forall k :: 0 <= k < |overtones| ==> overtones[k] <= fundamental
  {
    if |overtones| > 0 {
      var n := |overtones|;
      var prefix := overtones[..n - 1];
      var overtone := overtones[n - 1];
      QualityRankOneIff(fundamental, prefix);
      QualityRankInUnitRange(fundamental, prefix);
      var rank := QualityRank(fundamental, prefix);
      if overtone > fundamental {
        ShrinkingFactor(rank, fundamental, overtone);
        assert QualityRank(fundamental, overtones) == rank * (fundamental / overtone);
      } else {
        assert QualityRank(fundamental, overtones) == rank;
        assert (forall k :: 0 <= k < n ==> overtones[k] <= fundamental)
          <==> (forall k :: 0 <= k < n - 1 ==> prefix[k] <= fundamental);
      }
    }
  }

  /** The quality of a harmonic-amplitude series: its first entry is the
      fundamental, the rest (`dropFirst()`) are the overtones. */
  function Quality(harmonicAmplitudes: seq<real>): real
    requires |harmonicAmplitudes| >= 1
    requires NoZeroDivisor(harmonicAmplitudes[0], harmonicAmplitudes[1..])
  {
    QualityRank(harmonicAmplitudes[0], harmonicAmplitudes[1..])
  }
}
