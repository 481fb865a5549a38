/** The harmonic series of a fundamental and the bounded lookup of each
    harmonic's amplitude in a spectrum (used for the live spectrum and for
    the reference sample alike). */
module HarmonicSeries {
  import opened Numerics

  /** The first n harmonics of `fundamental`, in the order `getHarmonics`
      fills them: harmonic i (1-based) is `fundamental * i`. */
  function Harmonics(fundamental: real, n: nat): (harmonics: seq<real>)
    ensures |harmonics| == n
  {
    if n == 0 then [] else Harmonics(fundamental, n - 1) + [fundamental * n as real]
  }

  /** Entry k of the series is the (k+1)-th multiple of the fundamental. */
  lemma {:induction false} HarmonicAt(fundamental: real, n: nat, k: nat)
    requires k < n
    ensures Harmonics(fundamental, n)[k] == fundamental * (k + 1) as real
  {
    if k < n - 1 {
      HarmonicAt(fundamental, n - 1, k);
    }
  }

  /** A zero fundamental has an all-zero harmonic series. */
  lemma ZeroFundamentalHarmonics(n: nat, k: nat)
    requires k < n
    ensures Harmonics(0.0, n)[k] == 0.0
  {
    HarmonicAt(0.0, n, k);
  }

  /** `getHarmonics(fundamental:n:)`: fills an array of n zeros in a loop over
      `1...n`, which traps unless n >= 1. */
  method GetHarmonics(fundamental: real, n: int) returns (harmonics: seq<real>)
    requires n >= 1
    ensures |harmonics| == n
    ensures forall k :: 0 <= k < n ==> harmonics[k] == fundamental * (k + 1) as real
    ensures harmonics == Harmonics(fundamental, n)
  {
    harmonics := seq(n, _ => 0.0);
    var i := 1;
    while i <= n
      invariant 1 <= i <= n + 1
      invariant |harmonics| == n
      invariant forall k :: 0 <= k < i - 1 ==> harmonics[k] == fundamental * (k + 1) as real
    {
      harmonics := harmonics[i - 1 := fundamental * i as real];
      i := i + 1;
    }
    forall k | 0 <= k < n
      ensures harmonics[k] == Harmonics(fundamental, n)[k]
    {
      HarmonicAt(fundamental, n, k);
    }
  }

  /** No harmonic maps to a negative bin index (a negative index traps). */
  predicate NonNegativeBins(harmonics: seq<real>)
  {
    forall k :: 0 <= k < |harmonics| ==> BinIndex(harmonics[k]) >= 0
  }

  /** A non-negative fundamental never produces a negative bin index. */
  lemma NonNegativeFundamentalBins(fundamental: real, n: nat)
    requires fundamental >= 0.0
    ensures NonNegativeBins(Harmonics(fundamental, n))
  {
    forall k | 0 <= k < n
      ensures BinIndex(Harmonics(fundamental, n)[k]) >= 0
    {
      HarmonicAt(fundamental, n, k);
      ProductNonNegative(fundamental, (k + 1) as real);
    }
  }

  lemma ProductNonNegative(a: real, b: real)
    requires a >= 0.0 && b >= 0.0
    ensures a * b >= 0.0
  {
  }

  /** The amplitude read for one harmonic: 0 above bin 255, else the bin. */
  function LookupHarmonic(harmonic: real, spectrum: seq<real>): real
    requires BinIndex(harmonic) >= 0
    requires |spectrum| > MAX_HARMONIC_BIN
  {
    var harmonicIndex := BinIndex(harmonic);
    if harmonicIndex > MAX_HARMONIC_BIN then 0.0 else spectrum[harmonicIndex]
  }

  /** The amplitude at each harmonic, with the "index > 255 gives 0" bound. */
  function HarmonicAmplitudes(harmonics: seq<real>, spectrum: seq<real>): seq<real>
    requires NonNegativeBins(harmonics)
    requires |spectrum| > MAX_HARMONIC_BIN
  {
    seq(|harmonics|, k requires 0 <= k < |harmonics| => LookupHarmonic(harmonics[k], spectrum))
  }

  /** What the lookup promises: one entry per harmonic, 0 for a harmonic at
      or above 5512.5 Hz, otherwise the spectrum's value at the harmonic's bin. */
  lemma HarmonicAmplitudesAt(harmonics: seq<real>, spectrum: seq<real>, k: nat)
    requires NonNegativeBins(harmonics)
    requires |spectrum| > MAX_HARMONIC_BIN
    requires k < |harmonics|
    ensures |HarmonicAmplitudes(harmonics, spectrum)| == |harmonics|
    ensures harmonics[k] >= HARMONIC_CUTOFF ==> HarmonicAmplitudes(harmonics, spectrum)[k] == 0.0
    ensures harmonics[k] < HARMONIC_CUTOFF ==>
      0 <= BinIndex(harmonics[k]) <= MAX_HARMONIC_BIN &&
      HarmonicAmplitudes(harmonics, spectrum)[k] == spectrum[BinIndex(harmonics[k])]
  {
    BinAboveBoundIffCutoff(harmonics[k]);
  }

  /** Values of [0, 1] in the lookable part of the spectrum give harmonic
      amplitudes in [0, 1]. */
  lemma HarmonicAmplitudesInUnitRange(harmonics: seq<real>, spectrum: seq<real>)
    requires NonNegativeBins(harmonics)
    requires |spectrum| > MAX_HARMONIC_BIN
    requires forall i :: 0 <= i < |spectrum| ==> 0.0 <= spectrum[i] <= 1.0
    ensures forall k :: 0 <= k < |harmonics| ==> 0.0 <= HarmonicAmplitudes(harmonics, spectrum)[k] <= 1.0
  {
  }

  /** A zero fundamental reads bin 0 for every harmonic (it is not zeroed). */
  lemma ZeroFundamentalReadsBinZero(n: nat, spectrum: seq<real>, k: nat)
    requires |spectrum| > MAX_HARMONIC_BIN
    requires k < n
    ensures NonNegativeBins(Harmonics(0.0, n))
    ensures HarmonicAmplitudes(Harmonics(0.0, n), spectrum)[k] == spectrum[0]
  {
    NonNegativeFundamentalBins(0.0, n);
    ZeroFundamentalHarmonics(n, k);
  }

  /** A 440 Hz fundamental with 12 harmonics stays below 5512.5 Hz, so a flat
      spectrum of 0.5 gives twelve amplitudes of 0.5. */
  lemma FlatSpectrumAt440(spectrum: seq<real>)
    requires |spectrum| > MAX_HARMONIC_BIN
    requires forall i :: 0 <= i < |spectrum| ==> spectrum[i] == 0.5
    ensures NonNegativeBins(Harmonics(440.0, 12))
    ensures HarmonicAmplitudes(Harmonics(440.0, 12), spectrum) == seq(12, _ => 0.5)
  {
    NonNegativeFundamentalBins(440.0, 12);
    forall k | 0 <= k < 12
      ensures HarmonicAmplitudes(Harmonics(440.0, 12), spectrum)[k] == 0.5
    {
      HarmonicAt(440.0, 12, k);
      HarmonicAmplitudesAt(Harmonics(440.0, 12), spectrum, k);
    }
  }

  /** Harmonic k (1-based) of a non-negative fundamental is zeroed exactly
      when k times the fundamental reaches 5512.5 Hz. */
  lemma HarmonicZeroedIff(fundamental: real, n: nat, spectrum: seq<real>, k: nat)
    requires fundamental >= 0.0
    requires |spectrum| > MAX_HARMONIC_BIN
    requires forall i :: 0 <= i < |spectrum| ==> spectrum[i] > 0.0
    requires k < n
    ensures NonNegativeBins(Harmonics(fundamental, n))
    ensures HarmonicAmplitudes(Harmonics(fundamental, n), spectrum)[k] == 0.0
        <==> fundamental * (k + 1) as real >= HARMONIC_CUTOFF
  {
    NonNegativeFundamentalBins(fundamental, n);
    HarmonicAt(fundamental, n, k);
    HarmonicAmplitudesAt(Harmonics(fundamental, n), spectrum, k);
  }
}
