/** The per-bin amplitude of the scrolling spectrum: each FFT bin's
    real/imaginary pair is turned into a normalised decibel value, remapped
    from [0.3, 0.9] onto [0, 1] and clamped. */
module Spectrum {
  import opened Numerics

  /** Number of real/imaginary pairs the FFT loop visits (i = 0, 2, ..., 2046). */
  const SCROLL_BINS: int := FFT_SIZE / 2

  /** `scaledAmplitude`: 2 * |z| / FFT_SIZE in decibels, shifted by 250 and
      divided by 229.80. */
  function ScaledAmplitude(math: Math, re: real, im: real): real
  {
    var normalizedMagnitude := 2.0 * math.sqrt(re * re + im * im) / FFT_SIZE as real;
    var amplitude := 20.0 * math.log10(normalizedMagnitude);
    (amplitude + 250.0) / 229.80
  }

  /** The value scroll mode writes for one bin. */
  function ScrollBinValue(math: Math, re: real, im: real): (v: real)
    ensures 0.0 <= v <= 1.0
  {
    Restrict(Map(ScaledAmplitude(math, re, im), 0.3, 0.9, 0.0, 1.0))
  }

  /** The spectrum after one scroll-mode frame: bin j below both the bin
      count and SCROLL_BINS gets the value of pair (2j, 2j+1); every other
      bin keeps its value. */
  function ScrollSpectrum(amplitudes: seq<real>, fftData: seq<real>, math: Math): seq<real>
    requires |fftData| >= FFT_SIZE
  {
    seq(|amplitudes|, j requires 0 <= j < |amplitudes| =>
      if j < SCROLL_BINS then ScrollBinValue(math, fftData[2 * j], fftData[2 * j + 1])
      else amplitudes[j])
  }

  /** The scroll update keeps the bin count, writes `restrict(map(...))` into
      every bin it reaches and leaves the others alone. */
  lemma ScrollSpectrumAt(amplitudes: seq<real>, fftData: seq<real>, math: Math, j: nat)
    requires |fftData| >= FFT_SIZE
    requires j < |amplitudes|
    ensures |ScrollSpectrum(amplitudes, fftData, math)| == |amplitudes|
    ensures j < SCROLL_BINS ==>
      ScrollSpectrum(amplitudes, fftData, math)[j]
        == Restrict(Map(ScaledAmplitude(math, fftData[2 * j], fftData[2 * j + 1]), 0.3, 0.9, 0.0, 1.0))
    ensures j >= SCROLL_BINS ==> ScrollSpectrum(amplitudes, fftData, math)[j] == amplitudes[j]
  {
  }

  /** Every bin the scroll update writes lies in [0, 1]; so a spectrum whose
      values are all in [0, 1] stays so. */
  lemma ScrollSpectrumInUnitRange(amplitudes: seq<real>, fftData: seq<real>, math: Math)
    requires |fftData| >= FFT_SIZE
    requires forall j :: 0 <= j < |amplitudes| ==> 0.0 <= amplitudes[j] <= 1.0
    ensures forall j :: 0 <= j < |amplitudes| ==> 0.0 <= ScrollSpectrum(amplitudes, fftData, math)[j] <= 1.0
  {
  }

  /** With at most SCROLL_BINS bins the whole spectrum is rewritten: the
      result no longer depends on the previous spectrum. */
  lemma ScrollSpectrumForgetsPrevious(a: seq<real>, b: seq<real>, fftData: seq<real>, math: Math)
    requires |fftData| >= FFT_SIZE
    requires |a| == |b| <= SCROLL_BINS
    ensures ScrollSpectrum(a, fftData, math) == ScrollSpectrum(b, fftData, math)
  {
  }
}
