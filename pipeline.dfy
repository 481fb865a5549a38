/** The `Audio` feature snapshot and the state transitions the view model
    applies to it on each FFT frame and each pitch frame, as functions of the
    previous state. The class in module ViewModel is proved against these. */
module Pipeline {
  import opened Numerics
  import opened HarmonicSeries
  import opened Spectrum
  import opened PitchTracking
  import opened Features
  import opened ReferenceTimbre

  datatype AudioFeatures = AudioFeatures(spectralCentroid: real, quality: real, inharmonicity: real)

  /** The feature snapshot published to the views. */
  datatype Audio = Audio(
    pitchFrequency: real,
    pitchNotation: string,
    pitchDetune: real,
    isPitchAccurate: bool,
    peakBarIndex: int,
    amplitudes: seq<real>,
    amplitudesToDisplay: seq<real>,
    harmonicAmplitudes: seq<real>,
    totalHarmonics: int,
    audioFeatures: AudioFeatures)

  /** The music-theory helpers the engine calls, left uninterpreted. */
  datatype MusicTheory = MusicTheory(
    pitchFromFrequency: (real, NoteRepresentation) -> string,
    pitchDetuneFromFrequency: real -> real,
    mapNearestFrequency: real -> real)

  /** Everything outside the view model that its updates consult. */
  datatype Environment = Environment(math: Math, theory: MusicTheory, tables: TimbreTables)

  /** The nearest standard pitch is a frequency (never negative) and every
      recorded sample is usable. */
  ghost predicate ValidEnvironment(env: Environment)
  {
    && (forall f :: env.theory.mapNearestFrequency(f) >= 0.0)
    && ValidTables(env.tables)
  }

  predicate InUnitRange(s: seq<real>)
  {
    forall i :: 0 <= i < |s| ==> 0.0 <= s[i] <= 1.0
  }

  /** The snapshot's invariant: at least 256 bins, one harmonic amplitude per
      harmonic (at least one), and every spectrum value in [0, 1]. */
  predicate ValidAudio(a: Audio)
  {
    && |a.amplitudes| > MAX_HARMONIC_BIN
    && a.totalHarmonics >= 1
    && |a.harmonicAmplitudes| == a.totalHarmonics
    && InUnitRange(a.amplitudes)
    && InUnitRange(a.harmonicAmplitudes)
    && InUnitRange(a.amplitudesToDisplay)
  }

  /** `updateAmplitudes` in scroll mode. */
  function AmplitudesUpdated(a: Audio, fftData: seq<real>, math: Math): Audio
    requires |fftData| >= FFT_SIZE
  {
    a.(amplitudes := ScrollSpectrum(a.amplitudes, fftData, math))
  }

  /** A scroll frame keeps the snapshot valid and touches only the spectrum,
      whose length it keeps. */
  lemma AmplitudesUpdatePreservesValid(a: Audio, fftData: seq<real>, math: Math)
    requires ValidAudio(a) && |fftData| >= FFT_SIZE
    ensures ValidAudio(AmplitudesUpdated(a, fftData, math))
    ensures |AmplitudesUpdated(a, fftData, math).amplitudes| == |a.amplitudes|
  {
    ScrollSpectrumInUnitRange(a.amplitudes, fftData, math);
  }

  /** What an accepted pitch frame needs so that nothing traps: no negative
      harmonic bin, and a non-zero amplitude sum for the centroid. */
  predicate CanAcceptPitch(a: Audio, frequency: real)
  {
    && ValidAudio(a)
    && NonNegativeBins(Harmonics(frequency, a.totalHarmonics))
    && AmplitudeSum(a.amplitudes) != 0.0
  }

  /** The harmonic amplitudes an accepted frame at `frequency` stores. */
  function HarmonicAmplitudesFor(a: Audio, frequency: real): (h: seq<real>)
    requires CanAcceptPitch(a, frequency)
    ensures |h| == a.totalHarmonics && InUnitRange(h)
  {
    HarmonicAmplitudesInUnitRange(Harmonics(frequency, a.totalHarmonics), a.amplitudes);
    HarmonicAmplitudes(Harmonics(frequency, a.totalHarmonics), a.amplitudes)
  }

  /** The body of `updatePitch` behind the noise gate. */
  function AcceptPitch(a: Audio, frequency: real, notation: string, detune: real): Audio
    requires CanAcceptPitch(a, frequency)
  {
    var harmonicAmplitudes := HarmonicAmplitudesFor(a, frequency);
    NonNegativeFundamentalDivides(harmonicAmplitudes[0], harmonicAmplitudes[1..]);
    a.(pitchFrequency := frequency,
       pitchNotation := notation,
       pitchDetune := detune,
       peakBarIndex := BinIndex(frequency),
       harmonicAmplitudes := harmonicAmplitudes,
       amplitudesToDisplay := a.amplitudes,
       audioFeatures := a.audioFeatures.(spectralCentroid := SpectralCentroidFeature(a.amplitudes),
                                         quality := Quality(harmonicAmplitudes)))
  }

  /** What `updatePitch` needs of its inputs: channel 0 of the amplitudes,
      and when the gate opens, channel 0 of the frequencies and a frame
      that can be accepted. */
  predicate PitchFrameAcceptable(a: Audio, settings: Setting, pitchFrequency: seq<real>, amplitude: seq<real>)
  {
    && ValidAudio(a)
    && |amplitude| >= 1
    && (PassesNoiseGate(settings.noiseLevel, amplitude[0]) ==>
          |pitchFrequency| >= 1 && CanAcceptPitch(a, pitchFrequency[0]))
  }

  /** `updatePitch` on the snapshot: the gated update, then the accuracy
      flag from the (possibly stale) detune. */
  function PitchUpdated(a: Audio, settings: Setting, theory: MusicTheory,
                        pitchFrequency: seq<real>, amplitude: seq<real>): Audio
    requires PitchFrameAcceptable(a, settings, pitchFrequency, amplitude)
  {
    var gated :=
      if PassesNoiseGate(settings.noiseLevel, amplitude[0]) then
        var f := pitchFrequency[0];
        AcceptPitch(a, f, theory.pitchFromFrequency(f, settings.noteRepresentation),
                    theory.pitchDetuneFromFrequency(f))
      else a;
    gated.(isPitchAccurate := IsPitchAccurate(settings.accuracyLevel, gated.pitchDetune))
  }

  /** A frame whose channel-0 amplitude does not exceed the threshold changes
      nothing but the accuracy flag, which is recomputed from the old detune. */
  lemma NoiseGateKeepsState(a: Audio, settings: Setting, theory: MusicTheory,
                            pitchFrequency: seq<real>, amplitude: seq<real>)
    requires PitchFrameAcceptable(a, settings, pitchFrequency, amplitude)
    requires amplitude[0] <= NoiseThreshold(settings.noiseLevel)
    ensures PitchUpdated(a, settings, theory, pitchFrequency, amplitude)
         == a.(isPitchAccurate := IsPitchAccurate(settings.accuracyLevel, a.pitchDetune))
  {
  }

  /** An accepted frame stores the new pitch, its bin and its harmonic
      amplitudes, freezes the displayed spectrum to the current one and
      refreshes both features within [0, 1]; the spectrum itself is kept. */
  lemma AcceptedFrame(a: Audio, settings: Setting, theory: MusicTheory,
                      pitchFrequency: seq<real>, amplitude: seq<real>)
    requires PitchFrameAcceptable(a, settings, pitchFrequency, amplitude)
    requires amplitude[0] > NoiseThreshold(settings.noiseLevel)
    ensures var r := PitchUpdated(a, settings, theory, pitchFrequency, amplitude);
      && r.pitchFrequency == pitchFrequency[0]
      && r.pitchDetune == theory.pitchDetuneFromFrequency(pitchFrequency[0])
      && r.peakBarIndex == BinIndex(pitchFrequency[0])
      && r.harmonicAmplitudes == HarmonicAmplitudes(Harmonics(pitchFrequency[0], a.totalHarmonics), a.amplitudes)
      && r.amplitudes == a.amplitudes
      && r.amplitudesToDisplay == a.amplitudes
      && 0.0 <= r.audioFeatures.spectralCentroid <= 1.0
      && 0.0 <= r.audioFeatures.quality <= 1.0
      && r.isPitchAccurate == IsPitchAccurate(settings.accuracyLevel, r.pitchDetune)
  {
    var h := HarmonicAmplitudesFor(a, pitchFrequency[0]);
    QualityRankInUnitRange(h[0], h[1..]);
  }

  /** A pitch frame keeps the snapshot valid, whichever way the gate goes. */
  lemma PitchUpdatePreservesValid(a: Audio, settings: Setting, theory: MusicTheory,
                                  pitchFrequency: seq<real>, amplitude: seq<real>)
    requires PitchFrameAcceptable(a, settings, pitchFrequency, amplitude)
    ensures ValidAudio(PitchUpdated(a, settings, theory, pitchFrequency, amplitude))
    ensures PitchUpdated(a, settings, theory, pitchFrequency, amplitude).totalHarmonics == a.totalHarmonics
  {
  }

  /** An accepted frame whose spectrum leaves no overtone louder than the
      fundamental has quality exactly 1, and only then. */
  lemma AcceptedQualityOneIff(a: Audio, settings: Setting, theory: MusicTheory,
                              pitchFrequency: seq<real>, amplitude: seq<real>)
    requires PitchFrameAcceptable(a, settings, pitchFrequency, amplitude)
    requires amplitude[0] > NoiseThreshold(settings.noiseLevel)
    ensures var r := PitchUpdated(a, settings, theory, pitchFrequency, amplitude);
      (r.audioFeatures.quality == 1.0 <==>
        forall k :: 1 <= k < |r.harmonicAmplitudes| ==> r.harmonicAmplitudes[k] <= r.harmonicAmplitudes[0])
  {
    var h := HarmonicAmplitudesFor(a, pitchFrequency[0]);
    QualityRankOneIff(h[0], h[1..]);
    assert (forall k :: 0 <= k < |h[1..]| ==> h[1..][k] <= h[0])
       <==> (forall k :: 1 <= k < |h| ==> h[k] <= h[0]) by {
      forall k | 1 <= k < |h| ensures h[k] == h[1..][k - 1] { }
    }
  }

  /** `updateReferenceTimbre` on the values: the selected instrument's sample
      for the current note (sharp notation), read at the harmonics of the
      standard pitch nearest to the current one. */
  function ReferenceRefreshed(reference: seq<real>, a: Audio, selected: Instrument,
                              env: Environment): seq<real>
    requires ValidEnvironment(env)
  {
    var note := env.theory.pitchFromFrequency(a.pitchFrequency, Sharp);
    SoundSampleUsable(env.tables, selected, note);
    ReferenceAmplitudes(reference, SoundSample(env.tables, selected, note), env.math.log10,
                        env.theory.mapNearestFrequency(a.pitchFrequency))
  }

  /** A refresh keeps the number of reference values, and a note with no
      sample in the selected table leaves them unchanged. */
  lemma ReferenceRefreshKeepsShape(reference: seq<real>, a: Audio, selected: Instrument, env: Environment)
    requires ValidEnvironment(env)
    ensures |ReferenceRefreshed(reference, a, selected, env)| == |reference|
    ensures env.theory.pitchFromFrequency(a.pitchFrequency, Sharp) !in SampleTable(env.tables, selected)
        ==> ReferenceRefreshed(reference, a, selected, env) == reference
  {
  }
}
