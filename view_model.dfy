/** The view model that owns the feature snapshot: its FFT-frame and
    pitch-frame callbacks update `audio` and `referenceHarmonicAmplitudes`
    in place, step by step as the source does, and each is proved to leave
    exactly the state the functions of module Pipeline describe. */
module ViewModel {
  import opened Numerics
  import opened HarmonicSeries
  import opened Spectrum
  import opened PitchTracking
  import opened Features
  import opened ReferenceTimbre
  import opened Pipeline

  class AudioViewModel {
    /** The published feature snapshot. */
    var audio: Audio
    /** The reference instrument's amplitude at each harmonic. */
    var referenceHarmonicAmplitudes: seq<real>
    /** The latest settings and selected reference instrument. */
    var settings: Setting
    var timbreDrawer: Instrument
    /** Math library, music-theory helpers and sample tables. */
    const env: Environment

    ghost predicate Valid()
      reads this
    {
      && ValidAudio(audio)
      && |referenceHarmonicAmplitudes| == audio.totalHarmonics
      && ValidEnvironment(env)
    }

    /** `init`: every reference value starts at 0.5, then the reference
        timbre is refreshed once. */
    constructor (initialAudio: Audio, initialSettings: Setting, selected: Instrument,
                 environment: Environment)
      requires ValidAudio(initialAudio) && ValidEnvironment(environment)
      ensures Valid()
      ensures audio == initialAudio && settings == initialSettings && timbreDrawer == selected
      ensures env == environment
      ensures referenceHarmonicAmplitudes
           == ReferenceRefreshed(seq(initialAudio.totalHarmonics, _ => 0.5), initialAudio, selected, environment)
    {
      audio := initialAudio;
      settings := initialSettings;
      timbreDrawer := selected;
      env := environment;
      referenceHarmonicAmplitudes := seq(initialAudio.totalHarmonics, _ => 0.5);
      new;
      UpdateReferenceTimbre();
    }

    /** `updateIsPitchAccurate`: the indicator slot of the current detune
        against the accuracy level's slots. */
    method UpdateIsPitchAccurate()
      requires Valid()
      modifies this
      ensures Valid()
      ensures audio == old(audio).(isPitchAccurate := IsPitchAccurate(settings.accuracyLevel, old(audio.pitchDetune)))
      ensures referenceHarmonicAmplitudes == old(referenceHarmonicAmplitudes)
      ensures settings == old(settings) && timbreDrawer == old(timbreDrawer)
    {
      var position := IndicatorPosition(audio.pitchDetune);
      var accuracyPoint := AccuracyPoints(settings.accuracyLevel);
      audio := audio.(isPitchAccurate := position in accuracyPoint);
    }

    /** `updateAmplitudes` in scroll mode: visits the pairs (i, i+1) for
        i = 0, 2, ..., 2046 and writes bin i/2 when the spectrum has it. */
    method UpdateAmplitudes(fftData: seq<real>)
      requires Valid()
      requires |fftData| >= FFT_SIZE
      modifies this
      ensures Valid()
      ensures audio == AmplitudesUpdated(old(audio), fftData, env.math)
      ensures referenceHarmonicAmplitudes == old(referenceHarmonicAmplitudes)
      ensures settings == old(settings) && timbreDrawer == old(timbreDrawer)
    {
      var i := 0;
      while i < FFT_SIZE - 1
        invariant 0 <= i <= FFT_SIZE && i % 2 == 0
        invariant audio == old(audio).(amplitudes := audio.amplitudes)
        invariant |audio.amplitudes| == |old(audio.amplitudes)|
        invariant forall j :: 0 <= j < |audio.amplitudes| ==>
          audio.amplitudes[j] == if j < i / 2 then ScrollBinValue(env.math, fftData[2 * j], fftData[2 * j + 1])
                                 else old(audio.amplitudes)[j]
        invariant referenceHarmonicAmplitudes == old(referenceHarmonicAmplitudes)
        invariant settings == old(settings) && timbreDrawer == old(timbreDrawer)
      {
        var re := fftData[i];
        var im := fftData[i + 1];
        var scaledAmplitude := ScaledAmplitude(env.math, re, im);
        if i / 2 < |audio.amplitudes| {
          var mappedAmplitude := Map(scaledAmplitude, 0.3, 0.9, 0.0, 1.0);
          audio := audio.(amplitudes := audio.amplitudes[i / 2 := Restrict(mappedAmplitude)]);
        }
        i := i + 2;
      }
      assert audio.amplitudes == ScrollSpectrum(old(audio.amplitudes), fftData, env.math);
      AmplitudesUpdatePreservesValid(old(audio), fftData, env.math);
    }

    /** `updateSpectralCentroid`: the centroid over 1100 Hz times 0.5, capped
        at 1 and then raised to 0, as two assignments. */
    method UpdateSpectralCentroid()
      requires Valid()
      requires AmplitudeSum(audio.amplitudes) != 0.0
      modifies this
      ensures Valid()
      ensures audio == old(audio).(audioFeatures := old(audio.audioFeatures).(
                         spectralCentroid := SpectralCentroidFeature(old(audio.amplitudes))))
      ensures referenceHarmonicAmplitudes == old(referenceHarmonicAmplitudes)
      ensures settings == old(settings) && timbreDrawer == old(timbreDrawer)
    {
      var weightedFrequenciesSum := WeightedFrequencySum(audio.amplitudes);
      var amplitudeSum := AmplitudeSum(audio.amplitudes);
      var spectralCentroid := weightedFrequenciesSum / amplitudeSum;
      var threshold := BRIGHTNESS_THRESHOLD;
      var result := spectralCentroid / threshold * CENTROID_SCALE;
      audio := audio.(audioFeatures := audio.audioFeatures.(
                 spectralCentroid := if result > 1.0 then 1.0 else result));
      audio := audio.(audioFeatures := audio.audioFeatures.(
                 spectralCentroid := if result < 0.0 then 0.0 else audio.audioFeatures.spectralCentroid));
    }

    /** `updateQuality`: the rank loop over the overtones (`dropFirst()`). */
    method UpdateQuality()
      requires Valid()
      modifies this
      ensures Valid()
      ensures audio == old(audio).(audioFeatures := old(audio.audioFeatures).(
                         quality := Quality(old(audio.harmonicAmplitudes))))
      ensures referenceHarmonicAmplitudes == old(referenceHarmonicAmplitudes)
      ensures settings == old(settings) && timbreDrawer == old(timbreDrawer)
    {
      var rank := 1.0;
      var fundFreq := audio.harmonicAmplitudes[0];
      var overtones := audio.harmonicAmplitudes[1..];
      var i := 0;
      while i < |overtones|
        invariant 0 <= i <= |overtones|
        invariant rank == QualityRank(fundFreq, overtones[..i])
      {
        var freq := overtones[i];
        assert overtones[..i + 1][..i] == overtones[..i];
        if freq > fundFreq {
          rank := rank * (fundFreq / freq);
        }
        i := i + 1;
      }
      assert overtones[..i] == overtones;
      audio := audio.(audioFeatures := audio.audioFeatures.(quality := rank));
    }

    /** `updateReferenceTimbre`: a no-op for a missing sample; otherwise the
        sample is rescaled in place by its maximum and read at the harmonics
        of the nearest standard pitch. */
    method UpdateReferenceTimbre()
      requires Valid()
      modifies this
      ensures Valid()
      ensures audio == old(audio) && settings == old(settings) && timbreDrawer == old(timbreDrawer)
      ensures referenceHarmonicAmplitudes
           == ReferenceRefreshed(old(referenceHarmonicAmplitudes), audio, timbreDrawer, env)
    {
      var note := env.theory.pitchFromFrequency(audio.pitchFrequency, Sharp);
      var soundSampleFFTData := SoundSample(env.tables, timbreDrawer, note);
      SoundSampleUsable(env.tables, timbreDrawer, note);
      if |soundSampleFFTData| != 0 {
        ghost var sample := soundSampleFFTData;
        var maxAmplitude := SeqMax(soundSampleFFTData);
        var i := 0;
        while i < |soundSampleFFTData|
          invariant 0 <= i <= |sample| == |soundSampleFFTData|
          invariant forall j :: 0 <= j < |sample| ==>
            soundSampleFFTData[j] == if j < i then DecibelValue(env.math.log10, sample[j], maxAmplitude)
                                     else sample[j]
        {
          soundSampleFFTData := soundSampleFFTData[i := DecibelValue(env.math.log10, soundSampleFFTData[i], maxAmplitude)];
          i := i + 1;
        }
        assert soundSampleFFTData == RescaledSample(env.math.log10, sample);

        var nearest := env.theory.mapNearestFrequency(audio.pitchFrequency);
        var harmonics := GetHarmonics(nearest, audio.totalHarmonics);
        NonNegativeFundamentalBins(nearest, audio.totalHarmonics);
        var index := 0;
        while index < |harmonics|
          invariant 0 <= index <= |harmonics|
          invariant |referenceHarmonicAmplitudes| == |harmonics|
          invariant forall k :: 0 <= k < |harmonics| ==>
            referenceHarmonicAmplitudes[k] == if k < index then LookupHarmonic(harmonics[k], soundSampleFFTData)
                                              else old(referenceHarmonicAmplitudes)[k]
          invariant audio == old(audio) && settings == old(settings) && timbreDrawer == old(timbreDrawer)
        {
          var harmonicIndex := BinIndex(harmonics[index]);
          if harmonicIndex > MAX_HARMONIC_BIN {
            referenceHarmonicAmplitudes := referenceHarmonicAmplitudes[index := 0.0];
          } else {
            referenceHarmonicAmplitudes := referenceHarmonicAmplitudes[index := soundSampleFFTData[harmonicIndex]];
          }
          index := index + 1;
        }
        assert referenceHarmonicAmplitudes == HarmonicAmplitudes(harmonics, soundSampleFFTData);
      }
    }

    /** `updatePitch`: behind the noise gate, store the pitch, refresh the
        harmonic amplitudes from the spectrum, freeze the displayed spectrum
        and recompute the features; then, in every case, refresh the
        reference timbre and the accuracy flag. */
    method UpdatePitch(pitchFrequency: seq<real>, amplitude: seq<real>)
      requires Valid()
      requires PitchFrameAcceptable(audio, settings, pitchFrequency, amplitude)
      modifies this
      ensures Valid()
      ensures audio == PitchUpdated(old(audio), old(settings), env.theory, pitchFrequency, amplitude)
      ensures referenceHarmonicAmplitudes
           == ReferenceRefreshed(old(referenceHarmonicAmplitudes), audio, timbreDrawer, env)
      ensures settings == old(settings) && timbreDrawer == old(timbreDrawer)
    {
      var noiseThreshold := NoiseThreshold(settings.noiseLevel);
      if amplitude[0] > noiseThreshold {
        var frequency := pitchFrequency[0];
        audio := audio.(pitchFrequency := frequency);
        audio := audio.(pitchNotation := env.theory.pitchFromFrequency(frequency, settings.noteRepresentation));
        audio := audio.(pitchDetune := env.theory.pitchDetuneFromFrequency(frequency));
        audio := audio.(peakBarIndex := BinIndex(frequency));

        var harmonics := GetHarmonics(frequency, audio.totalHarmonics);
        ghost var before := audio;
        var index := 0;
        while index < |harmonics|
          invariant 0 <= index <= |harmonics|
          invariant audio == before.(harmonicAmplitudes := audio.harmonicAmplitudes)
          invariant |audio.harmonicAmplitudes| == |harmonics|
          invariant forall k :: 0 <= k < |harmonics| ==>
            audio.harmonicAmplitudes[k] == if k < index then LookupHarmonic(harmonics[k], audio.amplitudes)
                                           else before.harmonicAmplitudes[k]
          invariant referenceHarmonicAmplitudes == old(referenceHarmonicAmplitudes)
          invariant settings == old(settings) && timbreDrawer == old(timbreDrawer)
        {
          var harmonicIndex := BinIndex(harmonics[index]);
          if harmonicIndex > MAX_HARMONIC_BIN {
            audio := audio.(harmonicAmplitudes := audio.harmonicAmplitudes[index := 0.0]);
          } else {
            audio := audio.(harmonicAmplitudes := audio.harmonicAmplitudes[index := audio.amplitudes[harmonicIndex]]);
          }
          index := index + 1;
        }
        assert audio.harmonicAmplitudes == HarmonicAmplitudesFor(old(audio), frequency);

        audio := audio.(amplitudesToDisplay := audio.amplitudes);
        UpdateSpectralCentroid();
        UpdateQuality();
      }
      UpdateReferenceTimbre();
      UpdateIsPitchAccurate();
    }
  }
}
