# Audio feature-extraction engine of the timbre visualizer

This project models the feature-extraction engine of `AudioViewModel`, the view model of the iOS timbre visualizer. It also proves properties of that model. The engine has two inputs:

- Each FFT frame updates the scrolling spectrum `audio.amplitudes`.
- Each pitch-tracker frame runs behind a noise gate. An accepted frame stores:
  - the pitch, its notation, its detune in cents and its peak bin;
  - the amplitude of every harmonic;
  - a frozen copy of the spectrum for display;
  - two derived features: the spectral centroid, mapped onto [0, 1] around 1100 Hz, and a "quality" rank.

On every pitch frame, accepted or not, the engine also refreshes `referenceHarmonicAmplitudes` from a recorded sample of the selected reference instrument (cello, flute or violin), and it recomputes whether the pitch is accurate enough for the chosen accuracy level.

The model has eight modules. `real` stands for Swift's `Float`/`Double`.

- `Numerics` holds the constants (FFT size 2048, sample rate 44100, bound 255), Swift's `Int(_:)` as truncation toward zero, the bin index of a frequency, `restrict` and `map`.
- `HarmonicSeries` covers `getHarmonics` (a method with a loop, proved against the function `Harmonics`) and the harmonic lookup with its "bin > 255 gives 0" bound.
- `Spectrum` gives the value scroll mode writes into each bin.
- `PitchTracking` holds the settings, the noise thresholds, the 9-slot tuning indicator and the accuracy sets.
- `Features` covers the spectral centroid (left folds, as `reduce` computes them) and the quality rank.
- `ReferenceTimbre` covers the instrument tables, `getSoundSample`, the rescaling of a sample by its maximum, and the read-out at the harmonics of the nearest standard pitch.
- `Pipeline` defines the `Audio` snapshot, a value type as the Swift struct is. It also defines the state each callback leaves, as functions of the previous state.
- `ViewModel` holds the class `AudioViewModel`. Its fields are `audio`, `referenceHarmonicAmplitudes`, `settings` and `timbreDrawer`. Its methods update those fields in place with the source's loops, and each method is proved to leave exactly the state the `Pipeline` functions describe.

Collaborators the engine calls but does not define are parameters of the model, passed in through `Environment`:

- `sqrt` and `log10`;
- `pitchFromFrequency`, `pitchDetuneFromFrequency` and `mapNearestFrequency`;
- the cello, flute and violin sample tables, as maps from note name to sample.

## Model

| member | source | states |
|---|---|---|
| Numerics.Restrict | visualizer/Core/Audio/ViewModels/AudioViewModel.swift:285-293 | The result is in [0, 1]. It is the input when the input is in [0, 1], 0 below 0 and 1 above 1. |
| Numerics.RestrictIsNearest | visualizer/Core/Audio/ViewModels/AudioViewModel.swift:285-293 | The clamp is the point of [0, 1] nearest to the input. |
| Numerics.RestrictMonotone | visualizer/Core/Audio/ViewModels/AudioViewModel.swift:285-293 | Clamping preserves order. |
| Numerics.Map | visualizer/Core/Audio/ViewModels/AudioViewModel.swift:281-283 | The remap is linear: (r - start2)(stop1 - start1) = (n - start1)(stop2 - start2). |
| Numerics.MapRoundTrip | visualizer/Core/Audio/ViewModels/AudioViewModel.swift:281-283 | Remapping back with the two ranges swapped returns the input, when both ranges are non-degenerate. |
| Numerics.DisplayRemapRegions | visualizer/Core/Audio/ViewModels/AudioViewModel.swift:230-231 | A scaled amplitude shows as 0 exactly when it is ≤ 0.3, and as 1 exactly when it is ≥ 0.9. |
| Numerics.SwiftInt | visualizer/Core/Audio/ViewModels/AudioViewModel.swift:175 | `Int(x)` is the floor for x ≥ 0 and truncates toward zero below 0. |
| Numerics.BinIndex | visualizer/Core/Audio/ViewModels/AudioViewModel.swift:182 | The bin index is non-negative exactly for frequencies above -44100/2048 Hz, and so for every non-negative frequency. |
| Numerics.BinAboveBoundIffCutoff | visualizer/Core/Audio/ViewModels/AudioViewModel.swift:182-183 | A harmonic's bin exceeds 255 exactly when the harmonic is at or above 5512.5 Hz. |
| HarmonicSeries.Harmonics | visualizer/Core/Audio/ViewModels/AudioViewModel.swift:295-301 | The series of the first n harmonics has exactly n entries. |
| HarmonicSeries.HarmonicAt | visualizer/Core/Audio/ViewModels/AudioViewModel.swift:295-301 | Entry k of the series is fundamental · (k + 1). |
| HarmonicSeries.ZeroFundamentalHarmonics | visualizer/Core/Audio/ViewModels/AudioViewModel.swift:295-301 | Fundamental 0 gives all zeros. |
| HarmonicSeries.GetHarmonics | visualizer/Core/Audio/ViewModels/AudioViewModel.swift:295-301 | The loop returns exactly n entries, entry k = fundamental · (k + 1), which is the series above. It requires n ≥ 1, because `1...n` traps otherwise. |
| HarmonicSeries.NonNegativeFundamentalBins | visualizer/Core/Audio/ViewModels/AudioViewModel.swift:180-186 | A non-negative fundamental gives no negative bin index, so no lookup can trap on a negative index. |
| HarmonicSeries.HarmonicAmplitudesAt | visualizer/Core/Audio/ViewModels/AudioViewModel.swift:180-188 | The lookup keeps one entry per harmonic. An entry is 0 when its bin exceeds 255; otherwise it is the spectrum at that bin. |
| HarmonicSeries.HarmonicAmplitudesInUnitRange | visualizer/Core/Audio/ViewModels/AudioViewModel.swift:180-188 | Looking up harmonics in a spectrum within [0, 1] gives values within [0, 1]. |
| HarmonicSeries.HarmonicZeroedIff | visualizer/Core/Audio/ViewModels/AudioViewModel.swift:180-188 | In a strictly positive spectrum, entry k is 0 exactly when fundamental · (k + 1) ≥ 5512.5 Hz. |
| HarmonicSeries.ZeroFundamentalReadsBinZero | visualizer/Core/Audio/ViewModels/AudioViewModel.swift:180-188 | With fundamental 0, every harmonic reads bin 0. It does not read 0. |
| HarmonicSeries.FlatSpectrumAt440 | visualizer/Core/Audio/ViewModels/AudioViewModel.swift:180-188 | At 440 Hz, all 12 harmonics lie below the cutoff, so a flat spectrum of 0.5 gives twelve values of 0.5. |
| Spectrum.ScrollBinValue | visualizer/Core/Audio/ViewModels/AudioViewModel.swift:211-231 | The value written for one bin lies in [0, 1]. |
| Spectrum.ScrollSpectrumAt | visualizer/Core/Audio/ViewModels/AudioViewModel.swift:203-236 | Scroll mode keeps the bin count. It writes restrict(map(scaled, 0.3, 0.9, 0, 1)) into each bin j < 1024 that exists and leaves the other bins alone. |
| Spectrum.ScrollSpectrumInUnitRange | visualizer/Core/Audio/ViewModels/AudioViewModel.swift:203-236 | A spectrum within [0, 1] stays within [0, 1]. |
| Spectrum.ScrollSpectrumForgetsPrevious | visualizer/Core/Audio/ViewModels/AudioViewModel.swift:203-236 | With at most 1024 bins, the new spectrum does not depend on the old one. |
| PitchTracking.NoiseThreshold | visualizer/Core/Audio/ViewModels/AudioViewModel.swift:158-167 | The threshold is 0.05, 0.1 or 0.5 for low, medium or high, so it lies in [0.05, 0.5]. |
| PitchTracking.NoiseGateOrdered | visualizer/Core/Audio/ViewModels/AudioViewModel.swift:158-170 | A frame that passes a higher level passes every lower level. An amplitude equal to the threshold is rejected. |
| PitchTracking.IndicatorDistance | visualizer/Core/Audio/ViewModels/AudioViewModel.swift:129-140 | The distance from slot 4 is the number of whole 12.5-cent steps in the detune, on the side of its sign. |
| PitchTracking.CenterWithinOneSlot | visualizer/Core/Audio/ViewModels/AudioViewModel.swift:129-140 | A detune of less than 12.5 cents either way shows slot 4. |
| PitchTracking.PositionOnIndicator | visualizer/Core/Audio/ViewModels/AudioViewModel.swift:129-140 | A detune of less than 62.5 cents either way shows a slot in 0..8. |
| PitchTracking.PositionSymmetric | visualizer/Core/Audio/ViewModels/AudioViewModel.swift:129-140 | Sharp and flat by the same amount sit mirrored about slot 4. |
| PitchTracking.PositionMonotone | visualizer/Core/Audio/ViewModels/AudioViewModel.swift:129-140 | A larger detune never shows a lower slot. |
| PitchTracking.TuningImpliesPractice | visualizer/Core/Audio/ViewModels/AudioViewModel.swift:142-154 | The tuning set {4} is within the practice set {3, 4, 5}, so a pitch accurate for tuning is accurate for practice. |
| PitchTracking.TuningAccurateIff | visualizer/Core/Audio/ViewModels/AudioViewModel.swift:129-154 | Accurate for tuning exactly when the detune is less than 12.5 cents either way. |
| PitchTracking.PracticeAccurateIff | visualizer/Core/Audio/ViewModels/AudioViewModel.swift:129-154 | Accurate for practice exactly when the detune is less than 25 cents either way. |
| PitchTracking.AccuracyExamples | visualizer/Core/Audio/ViewModels/AudioViewModel.swift:129-154 | 0 cents shows slot 4 and is accurate at both levels. 12.6 cents shows slot 5 and is accurate for practice only. |
| Features.CentroidToFeature | visualizer/Core/Audio/ViewModels/AudioViewModel.swift:321-325 | The two assignments store centroid / 1100 · 0.5 clamped to [0, 1]. |
| Features.SpectralCentroidFeature | visualizer/Core/Audio/ViewModels/AudioViewModel.swift:307-325 | The stored centroid feature lies in [0, 1]. |
| Features.BrightIffAboveThreshold | visualizer/Core/Audio/ViewModels/AudioViewModel.swift:318-325 | The feature exceeds 0.5 exactly for centroids above 1100 Hz, which the source treats as bright. |
| Features.FeatureSaturation | visualizer/Core/Audio/ViewModels/AudioViewModel.swift:321-325 | The feature is 1 exactly from 2200 Hz upward, and 0 exactly for centroids ≤ 0. |
| Features.AmplitudeSumNonNegative | visualizer/Core/Audio/ViewModels/AudioViewModel.swift:312-314 | A non-negative spectrum has a non-negative amplitude sum. |
| Features.WeightedSumBounds | visualizer/Core/Audio/ViewModels/AudioViewModel.swift:308-314 | For a non-negative spectrum: 0 ≤ weighted sum ≤ (top bin frequency) · (amplitude sum). |
| Features.CentroidInBinRange | visualizer/Core/Audio/ViewModels/AudioViewModel.swift:307-316 | With a positive amplitude sum, the centroid lies between bin 0 and the top bin's frequency. |
| Features.FlatSums | visualizer/Core/Audio/ViewModels/AudioViewModel.swift:308-314 | The closed forms of both sums for a flat spectrum. |
| Features.FlatSpectrumCentroid | visualizer/Core/Audio/ViewModels/AudioViewModel.swift:307-316 | A flat spectrum has its centroid at half the top bin's frequency. |
| Features.NonNegativeFundamentalDivides | visualizer/Core/Audio/ViewModels/AudioViewModel.swift:342-347 | With a fundamental ≥ 0, the rank divides only by overtones > fundamental ≥ 0, so never by 0. |
| Features.QualityRankInUnitRange | visualizer/Core/Audio/ViewModels/AudioViewModel.swift:332-356 | With a fundamental ≥ 0, the rank lies in [0, 1]. |
| Features.QualityRankOneIff | visualizer/Core/Audio/ViewModels/AudioViewModel.swift:332-356 | With a fundamental ≥ 0, the rank is exactly 1 if and only if no overtone is louder than the fundamental. |
| ReferenceTimbre.SeqMax | visualizer/Core/Audio/ViewModels/AudioViewModel.swift:258 | `max()` is an element of the sample and bounds every element. |
| ReferenceTimbre.SoundSampleUsable | visualizer/Core/Audio/ViewModels/AudioViewModel.swift:238-249 | With valid tables, the sample looked up is usable. A note missing from the selected table gives the empty sample. |
| ReferenceTimbre.RescaledSample | visualizer/Core/Audio/ViewModels/AudioViewModel.swift:258-263 | Rescaling keeps the sample's length. |
| ReferenceTimbre.PeakRescalesAboveOne | visualizer/Core/Audio/ViewModels/AudioViewModel.swift:258-263 | The sample's peak becomes 250 / 229.80, which is above 1. Reference values are not clamped. |
| ReferenceTimbre.EmptySampleKeepsReference | visualizer/Core/Audio/ViewModels/AudioViewModel.swift:252-254 | An empty sample leaves the reference values unchanged. |
| ReferenceTimbre.ReferenceAmplitudesAt | visualizer/Core/Audio/ViewModels/AudioViewModel.swift:251-278 | A non-empty sample keeps the length. An entry whose harmonic is ≥ 5512.5 Hz becomes 0. Any other entry becomes (20 · log10(s[bin] / max) · 4 + 250) / 229.80, with bin in 0..255. |
| Pipeline.HarmonicAmplitudesFor | visualizer/Core/Audio/ViewModels/AudioViewModel.swift:180-188 | An accepted frame stores one harmonic amplitude per harmonic, each in [0, 1]. |
| Pipeline.AmplitudesUpdatePreservesValid | visualizer/Core/Audio/ViewModels/AudioViewModel.swift:203-236 | A scroll frame keeps the snapshot valid and keeps the bin count. |
| Pipeline.NoiseGateKeepsState | visualizer/Core/Audio/ViewModels/AudioViewModel.swift:170-199 | When amplitude[0] ≤ threshold, the frame changes nothing but the accuracy flag, which it recomputes from the old detune. |
| Pipeline.AcceptedFrame | visualizer/Core/Audio/ViewModels/AudioViewModel.swift:170-199 | An accepted frame sets the pitch, detune, peak bin and harmonic amplitudes. It sets amplitudesToDisplay to the spectrum and leaves the spectrum itself unchanged. Both features lie in [0, 1]. The accuracy flag follows the new detune. |
| Pipeline.PitchUpdatePreservesValid | visualizer/Core/Audio/ViewModels/AudioViewModel.swift:157-200 | A pitch frame keeps the snapshot valid either way the gate goes. |
| Pipeline.AcceptedQualityOneIff | visualizer/Core/Audio/ViewModels/AudioViewModel.swift:180-196 | After an accepted frame, quality is 1 exactly when no stored overtone amplitude exceeds the fundamental's. |
| Pipeline.ReferenceRefreshKeepsShape | visualizer/Core/Audio/ViewModels/AudioViewModel.swift:238-278 | A refresh keeps the number of reference values. A note with no sample leaves them unchanged. |
| ViewModel.AudioViewModel.constructor | visualizer/Core/Audio/ViewModels/AudioViewModel.swift:62-67 | Every reference value starts at 0.5, then the reference timbre is refreshed once. The invariant holds. |
| ViewModel.AudioViewModel.UpdateIsPitchAccurate | visualizer/Core/Audio/ViewModels/AudioViewModel.swift:142-154 | Only the accuracy flag changes. It becomes whether the indicator slot is in the level's accuracy set. |
| ViewModel.AudioViewModel.UpdateAmplitudes | visualizer/Core/Audio/ViewModels/AudioViewModel.swift:203-236 | The loop over the pairs leaves exactly the scroll-mode spectrum. The reference values, the settings and the invariant are unchanged. |
| ViewModel.AudioViewModel.UpdateSpectralCentroid | visualizer/Core/Audio/ViewModels/AudioViewModel.swift:307-326 | Only the centroid feature changes, to the clamped centroid / 1100 · 0.5. It requires a non-zero amplitude sum. |
| ViewModel.AudioViewModel.UpdateQuality | visualizer/Core/Audio/ViewModels/AudioViewModel.swift:332-356 | The rank loop stores the quality rank of harmonicAmplitudes[0] against the rest, and nothing else changes. |
| ViewModel.AudioViewModel.UpdateReferenceTimbre | visualizer/Core/Audio/ViewModels/AudioViewModel.swift:251-278 | The in-place rescale and the lookup loop leave exactly the refreshed reference values. `audio` and the settings are unchanged. |
| ViewModel.AudioViewModel.UpdatePitch | visualizer/Core/Audio/ViewModels/AudioViewModel.swift:157-200 | The gated update, the reference refresh and the accuracy flag leave exactly the state the pitch-frame function gives. The invariant is kept. |

## Left out

- AudioKit plumbing is not modelled: engine construction, mixers, the FFT and pitch taps, `start`/`stop`/`toggle`, and the Combine subscriptions that copy `settings` and `timbreDrawer` from the child view models. These are I/O and library calls. `settings` and `timbreDrawer` are plain fields here.
- `DispatchQueue.main.async`: the asynchronous writes in `updateAmplitudes` happen in order within the call, and each callback is one sequential method call.
- Average mode of `updateAmplitudes` is not modelled. Only scroll mode is ever requested, and the average-mode buckets depend on closures that capture `bin`.
- `updateInharmonicity` is an empty stub, and the debug `print`s in `updateQuality` produce no state.
- Floating point: `real` replaces `Float`/`Double`, so rounding, infinities and NaN are not modelled. In particular, `log10(0) = -inf` and NaN from a zero amplitude sum are absent. `sqrt` and `log10` are uninterpreted, so nothing is claimed about the decibel formulas themselves beyond their shape.
- The music-theory helpers (`pitchFromFrequency`, `pitchDetuneFromFrequency`, `mapNearestFrequency`) and the cello, flute and violin tables are not part of this model. They are parameters. The one thing assumed is that `mapNearestFrequency` never returns a negative frequency.
- The instrument selector's cases beyond cello, flute and violin are folded into one `OtherInstrument`, which reads the cello table as the source's `default:` does.
- The source traps in some cases. These are preconditions here, not modelled errors:
  - `UpdatePitch`:
    - `amplitude` must be non-empty.
    - An accepted frame needs a non-empty `pitchFrequency`.
    - No harmonic may have a negative bin. This is weaker than a non-negative fundamental, which implies it.
    - The amplitude sum must not be 0.
  - `UpdateSpectralCentroid`: the amplitude sum must not be 0, because the division has no guard.
  - `GetHarmonics`: n ≥ 1.
  - The snapshot invariant asks for at least 256 bins, at least one harmonic, and spectrum values in [0, 1]. The last is what makes the quality rank's fundamental non-negative.
  - Every recorded sample is either empty or has at least 256 entries and a non-zero maximum.
- Where a plain reading of the engine's intent and its code differ, the model follows the code:
  - Reference values are not clamped. The rescaled peak is 250 / 229.80 > 1.
  - A fundamental of 0 reads bin 0 for every harmonic rather than giving 0.
  - The centroid has no zero-sum guard.
