/** Pitch-state settings, the noise gate and the tuning indicator: the noise
    threshold chosen by the noise level, the 9-slot indicator position of a
    detune in cents, and the accuracy sets of the two accuracy levels. */
module PitchTracking {
  import opened Numerics

  datatype NoiseLevel = Low | Medium | High
  datatype AccuracyLevel = Tuning | Practice
  datatype NoteRepresentation = Sharp | Flat

  /** The user settings the engine reads. */
  datatype Setting = Setting(noiseLevel: NoiseLevel, accuracyLevel: AccuracyLevel,
                             noteRepresentation: NoteRepresentation)

  /** The noise threshold of each noise level. */
  function NoiseThreshold(level: NoiseLevel): (threshold: real)
    ensures 0.05 <= threshold <= 0.5
  {
    match level
    case Low => 0.05
    case Medium => 0.1
    case High => 0.5
  }

  /** The gate: a pitch frame is accepted only when channel 0's amplitude is
      strictly above the threshold. */
  predicate PassesNoiseGate(level: NoiseLevel, amplitude: real)
  {
    amplitude > NoiseThreshold(level)
  }

  /** The thresholds rise with the level, so a frame accepted at a higher
      level is accepted at every lower one; an amplitude at the threshold
      itself is rejected. */
  lemma NoiseGateOrdered(amplitude: real)
    ensures PassesNoiseGate(High, amplitude) ==> PassesNoiseGate(Medium, amplitude)
    ensures PassesNoiseGate(Medium, amplitude) ==> PassesNoiseGate(Low, amplitude)
    ensures !PassesNoiseGate(Low, 0.05) && !PassesNoiseGate(Medium, 0.1) && !PassesNoiseGate(High, 0.5)
  {
  }

  /** Width of one indicator slot, in cents. */
  const SLOT_CENTS: real := 12.5
  /** The centre slot: perfectly in tune. */
  const CENTER_SLOT: int := 4

  /** `getPitchIndicatorPosition`: slot 4 for no detune, one slot further
      out for every full 12.5 cents (Swift's `Int` truncation of a
      non-negative value is its floor). */
  function IndicatorPosition(detune: real): int
  {
    if detune < 0.0 then CENTER_SLOT - (-detune / SLOT_CENTS).Floor
    else if detune > 0.0 then (detune / SLOT_CENTS).Floor + CENTER_SLOT
    else CENTER_SLOT
  }

  /** The distance from the centre slot is the number of whole 12.5-cent
      steps in the detune, on the side of its sign. */
  lemma IndicatorDistance(detune: real)
    ensures detune >= 0.0 ==> IndicatorPosition(detune) - CENTER_SLOT == (Abs(detune) / SLOT_CENTS).Floor
    ensures detune <= 0.0 ==> CENTER_SLOT - IndicatorPosition(detune) == (Abs(detune) / SLOT_CENTS).Floor
  {
    if detune == 0.0 {
      assert (Abs(detune) / SLOT_CENTS).Floor == 0;
    }
  }

  /** Less than one slot of detune either way shows the centre slot. */
  lemma CenterWithinOneSlot(detune: real)
    requires Abs(detune) < SLOT_CENTS
    ensures IndicatorPosition(detune) == CENTER_SLOT
  {
    IndicatorDistance(detune);
    assert 0.0 <= Abs(detune) / SLOT_CENTS < 1.0;
  }

  /** Detunes of less than 62.5 cents stay on the 9-slot indicator. */
  lemma PositionOnIndicator(detune: real)
    requires Abs(detune) < 62.5
    ensures 0 <= IndicatorPosition(detune) <= 8
  {
    IndicatorDistance(detune);
    assert 0.0 <= Abs(detune) / SLOT_CENTS < 5.0;
  }

  /** Sharp and flat by the same amount sit mirrored about the centre. */
  lemma PositionSymmetric(detune: real)
    ensures IndicatorPosition(-detune) == 2 * CENTER_SLOT - IndicatorPosition(detune)
  {
    IndicatorDistance(detune);
    IndicatorDistance(-detune);
  }

  /** A larger detune never shows a lower slot. */
  lemma PositionMonotone(d1: real, d2: real)
    requires d1 <= d2
    ensures IndicatorPosition(d1) <= IndicatorPosition(d2)
  {
    IndicatorDistance(d1);
    IndicatorDistance(d2);
    if d1 >= 0.0 {
      FloorMonotone(d1 / SLOT_CENTS, d2 / SLOT_CENTS);
    } else if d2 <= 0.0 {
      FloorMonotone(-d2 / SLOT_CENTS, -d1 / SLOT_CENTS);
    }
  }

  lemma FloorMonotone(x: real, y: real)
    requires x <= y
    ensures x.Floor <= y.Floor
  {
  }

  /** The slots counted as accurate at each accuracy level. */
  function AccuracyPoints(level: AccuracyLevel): seq<int>
  {
    match level
    case Tuning => [4]
    case Practice => [3, 4, 5]
  }

  /** `updateIsPitchAccurate`: the indicator slot of the detune is one of the
      accuracy level's slots. */
  predicate IsPitchAccurate(level: AccuracyLevel, detune: real)
  {
    IndicatorPosition(detune) in AccuracyPoints(level)
  }

  /** The tuning slots are among the practice slots, so a pitch accurate for
      tuning is accurate for practice. */
  lemma TuningImpliesPractice(detune: real)
    ensures forall p :: p in AccuracyPoints(Tuning) ==> p in AccuracyPoints(Practice)
    ensures IsPitchAccurate(Tuning, detune) ==> IsPitchAccurate(Practice, detune)
  {
  }

  /** Accurate for tuning exactly when less than 12.5 cents off. */
  lemma TuningAccurateIff(detune: real)
    ensures IsPitchAccurate(Tuning, detune) <==> Abs(detune) < SLOT_CENTS
  {
    IndicatorDistance(detune);
    if Abs(detune) >= SLOT_CENTS {
      assert Abs(detune) / SLOT_CENTS >= 1.0;
    } else {
      assert Abs(detune) / SLOT_CENTS < 1.0;
    }
  }

  /** Accurate for practice exactly when less than 25 cents off. */
  lemma PracticeAccurateIff(detune: real)
    ensures IsPitchAccurate(Practice, detune) <==> Abs(detune) < 2.0 * SLOT_CENTS
  {
    IndicatorDistance(detune);
    if Abs(detune) >= 2.0 * SLOT_CENTS {
      assert Abs(detune) / SLOT_CENTS >= 2.0;
    } else {
      assert Abs(detune) / SLOT_CENTS < 2.0;
    }
  }

  /** In tune is accurate at both levels; 12.6 cents sharp shows slot 5,
      accurate only for practice. */
  lemma AccuracyExamples()
    ensures IndicatorPosition(0.0) == 4
    ensures IsPitchAccurate(Tuning, 0.0) && IsPitchAccurate(Practice, 0.0)
    ensures IndicatorPosition(12.6) == 5
    ensures !IsPitchAccurate(Tuning, 12.6) && IsPitchAccurate(Practice, 12.6)
  {
    assert (12.6 / SLOT_CENTS).Floor == 1;
  }
}
