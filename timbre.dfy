/** The reference-timbre comparison: the per-instrument sample tables, the
    rescaling of a sample by its maximum onto the engine's decibel scale,
    and the read-out of the rescaled sample at the harmonics of the nearest
    standard pitch. */
module ReferenceTimbre {
  import opened Numerics
  import opened HarmonicSeries

  /** The selectable reference instruments; the selector has further cases,
      all of which read the cello table. */
  datatype Instrument = Cello | Flute | Violin | OtherInstrument

  /** The recorded sample spectra, by note name (sharp notation). */
  datatype TimbreTables = TimbreTables(cello: map<string, seq<real>>,
                                       flute: map<string, seq<real>>,
                                       violin: map<string, seq<real>>)

  /** `max()` of a non-empty sample. */
  function SeqMax(s: seq<real>): (m: real)
    requires |s| > 0
    ensures exists i :: 0 <= i < |s| && s[i] == m
    ensures forall i :: 0 <= i < |s| ==> s[i] <= m
  {
    if |s| == 1 then s[0]
    else
      var rest := SeqMax(s[1..]);
      if s[0] >= rest then s[0] else rest
  }

  function SampleTable(tables: TimbreTables, selected: Instrument): map<string, seq<real>>
  {
    match selected
    case Cello => tables.cello
    case Flute => tables.flute
    case Violin => tables.violin
    case OtherInstrument => tables.cello
  }

  /** `getSoundSample`: the selected instrument's sample for the note, or the
      empty sample when the table has none. */
  function SoundSample(tables: TimbreTables, selected: Instrument, note: string): seq<real>
  {
    var table := SampleTable(tables, selected);
    if note in table then table[note] else []
  }

  /** A sample the comparison can use without trapping: empty, or with at
      least 256 entries (every bin up to 255 readable) and a non-zero maximum
      to divide by. */
  predicate UsableSample(s: seq<real>)
  {
    |s| == 0 || (|s| > MAX_HARMONIC_BIN && SeqMax(s) != 0.0)
  }

  predicate UsableTable(table: map<string, seq<real>>)
  {
    forall note :: note in table ==> UsableSample(table[note])
  }

  predicate ValidTables(tables: TimbreTables)
  {
    UsableTable(tables.cello) && UsableTable(tables.flute) && UsableTable(tables.violin)
  }

  /** Every lookup in valid tables yields a usable sample, empty on a miss. */
  lemma SoundSampleUsable(tables: TimbreTables, selected: Instrument, note: string)
    requires ValidTables(tables)
    ensures UsableSample(SoundSample(tables, selected, note))
    ensures note !in SampleTable(tables, selected) ==> SoundSample(tables, selected, note) == []
  {
  }

  /** One sample value divided by the sample's maximum, in decibels, times 4,
      shifted by 250 and divided by 229.80. */
  function DecibelValue(log10: real -> real, amplitude: real, maxAmplitude: real): real
    requires maxAmplitude != 0.0
  {
    var normalizedAmplitude := amplitude / maxAmplitude;
    var amplitudeIndB := 20.0 * log10(normalizedAmplitude);
    (amplitudeIndB * 4.0 + 250.0) / 229.80
  }

  /** The sample after the in-place rescaling loop. */
  function RescaledSample(log10: real -> real, s: seq<real>): (r: seq<real>)
    requires |s| > 0 && UsableSample(s)
    ensures |r| == |s|
  {
    var maxAmplitude := SeqMax(s);
    seq(|s|, i requires 0 <= i < |s| => DecibelValue(log10, s[i], maxAmplitude))
  }

  /** The rescaled values are not clamped: with log10(1) = 0 the sample's
      peak becomes 250 / 229.80, which is above 1. */
  lemma PeakRescalesAboveOne(log10: real -> real, s: seq<real>, i: nat)
    requires |s| > 0 && UsableSample(s)
    requires log10(1.0) == 0.0
    requires i < |s| && s[i] == SeqMax(s)
    ensures RescaledSample(log10, s)[i] == 250.0 / 229.80
    ensures RescaledSample(log10, s)[i] > 1.0
  {
    var m := SeqMax(s);
    DivideBySelf(m);
    assert RescaledSample(log10, s)[i] == DecibelValue(log10, m, m);
  }

  lemma DivideBySelf(x: real)
    requires x != 0.0
    ensures x / x == 1.0
  {
  }

  /** `updateReferenceTimbre` on the values: the previous reference values
      when the sample is empty, otherwise the rescaled sample read at the
      harmonics of `nearestFundamental`, one per previous entry. */
  function ReferenceAmplitudes(current: seq<real>, sample: seq<real>, log10: real -> real,
                               nearestFundamental: real): seq<real>
    requires UsableSample(sample)
    requires nearestFundamental >= 0.0
  {
    if |sample| == 0 then current
    else
      NonNegativeFundamentalBins(nearestFundamental, |current|);
      HarmonicAmplitudes(Harmonics(nearestFundamental, |current|), RescaledSample(log10, sample))
  }

  /** A missing sample leaves the reference values as they were. */
  lemma EmptySampleKeepsReference(current: seq<real>, log10: real -> real, nearestFundamental: real)
    requires nearestFundamental >= 0.0
    ensures ReferenceAmplitudes(current, [], log10, nearestFundamental) == current
  {
  }

  /** What a refresh from a non-empty sample promises, entry by entry: the
      length is kept; a harmonic at or above 5512.5 Hz reads 0; any other
      reads the rescaled value of the sample at the harmonic's bin. */
  lemma ReferenceAmplitudesAt(current: seq<real>, sample: seq<real>, log10: real -> real,
                              nearestFundamental: real, k: nat)
    requires UsableSample(sample) && |sample| > 0
    requires nearestFundamental >= 0.0
    requires k < |current|
    ensures |ReferenceAmplitudes(current, sample, log10, nearestFundamental)| == |current|
    ensures nearestFundamental * (k + 1) as real >= HARMONIC_CUTOFF ==>
      ReferenceAmplitudes(current, sample, log10, nearestFundamental)[k] == 0.0
    ensures nearestFundamental * (k + 1) as real < HARMONIC_CUTOFF ==>
      var bin := BinIndex(nearestFundamental * (k + 1) as real);
      0 <= bin <= MAX_HARMONIC_BIN &&
      ReferenceAmplitudes(current, sample, log10, nearestFundamental)[k]
        == DecibelValue(log10, sample[bin], SeqMax(sample))
  {
    var harmonics := Harmonics(nearestFundamental, |current|);
    NonNegativeFundamentalBins(nearestFundamental, |current|);
    HarmonicAt(nearestFundamental, |current|, k);
    HarmonicAmplitudesAt(harmonics, RescaledSample(log10, sample), k);
  }
}
