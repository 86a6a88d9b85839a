/**
 * The note tables and the octave engine of the keyboard: which note each of
 * the ten key slots plays for a given octave and scale mode, as the pitch index
 * `12 * octave + semitone` and the label "<note><octave>" written on the key.
 * The frequency `440 * 2^((pitch - 57) / 12)` is kept as its integer exponent,
 * the number of semitones above A4.
 */
module Scale {
  import opened JsText

  /** The two settings of the scale-mode select element. */
  datatype ScaleMode = Major | Chromatic

  /** A note table entry: its name (letter and optional sharp) and its offset from the octave's C. */
  datatype NoteEntry = NoteEntry(name: string, semitone: int)

  /** `baseNotes`: the C major scale from C up to the E of the next octave. */
  const BaseNotes: seq<NoteEntry> := [
    NoteEntry("C", 0), NoteEntry("D", 2), NoteEntry("E", 4), NoteEntry("F", 5),
    NoteEntry("G", 7), NoteEntry("A", 9), NoteEntry("B", 11), NoteEntry("C", 12),
    NoteEntry("D", 14), NoteEntry("E", 16)
  ]

  /** `chromaticNotes`: the twelve notes of one octave. */
  const ChromaticNotes: seq<NoteEntry> := [
    NoteEntry("C", 0), NoteEntry("C#", 1), NoteEntry("D", 2), NoteEntry("D#", 3),
    NoteEntry("E", 4), NoteEntry("F", 5), NoteEntry("F#", 6), NoteEntry("G", 7),
    NoteEntry("G#", 8), NoteEntry("A", 9), NoteEntry("A#", 10), NoteEntry("B", 11)
  ]

  /** Number of key slots. */
  const SlotCount := 10

  /** Pitch index of A4 (440 Hz) in the script's numbering: octave 4, semitone 9. */
  const A4Pitch := 57

  /** The select element's value; every value other than "chromatic" takes the major branch. */
  function ParseScaleMode(value: string): ScaleMode {
    if value == "chromatic" then Chromatic else Major
  }

  /** The ten notes laid on the key slots: the major table, or the first ten chromatic notes. */
  function ScaleNotes(mode: ScaleMode): (notes: seq<NoteEntry>)
    ensures |notes| == SlotCount
  {
    match mode
    case Major => BaseNotes
    case Chromatic => ChromaticNotes[..SlotCount]
  }

  /**
   * The chromatic branch of `updateKeysForOctave`: ten consecutive notes from C,
   * wrapping the table index at 12 and adding an octave for each wrap.
   */
  method BuildChromaticNotes() returns (notes: seq<NoteEntry>)
    ensures notes == ScaleNotes(Chromatic)
    ensures forall i :: 0 <= i < |notes| ==> notes[i].semitone == i
  {
    notes := [];
    var start := 0;
    for i := 0 to SlotCount
      invariant notes == ChromaticNotes[..i]
    {
      var idx := (start + i) % 12;
      var octShift := (start + i) / 12;
      notes := notes + [NoteEntry(ChromaticNotes[idx].name, ChromaticNotes[idx].semitone + 12 * octShift)];
    }
  }

  /** The pitch index `12 * octave + semitone` that `updateKeysForOctave` hands to `noteToFreq`. */
  function PitchIndex(octave: int, e: NoteEntry): int {
    12 * octave + e.semitone
  }

  /** The exponent of `noteToFreq`: 440 Hz is multiplied by 2^(SemitonesFromA4(p) / 12). */
  function SemitonesFromA4(pitch: int): int {
    pitch - A4Pitch
  }

  /** The key label: the note name followed by the octave, one higher for offsets of 12 or more. */
  function NoteLabel(octave: int, e: NoteEntry): string {
    e.name + NumberToString(Finite(octave + (if e.semitone >= 12 then 1 else 0)), 10)
  }

  /** An octave number of one digit is written as that digit. */
  lemma OneDigitOctave(n: int)
    requires 0 <= n <= 9
    ensures NumberToString(Finite(n), 10) == [DigitChar(n)]
  {
  }

  /**
   * Major mode: slot i plays `baseNotes[i]` on the current octave and is labelled
   * with the octave number, except slots 7 to 9 (C, D, E above B), which are
   * labelled with the next octave and sound exactly as slots 0 to 2 do one octave up.
   */
  lemma MajorSlot(octave: int, i: nat)
    requires i < SlotCount
    ensures PitchIndex(octave, ScaleNotes(Major)[i]) == 12 * octave + BaseNotes[i].semitone
    ensures NoteLabel(octave, ScaleNotes(Major)[i])
         == BaseNotes[i].name + NumberToString(Finite(if i < 7 then octave else octave + 1), 10)
    ensures i >= 7 ==> NoteLabel(octave, BaseNotes[i]) == NoteLabel(octave + 1, BaseNotes[i - 7])
    ensures i >= 7 ==> PitchIndex(octave, BaseNotes[i]) == PitchIndex(octave + 1, BaseNotes[i - 7])
  {
  }

  /** Every major-mode name is the chromatic table's name for the same pitch class: no sharps. */
  lemma MajorNamesAreWhiteKeys(i: nat)
    requires i < SlotCount
    ensures BaseNotes[i].semitone >= 0
    ensures BaseNotes[i].name == ChromaticNotes[BaseNotes[i].semitone % 12].name
    ensures '#' !in BaseNotes[i].name
  {
  }

  /**
   * Chromatic mode: slot i is i semitones above the octave's C, is named by the
   * i-th chromatic note, and keeps the octave number unchanged (no slot reaches 12).
   */
  lemma ChromaticSlot(octave: int, i: nat)
    requires i < SlotCount
    ensures ScaleNotes(Chromatic)[i].semitone == i
    ensures PitchIndex(octave, ScaleNotes(Chromatic)[i]) == 12 * octave + i
    ensures NoteLabel(octave, ScaleNotes(Chromatic)[i])
         == ChromaticNotes[i].name + NumberToString(Finite(octave), 10)
  {
  }

  /** In both modes the pitch strictly rises from slot 0 to slot 9. */
  lemma PitchStrictlyIncreasing(mode: ScaleMode, octave: int, i: nat, j: nat)
    requires i < j < SlotCount
    ensures PitchIndex(octave, ScaleNotes(mode)[i]) < PitchIndex(octave, ScaleNotes(mode)[j])
  {
    var notes := ScaleNotes(mode);
    if mode == Chromatic {
      ChromaticSlot(octave, i);
      ChromaticSlot(octave, j);
    } else {
      assert forall k :: 0 < k < SlotCount ==> notes[k - 1].semitone < notes[k].semitone;
      var k := i;
      while k < j
        invariant i <= k <= j
        invariant notes[i].semitone <= notes[k].semitone - (k - i)
      {
        k := k + 1;
      }
    }
  }

  /** Raising the octave by one raises every slot by twelve semitones, i.e. doubles its frequency. */
  lemma OctaveStep(mode: ScaleMode, octave: int, i: nat)
    requires i < SlotCount
    ensures PitchIndex(octave + 1, ScaleNotes(mode)[i]) == PitchIndex(octave, ScaleNotes(mode)[i]) + 12
  {
  }

  /**
   * The tuning reference: on octave 4 in major mode slot 5 (A) is A4, zero semitones
   * from 440 Hz, and slot 0 (C4) is nine semitones below it.
   */
  lemma A4Reference(octave: int)
    ensures SemitonesFromA4(PitchIndex(4, ScaleNotes(Major)[5])) == 0
    ensures SemitonesFromA4(PitchIndex(octave, ScaleNotes(Major)[0])) == 12 * octave - 57
    ensures SemitonesFromA4(PitchIndex(octave, ScaleNotes(Major)[5])) == 12 * (octave - 4)
  {
  }

  /** The labels written on start-up (octave 4, major) and the chromatic C# of octave 4. */
  lemma OctaveFourLabels()
    ensures seq(SlotCount, i requires 0 <= i < SlotCount => NoteLabel(4, ScaleNotes(Major)[i]))
         == ["C4", "D4", "E4", "F4", "G4", "A4", "B4", "C5", "D5", "E5"]
    ensures NoteLabel(4, ScaleNotes(Chromatic)[1]) == "C#4"
  {
    OneDigitOctave(4);
    OneDigitOctave(5);
    var labels := seq(SlotCount, i requires 0 <= i < SlotCount => NoteLabel(4, ScaleNotes(Major)[i]));
    var expected := ["C4", "D4", "E4", "F4", "G4", "A4", "B4", "C5", "D5", "E5"];
    assert DigitChar(4) == '4' && DigitChar(5) == '5';
    forall i | 0 <= i < SlotCount
      ensures labels[i] == expected[i]
    {
      MajorSlot(4, i);
    }
  }
}
