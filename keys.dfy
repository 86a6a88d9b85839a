/**
 * The `KEYS` table of the ten key slots and the `activateKey` / `deactivateKey`
 * lookups. Highlighting a key and starting its tone are recorded as events in
 * a log; a key name that is not in the table produces no event, as the script
 * returns early when `findIndex` gives -1.
 */
module Keys {
  import opened Scale

  /** One entry of `KEYS`: input symbol and colour are fixed, pitch and note label are retuned. */
  datatype KeySlot = KeySlot(key: string, color: string, pitch: int, note: string)

  /** What `activateKey` / `deactivateKey` do to the slot at an index of `KEYS`. */
  datatype Event = Activate(slot: nat) | Deactivate(slot: nat)

  /** The input symbols of the slots, in `KEYS` order. */
  const KeyNames: seq<string> := ["Q", "W", "E", "R", "T", "Y", "U", "I", "O", "P"]

  /**
   * `KEYS` as written in the script. Each literal frequency is within 0.01 Hz of
   * `noteToFreq` of the pitch index kept here (48 is C4, 261.63 Hz; 57 is A4,
   * 440 Hz).
   */
  const InitialKeys: seq<KeySlot> := [
    KeySlot("Q", "0,255,255", 48, "C4"), KeySlot("W", "255,0,255", 50, "D4"),
    KeySlot("E", "255,255,0", 52, "E4"), KeySlot("R", "255,128,0", 53, "F4"),
    KeySlot("T", "0,255,128", 55, "G4"), KeySlot("Y", "128,0,255", 57, "A4"),
    KeySlot("U", "0,128,255", 59, "B4"), KeySlot("I", "255,0,128", 60, "C5"),
    KeySlot("O", "128,255,0", 62, "D5"), KeySlot("P", "0,255,64", 64, "E5")
  ]

  /** `names.findIndex(n => n === key)`: the first index holding `key`, or -1. */
  function FindIndex(names: seq<string>, key: string): (idx: int)
    ensures -1 <= idx < |names|
  {
    if names == [] then -1
    else if names[0] == key then 0
    else
      var rest := FindIndex(names[1..], key);
      if rest == -1 then -1 else rest + 1
  }

  /** `FindIndex` gives -1 exactly when `key` is absent, and otherwise its first occurrence. */
  lemma {:induction false} FindIndexIsFirstMatch(names: seq<string>, key: string)
    ensures FindIndex(names, key) == -1 <==> key !in names
    ensures FindIndex(names, key) >= 0 ==>
              names[FindIndex(names, key)] == key && key !in names[..FindIndex(names, key)]
  {
    if names != [] && names[0] != key {
      FindIndexIsFirstMatch(names[1..], key);
      assert names == [names[0]] + names[1..];
      var rest := FindIndex(names[1..], key);
      if rest >= 0 {
        assert names[..rest + 1] == [names[0]] + names[1..][..rest];
      }
    }
  }

  /** `KEYS.findIndex(k => k.key === key)`. */
  function SlotOf(key: string): int {
    FindIndex(KeyNames, key)
  }

  /** `KEYS.some(k => k.key === key)`, decided by the same search as `findIndex`. */
  predicate IsMapped(key: string) {
    SlotOf(key) != -1
  }

  /** The input symbols are distinct, so every slot is found at its own index. */
  lemma SlotOfKeyName(i: nat)
    requires i < SlotCount
    ensures SlotOf(KeyNames[i]) == i
  {
    var idx := SlotOf(KeyNames[i]);
    assert 0 <= idx && KeyNames[idx] == KeyNames[i] by {
      FindIndexIsFirstMatch(KeyNames, KeyNames[i]);
      assert KeyNames[i] in KeyNames;
    }
    assert forall j :: 0 <= j < SlotCount ==> LetterSlot(KeyNames[j][0]) == j;
  }

  /** A key that `findIndex` finds is one of the one-letter input symbols, hence truthy. */
  lemma MappedKeyIsNonEmpty(key: string)
    requires IsMapped(key)
    ensures |key| == 1
  {
    SlotOfMapped(key);
  }

  /** The slot of a key letter, read off the keyboard row. */
  function LetterSlot(c: char): int {
    match c
    case 'Q' => 0 case 'W' => 1 case 'E' => 2 case 'R' => 3 case 'T' => 4
    case 'Y' => 5 case 'U' => 6 case 'I' => 7 case 'O' => 8 case 'P' => 9
    case _ => -1
  }

  /** `KeyNames` is the `key` column of `KEYS`. */
  lemma KeyColumn()
    ensures |InitialKeys| == |KeyNames| == SlotCount
    ensures forall i :: 0 <= i < SlotCount ==> InitialKeys[i].key == KeyNames[i]
  {
    assert InitialKeys[0].key == KeyNames[0];
  }

  /** Lookup succeeds exactly for the ten input symbols, and names the slot holding that symbol. */
  lemma SlotOfMapped(key: string)
    ensures IsMapped(key) <==> key in KeyNames
    ensures IsMapped(key) ==> 0 <= SlotOf(key) < SlotCount && KeyNames[SlotOf(key)] == key
  {
    FindIndexIsFirstMatch(KeyNames, key);
  }

  /** The events of `activateKey(key)`. */
  function ActivateKey(key: string): seq<Event> {
    var idx := SlotOf(key);
    if idx == -1 then [] else [Activate(idx)]
  }

  /** The events of `deactivateKey(key)`. */
  function DeactivateKey(key: string): seq<Event> {
    var idx := SlotOf(key);
    if idx == -1 then [] else [Deactivate(idx)]
  }

  /**
   * `activateKey` and `deactivateKey` act on the slot whose input symbol is
   * `key`, and do nothing for any other string.
   */
  lemma KeyEvents(key: string)
    ensures key !in KeyNames ==> ActivateKey(key) == [] && DeactivateKey(key) == []
    ensures forall i :: 0 <= i < SlotCount && KeyNames[i] == key ==>
              ActivateKey(key) == [Activate(i)] && DeactivateKey(key) == [Deactivate(i)]
  {
    SlotOfMapped(key);
    forall i | 0 <= i < SlotCount && KeyNames[i] == key
      ensures SlotOf(key) == i
    {
      SlotOfKeyName(i);
    }
  }

  /** One slot after `updateKeysForOctave` has written its pitch and label for `note`. */
  function Retune(k: KeySlot, octave: int, note: NoteEntry): KeySlot {
    k.(pitch := PitchIndex(octave, note), note := NoteLabel(octave, note))
  }

  /** Every slot retuned to the note at its index. */
  function RetuneAll(keys: seq<KeySlot>, octave: int, notes: seq<NoteEntry>): (r: seq<KeySlot>)
    requires |keys| <= |notes|
    ensures |r| == |keys|
  {
    seq(|keys|, i requires 0 <= i < |keys| => Retune(keys[i], octave, notes[i]))
  }

  /** The table as it stands when `octave` and `mode` are the current settings. */
  function Tuning(octave: int, mode: ScaleMode): seq<KeySlot> {
    RetuneAll(InitialKeys, octave, ScaleNotes(mode))
  }

  /**
   * Retuning keeps each slot's input symbol and colour, and only the last
   * retuning counts: the table depends on the current settings alone.
   */
  lemma RetuneLatestWins(keys: seq<KeySlot>, o1: int, n1: seq<NoteEntry>, o2: int, n2: seq<NoteEntry>)
    requires |keys| <= |n1| && |keys| <= |n2|
    ensures RetuneAll(RetuneAll(keys, o1, n1), o2, n2) == RetuneAll(keys, o2, n2)
    ensures forall i :: 0 <= i < |keys| ==>
              RetuneAll(keys, o1, n1)[i].key == keys[i].key && RetuneAll(keys, o1, n1)[i].color == keys[i].color
  {
  }

  /** The `key` column of a table: what `KEYS.findIndex(k => k.key === key)` searches. */
  function Symbols(keys: seq<KeySlot>): seq<string> {
    seq(|keys|, i requires 0 <= i < |keys| => keys[i].key)
  }

  /** Whatever the octave and scale, the table's `key` column is Q W E R T Y U I O P. */
  lemma SymbolsOfTuning(octave: int, mode: ScaleMode)
    ensures Symbols(Tuning(octave, mode)) == KeyNames
  {
    KeyColumn();
    RetuneLatestWins(InitialKeys, octave, ScaleNotes(mode), octave, ScaleNotes(mode));
  }

  /**
   * The table depends only on the current octave and scale: retuning any
   * earlier tuning gives the same table as retuning the literal one.
   */
  lemma RetuneFromAnyTuning(o1: int, m1: ScaleMode, o2: int, m2: ScaleMode)
    ensures RetuneAll(Tuning(o1, m1), o2, ScaleNotes(m2)) == Tuning(o2, m2)
  {
    RetuneLatestWins(InitialKeys, o1, ScaleNotes(m1), o2, ScaleNotes(m2));
  }

  /**
   * The literal `KEYS` table is the major tuning of octave 4 that start-up writes:
   * start-up changes no label, and replaces each literal frequency by the
   * `noteToFreq` value of its pitch index, which is within 0.01 Hz of it.
   */
  lemma InitialKeysAreOctaveFourMajor()
    ensures Tuning(4, Major) == InitialKeys
  {
    var t := Tuning(4, Major);
    forall i | 0 <= i < SlotCount
      ensures t[i] == InitialKeys[i]
    {
      OctaveFourSlot(i);
    }
  }

  lemma OctaveFourSlot(i: nat)
    requires i < SlotCount
    ensures Retune(InitialKeys[i], 4, ScaleNotes(Major)[i]) == InitialKeys[i]
  {
    OctaveFourLabels();
    var labels := seq(SlotCount, i requires 0 <= i < SlotCount => NoteLabel(4, ScaleNotes(Major)[i]));
    assert NoteLabel(4, ScaleNotes(Major)[i]) == labels[i];
    assert InitialKeys[i].note == labels[i];
    assert InitialKeys[i].pitch == PitchIndex(4, ScaleNotes(Major)[i]);
  }
}
