# electrument keyboard core, modelled in Dafny

electrument is a browser virtual keyboard in one script (`script.js`). Ten
on-screen keys are bound to the physical keys Q W E R T Y U I O P, and each key
plays one note. This project models and proves the script's logic. It leaves out
the DOM and the audio.

- **Note tables and the octave engine** (`scale.dfy`, `keys.dfy`). These are
  `baseNotes` (C major from C up to the E of the next octave) and
  `chromaticNotes`. `updateKeysForOctave` rewrites each `KEYS` entry's pitch and
  label for an octave. In chromatic mode it first builds the ten notes with a
  push loop. The label is the note name followed by the octave, one higher for
  offsets of 12 or more. The frequency is kept as the integer pitch index
  `12 * octave + semitone` that the script hands to `noteToFreq`.
- **`activateKey` / `deactivateKey`** (`keys.dfy`). They look the key up with
  `findIndex` and do nothing for an unknown key. Their effect is recorded as an
  `Activate(slot)` or `Deactivate(slot)` event.
- **The multi-touch reconciler** (`touch.dfy`). `touchKeyMap` maps a touch
  identifier to the key it holds. touchstart, touchmove, touchend and
  touchcancel walk `changedTouches` in order. The hit-test
  (`elementFromPoint` followed by the `key` class test) is an input: each point
  carries the `data-key` under it, or nothing.
- **The physical-keyboard filter** (`heldkeys.dfy`). `heldKeys` suppresses
  auto-repeat and a second keydown of a key already held. Keys are upper-cased
  first. The test for a focused input field is a boolean input.
- **`rgbToHex`** (`colors.dfy`) turns a key's "r,g,b" string into "#rrggbb". It
  is modelled with JavaScript's `split`, `Number`, `toString(16)` and
  `padStart` written out in `text.dfy`. `HexToRgb`, which the script does not have,
  reads the result back and is its inverse for byte colours.
- **The page state** (`session.dfy`). `class Keyboard` holds `KEYS` as an array
  whose entries are rewritten in place, `currentOctave`, `scaleMode`,
  `touchKeyMap`, `heldKeys` and the event log. Its methods are the script's
  listeners: the scale select, the octave buttons, the four touch listeners
  and keydown/keyup. Each method is proved equal to the pure model of its
  listener. `Valid()` says the key table always holds the tuning of the
  current octave and scale, and that the octave stays within 1..7.

Two properties of the touch reconciler are worth knowing.

- The script keeps no reference count. `Balanced` says that the activations
  minus deactivations of each slot equal the number of touches bound to it.
  Every touch listener call keeps this invariant, on the touch events alone
  (`Touch.HandleKeepsBalance`).
  Lifting one of two touches that share a key still clears that key's highlight
  (`Touch.LiftingOneOfTwoTouchesReleasesSharedKey`).
- The invariant needs touchstart identifiers that are not bound already. The
  browser guarantees this for live touches.
  `Touch.RestartOnBoundIdentifierLeaks` shows what breaks without it.

In three places the code does something other than what its comments or a
natural reading suggest. The model follows the code:
- `noteToFreq` measures from pitch index 57 (octave 4, semitone 9). Its comment
  says "MIDI 69". The model keeps 57 (`Scale.A4Pitch`), so A4 in octave 4 is
  440 Hz (`Scale.A4Reference`).
- touchend and touchcancel remove an identifier only when its bound key is
  truthy. An identifier bound to "" would stay in the map. The hit-test never
  yields "" for the ten keys, and `Touch.Balanced` records that fact.
- A touchstart for an identifier that is already bound rebinds it without
  releasing the first key.

## Model

| member | source | states |
|---|---|---|
| JsText.DigitChar | script.js:455 | the digit `toString` writes for d reads back as d |
| JsText.ToRadix | script.js:455 | `n.toString(radix)` of a non-negative integer is a non-empty string of digits of that radix |
| JsText.NumberToString | script.js:455 | `x.toString(radix)` for an integer or NaN, also used for the octave in a label (script.js:171): "NaN" for NaN, a minus sign before the digits of a negative integer; its properties are stated by `RadixRoundTrip`, `RadixLength` and `DecimalRoundTrip` |
| JsText.RadixRoundTrip | script.js:455 | reading the digits of `toString(radix)` back gives the number |
| JsText.RadixLength | script.js:455 | `toString(radix)` has one digit exactly below radix and two digits exactly from radix to radix² - 1, so `padStart(2,'0')` pads only single digits |
| JsText.DecimalRoundTrip | script.js:454 | `Number` reads back every integer that `toString(10)` writes, negatives included |
| JsText.ToNumber | script.js:454 | `Number` of one piece of the split: "" is 0, a signed or unsigned decimal numeral is its integer, anything else is NaN; `DecimalRoundTrip` and `NegativeDecimal` state that it inverts `NumberToString(_, 10)` |
| JsText.NegativeDecimal | script.js:454 | `Number` reads a minus sign followed by the decimal digits of m as -m |
| JsText.Split | script.js:454 | `split` always yields at least one piece, and no piece contains the separator |
| JsText.SplitCount | script.js:454 | `split` yields one more piece than there are separators |
| JsText.JoinSplit | script.js:454 | joining the pieces of `split` with the separator gives the string back |
| JsText.SplitJoin | script.js:454 | `split` recovers any list of separator-free pieces from their join |
| JsText.PadStart | script.js:455 | `padStart` gives length max(len, \|s\|), keeps s as the suffix and fills the front |
| JsText.ToUpper | script.js:297 | upper-casing keeps the length, leaves no ASCII lower-case letter and no dotless i, and changes a character only to the upper case of the letter it was (the dotless i becomes "I") |
| JsText.ToUpperIdempotent | script.js:297 | upper-casing twice is upper-casing once |
| Scale.ScaleNotes | script.js:152-167 | both scale branches lay exactly ten notes on the ten slots |
| Scale.ParseScaleMode | script.js:141-153 | the select's value is stored and compared with 'chromatic'; any other value takes the major branch (stated by `Session.Keyboard.SetScaleMode`) |
| Scale.BuildChromaticNotes | script.js:153-164 | the push loop builds exactly the first ten `chromaticNotes` entries, slot i being i semitones above C |
| Scale.OneDigitOctave | script.js:171 | an octave from 0 to 9 is written as its single digit |
| Scale.PitchIndex | script.js:169 | the pitch index `12 * octave + semitone` handed to `noteToFreq`; `MajorSlot`, `ChromaticSlot`, `PitchStrictlyIncreasing` and `OctaveStep` state its values |
| Scale.NoteLabel | script.js:171 | the label is the note name followed by the octave, one higher for semitones of 12 or more; `MajorSlot`, `ChromaticSlot`, `OneDigitOctave` and `OctaveFourLabels` state its values |
| Scale.MajorSlot | script.js:168-172 | in major mode slot i has pitch 12·octave + offset and the octave label, and slots 7-9 have the same label and pitch as slots 0-2 one octave up |
| Scale.MajorNamesAreWhiteKeys | script.js:109-135 | every major name is the chromatic name of its pitch class and has no sharp |
| Scale.ChromaticSlot | script.js:153-172 | in chromatic mode slot i is i semitones above C, is named by `chromaticNotes[i]` and keeps the octave number |
| Scale.PitchStrictlyIncreasing | script.js:109-135 | in both modes the pitch rises strictly from slot 0 to slot 9 |
| Scale.OctaveStep | script.js:169 | one octave up raises every slot by 12 semitones, which doubles its frequency |
| Scale.A4Reference | script.js:146-149 | slot 5 of octave 4 (A4) is 0 semitones from 440 Hz, and A of any octave is 12·(octave - 4) semitones from it |
| Scale.OctaveFourLabels | script.js:168-172 | octave 4 major is labelled C4 D4 E4 F4 G4 A4 B4 C5 D5 E5, and chromatic slot 1 is C#4 |
| Keys.FindIndex | script.js:92 | `findIndex` returns -1 or an index within the table |
| Keys.FindIndexIsFirstMatch | script.js:92-93 | `findIndex` gives -1 exactly when the key is absent, otherwise the first index holding it |
| Keys.SlotOfKeyName | script.js:91-93 | looking up slot i's input symbol finds slot i |
| Keys.IsMapped | script.js:300-309 | `KEYS.some(k => k.key === key)`; `SlotOfMapped` states that it holds exactly for the ten symbols |
| Keys.MappedKeyIsNonEmpty | script.js:250-255 | every key found in the table is one character, so it is truthy |
| Keys.KeyColumn | script.js:2-13 | the table's key column is Q W E R T Y U I O P |
| Keys.SlotOfMapped | script.js:300-309 | `KEYS.some(k => k.key === key)` holds exactly for the ten symbols, and the lookup finds the slot holding the key |
| Keys.KeyEvents | script.js:91-106 | `activateKey`/`deactivateKey` emit nothing for unknown keys and exactly Activate(i)/Deactivate(i) for slot i's symbol |
| Keys.ActivateKey | script.js:91-98 | the events of `activateKey`: none when `findIndex` gives -1, otherwise one activation of the found slot; stated by `KeyEvents` |
| Keys.DeactivateKey | script.js:100-106 | the events of `deactivateKey`: none when `findIndex` gives -1, otherwise one deactivation of the found slot; stated by `KeyEvents` |
| Keys.RetuneAll | script.js:168-172 | retuning keeps the number of entries |
| Keys.RetuneLatestWins | script.js:168-172 | a retune overwrites the previous one completely and never changes a key's symbol or colour |
| Keys.RetuneFromAnyTuning | script.js:151-172 | the table depends only on the current octave and scale, not on the history of changes |
| Keys.SymbolsOfTuning | script.js:168-172 | retuning never changes the `key` column, so the live table that `findIndex` searches always holds Q W E R T Y U I O P |
| Keys.InitialKeysAreOctaveFourMajor | script.js:2-13 | the literal `KEYS` labels are octave 4 major, so start-up changes no label; each literal frequency is within 0.01 Hz of `noteToFreq` of its octave-4 major pitch index, and start-up replaces it by that value |
| Touch.TransitionTable | script.js:232-287 | for its own identifier, each listener binds, rebinds or unbinds as the reconciler's transition table says and appends exactly the matching activate/deactivate events in order |
| Touch.Start | script.js:234-241 | one touchstart point: a point on a key activates it and binds its identifier to it; stated by `TransitionTable` |
| Touch.Move | script.js:247-261 | one touchmove point: a new key releases the truthy previous key and activates the new one; leaving the keys releases and unbinds; stated by `TransitionTable` |
| Touch.Lift | script.js:265-287 | one touchend or touchcancel point: a truthy bound key is released and unbound; stated by `TransitionTable` and `EndIsCancel` |
| Touch.Handle | script.js:232-287 | a listener call processes `changedTouches` in order; `HandleFrame` and `HandleKeepsBalance` state its effect |
| Touch.StepFrame | script.js:232-287 | one point never changes another identifier's binding and only appends to the log |
| Touch.HandleFrame | script.js:232-287 | a listener call leaves every identifier not among its points unchanged |
| Touch.EndIsCancel | script.js:265-287 | touchend and touchcancel behave identically |
| Touch.RepeatIsSilent | script.js:245-275 | a repeated move to the same place, or a repeated lift, changes nothing more |
| Touch.BindKeepsBalance | script.js:232-243 | binding a fresh identifier and activating its key keeps every slot's activation count equal to its holders |
| Touch.UnbindKeepsBalance | script.js:265-275 | deactivating and unbinding a bound identifier keeps the balance |
| Touch.RebindKeepsBalance | script.js:251-255 | releasing the old key before pressing the new one keeps the balance |
| Touch.MoveKeepsBalance | script.js:245-263 | every touchmove point keeps the balance |
| Touch.StepKeepsBalance | script.js:232-287 | every point of every listener keeps the balance, given a fresh identifier for touchstart |
| Touch.StartBindsOwnIds | script.js:232-243 | touchstart binds no identifier other than its own points' |
| Touch.HandleKeepsBalance | script.js:232-287 | a whole listener call keeps the balance, given fresh distinct identifiers for touchstart |
| Touch.NoKeyLeftOn | script.js:265-287 | once no touch is bound, every slot has been deactivated as often as activated |
| Touch.InitiallyBalanced | script.js:230 | the empty `touchKeyMap` with no events is balanced |
| Touch.LiftingOneOfTwoTouchesReleasesSharedKey | script.js:265-275 | with two touches on Q, lifting one deactivates Q while the other is still bound to it |
| Touch.RestartOnBoundIdentifierLeaks | script.js:232-243 | a touchstart reusing a bound identifier leaves its first key activated after the touch lifts |
| HeldKeys.KeyDownRule | script.js:293-303 | keydown does nothing while typing, on repeat or for a held key; otherwise it holds the key and activates exactly its slot, or nothing for an unmapped key |
| HeldKeys.KeyDown | script.js:293-303 | the keydown listener on `heldKeys` and the log; stated by `KeyDownRule` |
| HeldKeys.KeyUpRule | script.js:304-312 | keyup releases the key whether or not it was held, and deactivates exactly its slot |
| HeldKeys.KeyUp | script.js:304-312 | the keyup listener on `heldKeys` and the log; stated by `KeyUpRule` |
| HeldKeys.SecondKeyDownIsSuppressed | script.js:297-299 | a second keydown of a key already down changes nothing, whatever its repeat flag |
| HeldKeys.CaseInsensitive | script.js:297 | "q" and "Q" act identically on keydown and keyup |
| HeldKeys.FilterKeepsUpperOnly | script.js:290-312 | `heldKeys` only ever holds upper-cased keys |
| HeldKeys.PressThenRelease | script.js:293-312 | press then release of slot i's key emits Activate(i), Deactivate(i) and restores `heldKeys` |
| HeldKeys.DotlessIPlaysSlotSeven | script.js:293-312 | the dotless i upper-cases to "I": its keydown holds "I" and activates slot 7, and its keyup deactivates slot 7 and restores `heldKeys` |
| Colors.RgbToHex | script.js:453-456 | `rgbToHex` fails exactly when the string has fewer than two commas; otherwise the result is at least 7 characters and starts with '#' |
| Colors.ByteHex | script.js:455 | a byte is written as exactly its two hex digits, high first |
| Colors.HexComponent | script.js:455 | `x.toString(16).padStart(2,'0')` has at least two characters; `ByteHex` states that a byte gives exactly its two hex digits |
| Colors.RgbToHexOfBytes | script.js:453-456 | for "r,g,b" with byte values the result is '#' followed by the three two-digit hex pairs |
| Colors.HexRoundTrip | script.js:453-456 | every byte colour survives `rgbToHex` and reading back with `HexToRgb`, a reference inverse the script does not have, which accepts exactly "#" and six lower-case hex digits and yields bytes |
| Colors.ExtraComponentsIgnored | script.js:454 | components after the third do not change the result, whatever the first three comma-free pieces are |
| Colors.NonNumericComponent | script.js:454-455 | a first component that `Number` cannot read is written as "NaN" with no padding, and the other two as their hex pairs |
| Session.OctaveButtonsStayInRange | script.js:186-199 | both buttons keep the octave within 1..7, move it by one unless at the bound, and undo each other |
| Session.Raised | script.js:188-189 | "octave up" adds one below 7 and does nothing at 7; stated by `OctaveButtonsStayInRange` and `RepeatedClicksSaturate` |
| Session.Lowered | script.js:195-196 | "octave down" subtracts one above 1 and does nothing at 1; stated by `OctaveButtonsStayInRange` and `RepeatedClicksSaturate` |
| Session.RepeatedClicksSaturate | script.js:186-199 | n clicks up reach min(octave + n, 7), and n clicks down reach max(octave - n, 1) |
| Session.Keyboard.constructor | script.js:202 | start-up gives octave 4, major, the literal table, no touches, no held keys, and an empty log |
| Session.Keyboard.UpdateKeysForOctave | script.js:151-172 | the loop rewrites every entry to its retuned value for the octave and the current scale |
| Session.Keyboard.SetScaleMode | script.js:140-143 | the select sets the mode (chromatic only for "chromatic"), retunes the table and keeps `Valid` |
| Session.Keyboard.OctaveUp | script.js:186-192 | the octave goes up one below 7, the table follows, and the rest of the state is unchanged |
| Session.Keyboard.OctaveDown | script.js:193-199 | the octave goes down one above 1, the table follows, and the rest of the state is unchanged |
| Session.Keyboard.ActivateKey | script.js:91-98 | searches the live table's `key` column and appends exactly the events of `activateKey`, changing nothing else |
| Session.Keyboard.DeactivateKey | script.js:100-106 | searches the live table's `key` column and appends exactly the events of `deactivateKey`, changing nothing else |
| Session.Keyboard.OnTouchStart | script.js:232-243 | the loop's final map and log are the reconciler's touchstart on the old state |
| Session.Keyboard.OnTouchMove | script.js:245-263 | the loop's final map and log are the reconciler's touchmove on the old state |
| Session.Keyboard.LiftTouches | script.js:265-275 | the shared lift loop computes the reconciler's touchend |
| Session.Keyboard.OnTouchEnd | script.js:265-275 | the touchend listener is the reconciler's touchend |
| Session.Keyboard.OnTouchCancel | script.js:277-287 | the touchcancel listener is the reconciler's touchcancel |
| Session.Keyboard.OnKeyDown | script.js:293-303 | the keydown listener updates `heldKeys` and the log as the keydown filter does |
| Session.Keyboard.OnKeyUp | script.js:304-312 | the keyup listener updates `heldKeys` and the log as the keyup filter does |

## Left out

- Audio. `playTone`, the oscillator, the instrument select and the per-instrument envelopes are not modelled. `activateKey` records an event where it would play a tone.
- Frequencies are not computed. `noteToFreq` computes `440 * 2^((p - 57) / 12)` in floating point. The model keeps the integer `p` and `SemitonesFromA4(p) = p - 57`. The `freq` field holds the pitch index.
- DOM effects are not modelled: the `active` class, box shadows, the label `innerHTML`, the octave display and `createKey`. The key's position in the table stands for its element.
- The hit-test (`document.elementFromPoint` and the `key` class test) is an input of each touch point. The black-key tables (`WHITE_KEYS`, `BLACK_KEYS`) are not rendered by the script and are not modelled.
- The per-element mouse and touch listeners (script.js:205-227) are not modelled. They call `activateKey`/`deactivateKey` directly and would add events outside the `touchKeyMap` bookkeeping.
- The focus test on `document.activeElement` (INPUT, TEXTAREA, contentEditable) is the boolean `typing`.
- The settings panel, the theme presets, `applyTheme`, the colour pickers that call `rgbToHex`, MIDI playback (`playMidiFromUrl`), `setTimeout` and `preventDefault` are not modelled.
- JsText.ToNumber: models `Number` only on "", decimal integers with an optional sign, and everything else as NaN. Whitespace trimming, fractions, exponents, "Infinity" and the "0x", "0o" and "0b" literals are left out (the model reads them as NaN), because the key colours are plain decimal integers.
- JsText.ToUpper: upper-cases ASCII letters and the dotless i (U+0131, upper case "I") only, because no other non-ASCII character upper-cases to one of the ten mapped keys; the other case mappings, some of which change the length, are left out.
- JsText.NumberToString: writes integers and NaN only. Fractional numbers and Infinity are not modelled, because the script converts only integers.
- Colors.RgbToHex: reads components with the integer-only `Number` above. A fractional component, which `toString(16)` would write with a fraction, is outside the model.
- Numbers are unbounded integers. The script's octave and colour values are small, so no double-precision effect arises.
