/**
 * The page's mutable state and the listeners that change it: the `KEYS` table
 * (whose pitch and label `updateKeysForOctave` rewrites in place),
 * `currentOctave`, `scaleMode`, `touchKeyMap`, `heldKeys`, and the sequence of
 * `activateKey` / `deactivateKey` effects.
 */
module Session {
  import opened Wrappers
  import opened JsText
  import opened Scale
  import opened Keys
  import Touch
  import HeldKeys

  const MinOctave := 1
  const MaxOctave := 7

  /** The octave after a click on "octave up": one higher, but never above 7. */
  function Raised(octave: int): int {
    if octave < MaxOctave then octave + 1 else octave
  }

  /** The octave after a click on "octave down": one lower, but never below 1. */
  function Lowered(octave: int): int {
    if octave > MinOctave then octave - 1 else octave
  }

  /** Both buttons keep the octave within 1..7 and move it by at most one. */
  lemma OctaveButtonsStayInRange(octave: int)
    requires MinOctave <= octave <= MaxOctave
    ensures MinOctave <= Raised(octave) <= MaxOctave && MinOctave <= Lowered(octave) <= MaxOctave
    ensures Raised(octave) == octave <==> octave == MaxOctave
    ensures Lowered(octave) == octave <==> octave == MinOctave
    ensures octave < MaxOctave ==> Lowered(Raised(octave)) == octave
    ensures octave > MinOctave ==> Raised(Lowered(octave)) == octave
  {
  }

  /** `n` clicks on "octave up". */
  function RaisedTimes(octave: int, n: nat): int {
    if n == 0 then octave else Raised(RaisedTimes(octave, n - 1))
  }

  /** `n` clicks on "octave down". */
  function LoweredTimes(octave: int, n: nat): int {
    if n == 0 then octave else Lowered(LoweredTimes(octave, n - 1))
  }

  /** Clicking up `n` times saturates at 7, clicking down `n` times at 1. */
  lemma {:induction false} RepeatedClicksSaturate(octave: int, n: nat)
    requires MinOctave <= octave <= MaxOctave
    ensures RaisedTimes(octave, n) == if octave + n < MaxOctave then octave + n else MaxOctave
    ensures LoweredTimes(octave, n) == if octave - n > MinOctave then octave - n else MinOctave
  {
    if n > 0 {
      RepeatedClicksSaturate(octave, n - 1);
    }
  }

  class Keyboard {
    /** `KEYS`: the binding is fixed, the entries' pitch and label are rewritten in place. */
    const keys: array<KeySlot>
    var currentOctave: int
    var scaleMode: ScaleMode
    var touchKeyMap: map<int, string>
    var heldKeys: set<string>
    /** Every `activateKey` / `deactivateKey` that found its key, in order. */
    var log: seq<Event>

    /** The key table always holds the tuning of the current octave and scale. */
    ghost predicate Valid()
      reads this, keys
    {
      && keys.Length == SlotCount
      && MinOctave <= currentOctave <= MaxOctave
      && keys[..] == Tuning(currentOctave, scaleMode)
    }

    /** Script start-up: the literal table, octave 4, the major scale, then `updateKeysForOctave(4)`. */
    constructor ()
      ensures Valid() && fresh(keys)
      ensures currentOctave == 4 && scaleMode == Major && keys[..] == InitialKeys
      ensures touchKeyMap == map[] && heldKeys == {} && log == []
    {
      keys := new KeySlot[SlotCount](i requires 0 <= i < SlotCount => InitialKeys[i]);
      currentOctave := 4;
      scaleMode := Major;
      touchKeyMap := map[];
      heldKeys := {};
      log := [];
      new;
      assert keys[..] == InitialKeys;
      UpdateKeysForOctave(currentOctave);
      InitialKeysAreOctaveFourMajor();
    }

    /**
     * `updateKeysForOctave(octave)`: pick the notes of the current scale (built
     * by a loop for the chromatic scale) and rewrite every entry's pitch and label.
     */
    method UpdateKeysForOctave(octave: int)
      requires keys.Length == SlotCount
      modifies keys
      ensures keys[..] == RetuneAll(old(keys[..]), octave, ScaleNotes(scaleMode))
    {
      var notes: seq<NoteEntry>;
      if scaleMode == Chromatic {
        notes := BuildChromaticNotes();
      } else {
        notes := BaseNotes;
      }
      assert notes == ScaleNotes(scaleMode);
      for i := 0 to keys.Length
        invariant forall j :: 0 <= j < i ==> keys[j] == Retune(old(keys[j]), octave, notes[j])
        invariant forall j :: i <= j < keys.Length ==> keys[j] == old(keys[j])
      {
        var midi := 12 * octave + notes[i].semitone;
        var shift := if notes[i].semitone >= 12 then 1 else 0;
        keys[i] := keys[i].(pitch := midi, note := notes[i].name + NumberToString(Finite(octave + shift), 10));
      }
    }

    /** The scale selector's change listener. */
    method SetScaleMode(value: string)
      requires Valid()
      modifies this, keys
      ensures Valid()
      ensures scaleMode == ParseScaleMode(value) && currentOctave == old(currentOctave)
      ensures keys[..] == Tuning(currentOctave, ParseScaleMode(value))
      ensures touchKeyMap == old(touchKeyMap) && heldKeys == old(heldKeys) && log == old(log)
    {
      scaleMode := ParseScaleMode(value);
      UpdateKeysForOctave(currentOctave);
      RetuneFromAnyTuning(old(currentOctave), old(scaleMode), currentOctave, scaleMode);
    }

    /** The "octave up" button. */
    method OctaveUp()
      requires Valid()
      modifies this, keys
      ensures Valid()
      ensures currentOctave == Raised(old(currentOctave)) && scaleMode == old(scaleMode)
      ensures keys[..] == Tuning(Raised(old(currentOctave)), scaleMode)
      ensures touchKeyMap == old(touchKeyMap) && heldKeys == old(heldKeys) && log == old(log)
    {
      if currentOctave < MaxOctave {
        currentOctave := currentOctave + 1;
        UpdateKeysForOctave(currentOctave);
        RetuneFromAnyTuning(old(currentOctave), old(scaleMode), currentOctave, scaleMode);
      }
    }

    /** The "octave down" button. */
    method OctaveDown()
      requires Valid()
      modifies this, keys
      ensures Valid()
      ensures currentOctave == Lowered(old(currentOctave)) && scaleMode == old(scaleMode)
      ensures keys[..] == Tuning(Lowered(old(currentOctave)), scaleMode)
      ensures touchKeyMap == old(touchKeyMap) && heldKeys == old(heldKeys) && log == old(log)
    {
      if currentOctave > MinOctave {
        currentOctave := currentOctave - 1;
        UpdateKeysForOctave(currentOctave);
        RetuneFromAnyTuning(old(currentOctave), old(scaleMode), currentOctave, scaleMode);
      }
    }

    /** `activateKey(key)`: look the key up in the live table; an unknown key does nothing. */
    method ActivateKey(key: string)
      requires Valid()
      modifies this
      ensures Valid()
      ensures log == old(log) + Keys.ActivateKey(key)
      ensures unchanged(this`currentOctave, this`scaleMode, this`touchKeyMap, this`heldKeys)
    {
      var idx := FindIndex(Symbols(keys[..]), key);
      SymbolsOfTuning(currentOctave, scaleMode);
      if idx == -1 {
        return;
      }
      log := log + [Activate(idx)];
    }

    /** `deactivateKey(key)`. */
    method DeactivateKey(key: string)
      requires Valid()
      modifies this
      ensures Valid()
      ensures log == old(log) + Keys.DeactivateKey(key)
      ensures unchanged(this`currentOctave, this`scaleMode, this`touchKeyMap, this`heldKeys)
    {
      var idx := FindIndex(Symbols(keys[..]), key);
      SymbolsOfTuning(currentOctave, scaleMode);
      if idx == -1 {
        return;
      }
      log := log + [Deactivate(idx)];
    }

    /** The touch state as the reconciler sees it. */
    function TouchState(): Touch.Reconciler
      reads this
    {
      Touch.Reconciler(touchKeyMap, log)
    }

    /** The touchstart listener. */
    method OnTouchStart(changedTouches: seq<Touch.TouchPoint>)
      requires Valid()
      modifies this
      ensures Valid()
      ensures TouchState() == Touch.Handle(Touch.TouchStart, old(TouchState()), changedTouches)
      ensures unchanged(this`currentOctave, this`scaleMode, this`heldKeys)
    {
      for i := 0 to |changedTouches|
        invariant Valid()
        invariant TouchState() == Touch.Handle(Touch.TouchStart, old(TouchState()), changedTouches[..i])
        invariant unchanged(this`currentOctave, this`scaleMode, this`heldKeys)
      {
        var touch := changedTouches[i];
        if touch.target.Some? {
          var key := touch.target.value;
          ActivateKey(key);
          touchKeyMap := touchKeyMap[touch.id := key];
        }
        assert changedTouches[..i + 1][..i] == changedTouches[..i];
      }
      assert changedTouches[..|changedTouches|] == changedTouches;
    }

    /** The touchmove listener. */
    method OnTouchMove(changedTouches: seq<Touch.TouchPoint>)
      requires Valid()
      modifies this
      ensures Valid()
      ensures TouchState() == Touch.Handle(Touch.TouchMove, old(TouchState()), changedTouches)
      ensures unchanged(this`currentOctave, this`scaleMode, this`heldKeys)
    {
      for i := 0 to |changedTouches|
        invariant Valid()
        invariant TouchState() == Touch.Handle(Touch.TouchMove, old(TouchState()), changedTouches[..i])
        invariant unchanged(this`currentOctave, this`scaleMode, this`heldKeys)
      {
        var touch := changedTouches[i];
        var prevKey := Touch.Get(touchKeyMap, touch.id);
        if touch.target.Some? {
          var key := touch.target.value;
          if Some(key) != prevKey {
            if Touch.Truthy(prevKey) {
              DeactivateKey(prevKey.value);
            }
            ActivateKey(key);
            touchKeyMap := touchKeyMap[touch.id := key];
          }
        } else if Touch.Truthy(prevKey) {
          DeactivateKey(prevKey.value);
          touchKeyMap := touchKeyMap - {touch.id};
        }
        assert changedTouches[..i + 1][..i] == changedTouches[..i];
      }
      assert changedTouches[..|changedTouches|] == changedTouches;
    }

    /** The body shared by the touchend and touchcancel listeners. */
    method LiftTouches(changedTouches: seq<Touch.TouchPoint>)
      requires Valid()
      modifies this
      ensures Valid()
      ensures TouchState() == Touch.Handle(Touch.TouchEnd, old(TouchState()), changedTouches)
      ensures unchanged(this`currentOctave, this`scaleMode, this`heldKeys)
    {
      for i := 0 to |changedTouches|
        invariant Valid()
        invariant TouchState() == Touch.Handle(Touch.TouchEnd, old(TouchState()), changedTouches[..i])
        invariant unchanged(this`currentOctave, this`scaleMode, this`heldKeys)
      {
        var touch := changedTouches[i];
        var key := Touch.Get(touchKeyMap, touch.id);
        if Touch.Truthy(key) {
          DeactivateKey(key.value);
          touchKeyMap := touchKeyMap - {touch.id};
        }
        assert changedTouches[..i + 1][..i] == changedTouches[..i];
      }
      assert changedTouches[..|changedTouches|] == changedTouches;
    }

    /** The touchend listener. */
    method OnTouchEnd(changedTouches: seq<Touch.TouchPoint>)
      requires Valid()
      modifies this
      ensures Valid()
      ensures TouchState() == Touch.Handle(Touch.TouchEnd, old(TouchState()), changedTouches)
      ensures unchanged(this`currentOctave, this`scaleMode, this`heldKeys)
    {
      LiftTouches(changedTouches);
    }

    /** The touchcancel listener, which does exactly what touchend does. */
    method OnTouchCancel(changedTouches: seq<Touch.TouchPoint>)
      requires Valid()
      modifies this
      ensures Valid()
      ensures TouchState() == Touch.Handle(Touch.TouchCancel, old(TouchState()), changedTouches)
      ensures unchanged(this`currentOctave, this`scaleMode, this`heldKeys)
    {
      LiftTouches(changedTouches);
      Touch.EndIsCancel(old(TouchState()), changedTouches);
    }

    /** The key filter's state as the pure model sees it. */
    function KeyState(): HeldKeys.Filter
      reads this
    {
      HeldKeys.Filter(heldKeys, log)
    }

    /** The window's keydown listener; `typingInField` is the focused-input test. */
    method OnKeyDown(eventKey: string, repeat: bool, typingInField: bool)
      requires Valid()
      modifies this
      ensures Valid()
      ensures KeyState() == HeldKeys.KeyDown(old(KeyState()), eventKey, repeat, typingInField)
      ensures unchanged(this`currentOctave, this`scaleMode, this`touchKeyMap)
    {
      if typingInField {
        return;
      }
      var key := ToUpper(eventKey);
      if repeat || key in heldKeys {
        return;
      }
      heldKeys := heldKeys + {key};
      if IsMapped(key) {
        ActivateKey(key);
      }
    }

    /** The window's keyup listener. */
    method OnKeyUp(eventKey: string, typingInField: bool)
      requires Valid()
      modifies this
      ensures Valid()
      ensures KeyState() == HeldKeys.KeyUp(old(KeyState()), eventKey, typingInField)
      ensures unchanged(this`currentOctave, this`scaleMode, this`touchKeyMap)
    {
      if typingInField {
        return;
      }
      var key := ToUpper(eventKey);
      heldKeys := heldKeys - {key};
      if IsMapped(key) {
        DeactivateKey(key);
      }
    }
  }
}
