/**
 * The physical-keyboard filter: `heldKeys` remembers which (upper-cased) keys
 * are down, so that auto-repeat and repeated keydowns do not retrigger a note;
 * only the ten mapped keys reach `activateKey` / `deactivateKey`. The check for
 * a focused input field is a boolean input.
 */
module HeldKeys {
  import opened JsText
  import opened Keys

  /** `heldKeys` and the events emitted so far. */
  datatype Filter = Filter(held: set<string>, events: seq<Event>)

  /** The keydown listener; `eventKey` is `e.key` and `repeat` is `e.repeat`. */
  function KeyDown(f: Filter, eventKey: string, repeat: bool, typing: bool): Filter {
    if typing then f
    else
      var key := ToUpper(eventKey);
      if repeat || key in f.held then f
      else Filter(f.held + {key}, f.events + (if IsMapped(key) then ActivateKey(key) else []))
  }

  /** The keyup listener. */
  function KeyUp(f: Filter, eventKey: string, typing: bool): Filter {
    if typing then f
    else
      var key := ToUpper(eventKey);
      Filter(f.held - {key}, f.events + (if IsMapped(key) then DeactivateKey(key) else []))
  }

  /**
   * keydown: nothing happens while typing, for an auto-repeat, or for a key
   * already held; otherwise the key becomes held and, if it is slot i's symbol,
   * slot i is activated, and nothing else is emitted.
   */
  lemma KeyDownRule(f: Filter, eventKey: string, repeat: bool, typing: bool)
    ensures var key := ToUpper(eventKey);
      var f' := KeyDown(f, eventKey, repeat, typing);
      && (typing || repeat || key in f.held ==> f' == f)
      && (!typing && !repeat && key !in f.held ==>
            && f'.held == f.held + {key}
            && (key !in KeyNames ==> f'.events == f.events)
            && (forall i :: 0 <= i < |KeyNames| && KeyNames[i] == key ==> f'.events == f.events + [Activate(i)]))
  {
    KeyEvents(ToUpper(eventKey));
    SlotOfMapped(ToUpper(eventKey));
  }

  /**
   * keyup: unless typing, the key is no longer held, whether or not it was, and
   * slot i is deactivated exactly when the key is slot i's symbol.
   */
  lemma KeyUpRule(f: Filter, eventKey: string, typing: bool)
    ensures var key := ToUpper(eventKey);
      var f' := KeyUp(f, eventKey, typing);
      && (typing ==> f' == f)
      && (!typing ==>
            && f'.held == f.held - {key}
            && (key !in KeyNames ==> f'.events == f.events)
            && (forall i :: 0 <= i < |KeyNames| && KeyNames[i] == key ==> f'.events == f.events + [Deactivate(i)]))
  {
    KeyEvents(ToUpper(eventKey));
    SlotOfMapped(ToUpper(eventKey));
  }

  /** A second keydown of a key that went down is suppressed, whatever its `repeat` flag. */
  lemma SecondKeyDownIsSuppressed(f: Filter, eventKey: string, repeat: bool)
    ensures KeyDown(KeyDown(f, eventKey, false, false), eventKey, repeat, false) == KeyDown(f, eventKey, false, false)
  {
  }

  /** Case does not matter: "q" and "Q" are the same key. */
  lemma CaseInsensitive(f: Filter, eventKey: string, repeat: bool, typing: bool)
    ensures KeyDown(f, eventKey, repeat, typing) == KeyDown(f, ToUpper(eventKey), repeat, typing)
    ensures KeyUp(f, eventKey, typing) == KeyUp(f, ToUpper(eventKey), typing)
  {
    ToUpperIdempotent(eventKey);
  }

  /** `heldKeys` only ever holds upper-cased keys. */
  ghost predicate UpperOnly(f: Filter) {
    forall k :: k in f.held ==> ToUpper(k) == k
  }

  lemma FilterKeepsUpperOnly(f: Filter, eventKey: string, repeat: bool, typing: bool)
    requires UpperOnly(f)
    ensures UpperOnly(KeyDown(f, eventKey, repeat, typing))
    ensures UpperOnly(KeyUp(f, eventKey, typing))
  {
    ToUpperIdempotent(eventKey);
  }

  /**
   * Pressing and releasing slot i's key, from a state where it is not held,
   * activates then deactivates slot i and leaves `heldKeys` as it was.
   */
  lemma PressThenRelease(f: Filter, i: nat)
    requires i < |KeyNames| && KeyNames[i] !in f.held
    ensures KeyUp(KeyDown(f, KeyNames[i], false, false), KeyNames[i], false)
         == Filter(f.held, f.events + [Activate(i), Deactivate(i)])
  {
    var key := KeyNames[i];
    assert ToUpper(key) == key by { assert key == [key[0]]; }
    KeyEvents(key);
    assert key in KeyNames;
    SlotOfMapped(key);
    assert f.held + {key} - {key} == f.held;
  }

  /**
   * The dotless i, which the I-position key sends on a Turkish layout, upper-cases
   * to "I": keydown holds "I" and activates slot 7, and keyup deactivates it.
   */
  lemma DotlessIPlaysSlotSeven(f: Filter)
    requires "I" !in f.held
    ensures KeyDown(f, [DotlessI], false, false) == Filter(f.held + {"I"}, f.events + [Activate(7)])
    ensures KeyUp(KeyDown(f, [DotlessI], false, false), [DotlessI], false)
         == Filter(f.held, f.events + [Activate(7), Deactivate(7)])
  {
    assert ToUpper([DotlessI]) == "I";
    CaseInsensitive(f, [DotlessI], false, false);
    CaseInsensitive(KeyDown(f, "I", false, false), [DotlessI], false, false);
    assert KeyNames[7] == "I";
    PressThenRelease(f, 7);
    KeyDownRule(f, "I", false, false);
  }
}
