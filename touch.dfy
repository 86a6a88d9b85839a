/**
 * The multi-touch reconciler: `touchKeyMap` maps a touch identifier to the key
 * it holds down. Each handler walks `changedTouches` in order; for every point
 * the hit-test has already been resolved to the `data-key` of the key element
 * under it, or to nothing. Activation and deactivation are appended to the log.
 */
module Touch {
  import opened Wrappers
  import opened Scale
  import opened Keys

  /** One entry of `changedTouches`: its identifier and the key under it, if any. */
  datatype TouchPoint = TouchPoint(id: int, target: Option<string>)

  /** `touchKeyMap` and the events emitted so far. */
  datatype Reconciler = Reconciler(bound: map<int, string>, events: seq<Event>)

  /** The four touch listeners registered on the keyboard element. */
  datatype Phase = TouchStart | TouchMove | TouchEnd | TouchCancel

  /** `touchKeyMap.get(id)`, with `undefined` as None. */
  function Get(bound: map<int, string>, id: int): Option<string> {
    if id in bound then Some(bound[id]) else None
  }

  /** JavaScript truthiness of a looked-up key: `undefined` and "" are falsy. */
  predicate Truthy(v: Option<string>) {
    v.Some? && v.value != ""
  }

  /** touchstart, one point: a point on a key activates it and binds the identifier to it. */
  function Start(r: Reconciler, t: TouchPoint): Reconciler {
    match t.target
    case None => r
    case Some(key) => Reconciler(r.bound[t.id := key], r.events + ActivateKey(key))
  }

  /**
   * touchmove, one point: crossing onto a different key releases the previous
   * key (if one is held) before pressing the new one; leaving the keys releases
   * and unbinds; staying on the same key does nothing.
   */
  function Move(r: Reconciler, t: TouchPoint): Reconciler {
    var prev := Get(r.bound, t.id);
    match t.target
    case Some(key) =>
      if Some(key) != prev then
        var released := if Truthy(prev) then DeactivateKey(prev.value) else [];
        Reconciler(r.bound[t.id := key], r.events + released + ActivateKey(key))
      else r
    case None =>
      if Truthy(prev) then Reconciler(r.bound - {t.id}, r.events + DeactivateKey(prev.value)) else r
  }

  /** touchend and touchcancel, one point: release and unbind a held key. */
  function Lift(r: Reconciler, t: TouchPoint): Reconciler {
    var key := Get(r.bound, t.id);
    if Truthy(key) then Reconciler(r.bound - {t.id}, r.events + DeactivateKey(key.value)) else r
  }

  function Step(phase: Phase, r: Reconciler, t: TouchPoint): Reconciler {
    match phase
    case TouchStart => Start(r, t)
    case TouchMove => Move(r, t)
    case TouchEnd => Lift(r, t)
    case TouchCancel => Lift(r, t)
  }

  /** One listener call: the points of `changedTouches` processed in order. */
  function Handle(phase: Phase, r: Reconciler, changed: seq<TouchPoint>): Reconciler {
    if changed == [] then r
    else Step(phase, Handle(phase, r, changed[..|changed| - 1]), changed[|changed| - 1])
  }

  /**
   * The transition table for the point's own identifier: what it is bound to
   * afterwards and which events are appended, in order.
   */
  lemma TransitionTable(phase: Phase, r: Reconciler, t: TouchPoint)
    ensures var r' := Step(phase, r, t);
      var prev := Get(r.bound, t.id);
      && Get(r'.bound, t.id) == (match phase
           case TouchStart => if t.target.Some? then t.target else prev
           case TouchMove => if t.target.Some? then t.target else if Truthy(prev) then None else prev
           case _ => if Truthy(prev) then None else prev)
      && r'.events == r.events + (match phase
           case TouchStart => if t.target.Some? then ActivateKey(t.target.value) else []
           case TouchMove =>
             if t.target.Some? && t.target != prev then
               (if Truthy(prev) then DeactivateKey(prev.value) else []) + ActivateKey(t.target.value)
             else if t.target.None? && Truthy(prev) then DeactivateKey(prev.value)
             else []
           case _ => if Truthy(prev) then DeactivateKey(prev.value) else [])
  {
  }

  /** A step never touches another identifier's binding and only appends to the log. */
  lemma StepFrame(phase: Phase, r: Reconciler, t: TouchPoint, other: int)
    requires other != t.id
    ensures Get(Step(phase, r, t).bound, other) == Get(r.bound, other)
    ensures r.events <= Step(phase, r, t).events
  {
  }

  /** A handler leaves every identifier that is not among its points as it was. */
  lemma {:induction false} HandleFrame(phase: Phase, r: Reconciler, changed: seq<TouchPoint>, other: int)
    requires forall i :: 0 <= i < |changed| ==> changed[i].id != other
    ensures Get(Handle(phase, r, changed).bound, other) == Get(r.bound, other)
    ensures r.events <= Handle(phase, r, changed).events
  {
    if changed != [] {
      var init := changed[..|changed| - 1];
      HandleFrame(phase, r, init, other);
      StepFrame(phase, Handle(phase, r, init), changed[|changed| - 1], other);
    }
  }

  /** touchend and touchcancel are the same handler. */
  lemma {:induction false} EndIsCancel(r: Reconciler, changed: seq<TouchPoint>)
    ensures Handle(TouchEnd, r, changed) == Handle(TouchCancel, r, changed)
  {
    if changed != [] {
      EndIsCancel(r, changed[..|changed| - 1]);
    }
  }

  /** A repeated move to the same place, or a repeated lift, emits nothing more. */
  lemma RepeatIsSilent(r: Reconciler, t: TouchPoint)
    ensures Move(Move(r, t), t) == Move(r, t)
    ensures Lift(Lift(r, t), t) == Lift(r, t)
  {
  }

  // ---------------------------------------------------------------------------
  // Balance: each key's activations minus deactivations equals the number of
  // touches bound to it.

  /** What one event contributes to the activation count of `slot`. */
  function Delta(e: Event, slot: nat): int {
    match e
    case Activate(s) => if s == slot then 1 else 0
    case Deactivate(s) => if s == slot then -1 else 0
  }

  /** Activations of `slot` minus its deactivations. */
  function Net(events: seq<Event>, slot: nat): int {
    if events == [] then 0 else Net(events[..|events| - 1], slot) + Delta(events[|events| - 1], slot)
  }

  lemma {:induction false} NetAppend(a: seq<Event>, b: seq<Event>, slot: nat)
    ensures Net(a + b, slot) == Net(a, slot) + Net(b, slot)
    decreases |b|
  {
    if b != [] {
      var b' := b[..|b| - 1];
      assert (a + b)[..|a + b| - 1] == a + b';
      assert (a + b)[|a + b| - 1] == b[|b| - 1];
      NetAppend(a, b', slot);
      assert Net(b, slot) == Net(b', slot) + Delta(b[|b| - 1], slot);
    } else {
      assert a + b == a;
    }
  }

  /** The identifiers currently bound to the key of `slot`. */
  function Holders(bound: map<int, string>, slot: nat): set<int> {
    set id | id in bound && SlotOf(bound[id]) == slot
  }

  /** Every bound key is one of the ten, and every key has been activated once per touch holding it. */
  ghost predicate Balanced(r: Reconciler) {
    && (forall id :: id in r.bound ==> IsMapped(r.bound[id]))
    && (forall slot :: 0 <= slot < SlotCount ==> Net(r.events, slot) == |Holders(r.bound, slot)|)
  }

  /** The hit-test only ever resolves to one of the ten keys, or to nothing. */
  predicate OnKeys(t: TouchPoint) {
    t.target.Some? ==> IsMapped(t.target.value)
  }

  lemma HoldersBind(bound: map<int, string>, id: int, key: string, slot: nat)
    requires id !in bound
    ensures Holders(bound[id := key], slot) == Holders(bound, slot) + (if SlotOf(key) == slot then {id} else {})
    ensures id !in Holders(bound, slot)
  {
  }

  lemma HoldersUnbind(bound: map<int, string>, id: int, slot: nat)
    requires id in bound
    ensures Holders(bound - {id}, slot) == Holders(bound, slot) - {id}
    ensures id in Holders(bound, slot) <==> SlotOf(bound[id]) == slot
  {
  }

  /** Binding a fresh identifier to a key and activating that key keeps the balance. */
  lemma BindKeepsBalance(r: Reconciler, id: int, key: string, r': Reconciler)
    requires Balanced(r) && id !in r.bound && IsMapped(key)
    requires r' == Reconciler(r.bound[id := key], r.events + ActivateKey(key))
    ensures Balanced(r')
  {
    forall slot | 0 <= slot < SlotCount
      ensures Net(r'.events, slot) == |Holders(r'.bound, slot)|
    {
      NetAppend(r.events, ActivateKey(key), slot);
      HoldersBind(r.bound, id, key, slot);
      assert Net(ActivateKey(key), slot) == Net([], slot) + Delta(Activate(SlotOf(key)), slot);
    }
  }

  /** Unbinding a bound identifier and deactivating its key keeps the balance. */
  lemma UnbindKeepsBalance(r: Reconciler, id: int, r': Reconciler)
    requires Balanced(r) && id in r.bound
    requires r' == Reconciler(r.bound - {id}, r.events + DeactivateKey(r.bound[id]))
    ensures Balanced(r')
  {
    var key := r.bound[id];
    forall slot | 0 <= slot < SlotCount
      ensures Net(r'.events, slot) == |Holders(r'.bound, slot)|
    {
      NetAppend(r.events, DeactivateKey(key), slot);
      HoldersUnbind(r.bound, id, slot);
      assert Net(DeactivateKey(key), slot) == Net([], slot) + Delta(Deactivate(SlotOf(key)), slot);
    }
  }

  /** Moving a bound identifier onto another key, releasing the old one first, keeps the balance. */
  lemma RebindKeepsBalance(r: Reconciler, id: int, key: string)
    requires Balanced(r) && id in r.bound && IsMapped(key)
    ensures Balanced(Reconciler(r.bound[id := key], r.events + DeactivateKey(r.bound[id]) + ActivateKey(key)))
  {
    var mid := Reconciler(r.bound - {id}, r.events + DeactivateKey(r.bound[id]));
    var r' := Reconciler(r.bound[id := key], r.events + DeactivateKey(r.bound[id]) + ActivateKey(key));
    assert Balanced(r') by {
      UnbindKeepsBalance(r, id, mid);
      assert mid.bound[id := key] == r.bound[id := key];
      BindKeepsBalance(mid, id, key, r');
    }
  }

  /** A move keeps the balance when the hit-test resolves to a key or to nothing. */
  lemma MoveKeepsBalance(r: Reconciler, t: TouchPoint)
    requires Balanced(r) && OnKeys(t)
    ensures Balanced(Move(r, t))
  {
    var prev := Get(r.bound, t.id);
    if prev.Some? { MappedKeyIsNonEmpty(prev.value); }
    if t.target.Some? && t.target != prev {
      if prev.Some? {
        RebindKeepsBalance(r, t.id, t.target.value);
      } else {
        assert r.events + [] == r.events;
        BindKeepsBalance(r, t.id, t.target.value, Move(r, t));
      }
    } else if t.target.None? && prev.Some? {
      UnbindKeepsBalance(r, t.id, Move(r, t));
    }
  }

  /**
   * Every step keeps the balance, provided the hit-test resolves to a key or to
   * nothing and a touchstart never reuses an identifier that is still bound
   * (which the browser guarantees: identifiers are unique among live touches).
   */
  lemma StepKeepsBalance(phase: Phase, r: Reconciler, t: TouchPoint)
    requires Balanced(r) && OnKeys(t)
    requires phase == TouchStart ==> t.id !in r.bound
    ensures Balanced(Step(phase, r, t))
  {
    match phase
    case TouchStart =>
      if t.target.Some? { BindKeepsBalance(r, t.id, t.target.value, Start(r, t)); }
    case TouchMove =>
      MoveKeepsBalance(r, t);
    case _ =>
      if t.id in r.bound {
        MappedKeyIsNonEmpty(r.bound[t.id]);
        UnbindKeepsBalance(r, t.id, Lift(r, t));
      }
  }

  /** The identifiers of a list of points. */
  function Ids(changed: seq<TouchPoint>): set<int> {
    set i | 0 <= i < |changed| :: changed[i].id
  }

  /** A touchstart binds nothing but its own points' identifiers. */
  lemma {:induction false} StartBindsOwnIds(r: Reconciler, changed: seq<TouchPoint>)
    ensures Handle(TouchStart, r, changed).bound.Keys <= r.bound.Keys + Ids(changed)
  {
    if changed != [] {
      var init := changed[..|changed| - 1];
      StartBindsOwnIds(r, init);
      assert Ids(init) <= Ids(changed) by {
        forall id | id in Ids(init) ensures id in Ids(changed) {
          var i :| 0 <= i < |init| && init[i].id == id;
          assert changed[i].id == id;
        }
      }
      assert changed[|changed| - 1].id in Ids(changed);
    }
  }

  /**
   * A whole listener call keeps the balance, when its points are on keys or off
   * them and, for touchstart, carry distinct identifiers not yet bound.
   */
  lemma {:induction false} HandleKeepsBalance(phase: Phase, r: Reconciler, changed: seq<TouchPoint>)
    requires Balanced(r)
    requires forall i :: 0 <= i < |changed| ==> OnKeys(changed[i])
    requires phase == TouchStart ==> forall i :: 0 <= i < |changed| ==> changed[i].id !in r.bound
    requires phase == TouchStart ==> forall i, j :: 0 <= i < j < |changed| ==> changed[i].id != changed[j].id
    ensures Balanced(Handle(phase, r, changed))
  {
    if changed != [] {
      var n := |changed| - 1;
      var init := changed[..n];
      HandleKeepsBalance(phase, r, init);
      if phase == TouchStart {
        StartBindsOwnIds(r, init);
        assert forall i :: 0 <= i < |init| ==> init[i].id != changed[n].id;
        assert changed[n].id !in Ids(init);
      }
      StepKeepsBalance(phase, Handle(phase, r, init), changed[n]);
    }
  }

  /** Once every touch has been lifted, no key is left activated by the touches. */
  lemma NoKeyLeftOn(r: Reconciler)
    requires Balanced(r) && r.bound == map[]
    ensures forall slot :: 0 <= slot < SlotCount ==> Net(r.events, slot) == 0
  {
    forall slot | 0 <= slot < SlotCount ensures Net(r.events, slot) == 0 {
      assert Holders(r.bound, slot) == {};
    }
  }

  /** The page starts balanced: no touch, no event. */
  lemma InitiallyBalanced()
    ensures Balanced(Reconciler(map[], []))
  {
    forall slot | 0 <= slot < SlotCount ensures Net([], slot) == |Holders(map[], slot)| {
      assert Holders(map[], slot) == {};
    }
  }

  // ---------------------------------------------------------------------------
  // Without reference counting, the key's visible state follows the last event.

  /** Whether the last event for `slot` left its key highlighted. */
  function Active(events: seq<Event>, slot: nat): bool {
    if events == [] then false
    else match events[|events| - 1]
      case Activate(s) => s == slot || Active(events[..|events| - 1], slot)
      case Deactivate(s) => s != slot && Active(events[..|events| - 1], slot)
  }

  /**
   * Two touches on Q, then one of them lifted: the map still binds the other
   * touch to Q, yet Q has been deactivated.
   */
  lemma LiftingOneOfTwoTouchesReleasesSharedKey()
    ensures var r1 := Handle(TouchStart, Reconciler(map[], []),
                             [TouchPoint(1, Some("Q")), TouchPoint(2, Some("Q"))]);
            var r2 := Handle(TouchEnd, r1, [TouchPoint(1, None)]);
            && r2.bound == map[2 := "Q"]
            && r2.events == [Activate(0), Activate(0), Deactivate(0)]
            && !Active(r2.events, 0)
  {
    SlotOfKeyName(0);
    var ts := [TouchPoint(1, Some("Q")), TouchPoint(2, Some("Q"))];
    assert ts[..1] == [TouchPoint(1, Some("Q"))];
    assert [TouchPoint(1, Some("Q"))][..0] == [];
    var r1 := Handle(TouchStart, Reconciler(map[], []), ts);
    assert r1 == Reconciler(map[1 := "Q", 2 := "Q"], [Activate(0), Activate(0)]);
    assert map[1 := "Q", 2 := "Q"] - {1} == map[2 := "Q"];
  }

  /**
   * Why touchstart needs a fresh identifier: a second touchstart for a bound
   * identifier rebinds it without releasing its first key.
   */
  lemma RestartOnBoundIdentifierLeaks()
    ensures var r1 := Start(Start(Reconciler(map[], []), TouchPoint(7, Some("Q"))), TouchPoint(7, Some("W")));
            var r2 := Lift(r1, TouchPoint(7, None));
            && r2.bound == map[]
            && Active(r2.events, 0) && Net(r2.events, 0) == 1
  {
    SlotOfKeyName(0);
    SlotOfKeyName(1);
    var r0 := Start(Reconciler(map[], []), TouchPoint(7, Some("Q")));
    var r1 := Start(r0, TouchPoint(7, Some("W")));
    var r2 := Lift(r1, TouchPoint(7, None));
    var events := [Activate(0), Activate(1), Deactivate(1)];
    assert r0 == Reconciler(map[7 := "Q"], [Activate(0)]);
    assert r1 == Reconciler(map[7 := "W"], [Activate(0), Activate(1)]) by {
      assert map[7 := "Q"][7 := "W"] == map[7 := "W"];
    }
    assert r2 == Reconciler(map[], events) by {
      assert map[7 := "W"] - {7} == map[];
    }
    assert Net(events, 0) == 1 && Active(events, 0) by {
      assert events[..2] == [Activate(0), Activate(1)];
      assert events[..2][..1] == [Activate(0)];
      assert [Activate(0)][..0] == [];
    }
  }
}
