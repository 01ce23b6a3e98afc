/**
 * The keyboard producer of gated events: each pressed movement key appends
 * one event instance (a "UAV_*" or "TESS_*" prototype, looked up by name)
 * to the level's active world, and a fresh press of Tab moves the active
 * world index on by one, modulo the number of worlds.
 *
 * GLFW key polling is left out: the keys down in a frame arrive as a
 * `KeyState`. The function-static `tab_pressed_last_frame` becomes a field
 * of the system object.
 */
module Keyboard {
  import opened Common
  import Engine

  /** Which of the polled keys are down in this frame. */
  datatype KeyState = KeyState(
    w: bool, a: bool, s: bool, d: bool, space: bool, leftShift: bool,
    up: bool, down: bool, left: bool, right: bool, tilde: bool, tab: bool)

  /** The UAV event names of the pressed movement keys, in the order W, A, S, D, SPACE, LSHIFT. */
  function UavEvents(keys: KeyState): (names: seq<string>)
    ensures |names| <= 6
  {
    (if keys.w then ["UAV_W"] else [])
    + (if keys.a then ["UAV_A"] else [])
    + (if keys.s then ["UAV_S"] else [])
    + (if keys.d then ["UAV_D"] else [])
    + (if keys.space then ["UAV_SPACE"] else [])
    + (if keys.leftShift then ["UAV_LSHIFT"] else [])
  }

  /**
   * The tesseract event names: without tilde the four arrows give FORWARD,
   * BACKWARD, LEFT and RIGHT; with tilde only Up and Down count, as UP and
   * DOWN.
   */
  function TessEvents(keys: KeyState): (names: seq<string>)
    ensures keys.tilde ==> |names| <= 2
    ensures !keys.tilde ==> |names| <= 4
  {
    if !keys.tilde then
      (if keys.up then ["TESS_FORWARD"] else [])
      + (if keys.down then ["TESS_BACKWARD"] else [])
      + (if keys.left then ["TESS_LEFT"] else [])
      + (if keys.right then ["TESS_RIGHT"] else [])
    else
      (if keys.up then ["TESS_UP"] else [])
      + (if keys.down then ["TESS_DOWN"] else [])
  }

  /**
   * The instance CreateInstance(baseSystem, prototypes, name, {}, {})
   * returns: a missing prototype or instance context gives the default
   * instance; otherwise the counter is the ID, at the origin, colour zero.
   */
  function EventOf(protos: seq<Entity>, hasInstance: bool, next: int, name: string): (r: (EntityInstance, int))
    ensures r.1 == next || r.1 == next + 1
    ensures r.1 == next + 1 ==> r.0.instanceID == next
  {
    match Engine.FindPrototype(name, protos)
    case None => (DefaultInstance, next)
    case Some(i) =>
      if hasInstance then (Stamp(next, protos[i].prototypeID, Origin, Origin), next + 1) else (DefaultInstance, next)
  }

  /** The events for `names`, created in order from counter `next`, and the counter after them. */
  function Events(protos: seq<Entity>, hasInstance: bool, next: int, names: seq<string>): (r: (seq<EntityInstance>, int))
    ensures |r.0| == |names|
    ensures next <= r.1 <= next + |names|
  {
    if |names| == 0 then ([], next)
    else
      var k := |names| - 1;
      var prev := Events(protos, hasInstance, next, names[..k]);
      var e := EventOf(protos, hasInstance, prev.1, names[k]);
      (prev.0 + [e.0], e.1)
  }

  /**
   * Every event names the prototype its key asks for, or is the default
   * instance when that prototype is missing; the events that consumed an
   * ID carry IDs from `next` on, strictly increasing.
   */
  lemma {:induction false} EventsMeaning(protos: seq<Entity>, hasInstance: bool, next: int, names: seq<string>)
    ensures var r := Events(protos, hasInstance, next, names);
      forall k :: 0 <= k < |names| ==>
        (Engine.FindPrototype(names[k], protos).None? ==> r.0[k] == DefaultInstance)
        && (Engine.FindPrototype(names[k], protos).Some? && hasInstance ==>
              r.0[k].prototypeID == protos[Engine.FindPrototype(names[k], protos).value].prototypeID
              && next <= r.0[k].instanceID < r.1)
    ensures var r := Events(protos, hasInstance, next, names);
      forall i, j :: 0 <= i < j < |names| && hasInstance
        && Engine.FindPrototype(names[i], protos).Some? && Engine.FindPrototype(names[j], protos).Some?
        ==> r.0[i].instanceID < r.0[j].instanceID
  {
    if |names| > 0 {
      var k := |names| - 1;
      EventsMeaning(protos, hasInstance, next, names[..k]);
      var prev := Events(protos, hasInstance, next, names[..k]);
      assert forall i :: 0 <= i < k ==> names[..k][i] == names[i];
      var r := Events(protos, hasInstance, next, names);
      assert r.0 == prev.0 + [EventOf(protos, hasInstance, prev.1, names[k]).0];
    }
  }

  lemma EventsSnoc(protos: seq<Entity>, hasInstance: bool, next: int, names: seq<string>, name: string)
    ensures Events(protos, hasInstance, next, names + [name])
      == (var prev := Events(protos, hasInstance, next, names);
          var e := EventOf(protos, hasInstance, prev.1, name);
          (prev.0 + [e.0], e.1))
  {
    assert (names + [name])[..|names|] == names;
  }

  /** The Tab rule: a press that was not down last frame advances the index modulo the world count. */
  function TabStep(index: int, count: nat, tab: bool, last: bool): int
    requires count > 0
  {
    if tab && !last then (index + 1) % count else index
  }

  /** The number of fresh Tab presses in a run of frames, given the state before the first. */
  function RisingEdges(tabs: seq<bool>, last: bool): nat
  {
    if |tabs| == 0 then 0
    else (if tabs[0] && !last then 1 else 0) + RisingEdges(tabs[1..], tabs[0])
  }

  /** The index after a run of frames of Tab states. */
  function Cycle(index: int, count: nat, tabs: seq<bool>, last: bool): int
    requires count > 0
    decreases |tabs|
  {
    if |tabs| == 0 then index
    else Cycle(TabStep(index, count, tabs[0], last), count, tabs[1..], tabs[0])
  }

  /** Adding a whole turn of `count` does not change the remainder. */
  lemma ModShift(count: nat, e: nat)
    requires count > 0
    ensures (count + e) % count == e % count
  {
    var q, r := e / count, e % count;
    assert count + e == (q + 1) * count + r;
    ModUnique(count + e, count, q + 1, r);
  }

  /** Euclidean division leaves one remainder: any `q * n + r` with `0 <= r < n` has remainder `r`. */
  lemma ModUnique(x: int, n: nat, q: int, r: int)
    requires n > 0 && 0 <= r < n && x == q * n + r
    ensures x % n == r
  {
    var q', r' := x / n, x % n;
    assert (q - q') * n == r' - r;
    if q - q' >= 1 {
      MulAtLeast(q - q', n);
    } else if q' - q >= 1 {
      MulAtLeast(q' - q, n);
    }
  }

  lemma MulAtLeast(a: int, n: nat)
    requires a >= 1
    ensures a * n >= n
  {
    assert a * n == (a - 1) * n + n;
  }

  /**
   * Over any run of frames, the index moves on by exactly the number of
   * fresh Tab presses, modulo the world count: holding Tab down advances it
   * once, and the index stays a valid world index.
   */
  lemma {:induction false} CycleCountsRisingEdges(index: int, count: nat, tabs: seq<bool>, last: bool)
    requires count > 0 && 0 <= index < count
    ensures Cycle(index, count, tabs, last) == (index + RisingEdges(tabs, last)) % count
    ensures 0 <= Cycle(index, count, tabs, last) < count
    decreases |tabs|
  {
    if |tabs| > 0 {
      var next := TabStep(index, count, tabs[0], last);
      CycleCountsRisingEdges(next, count, tabs[1..], tabs[0]);
      var e := RisingEdges(tabs[1..], tabs[0]);
      assert Cycle(index, count, tabs, last) == Cycle(next, count, tabs[1..], tabs[0]);
      if tabs[0] && !last {
        assert RisingEdges(tabs, last) == 1 + e;
        if index + 1 == count {
          ModUnique(index + 1, count, 1, 0);
          ModShift(count, e);
        } else {
          ModUnique(index + 1, count, 0, index + 1);
        }
      } else {
        assert RisingEdges(tabs, last) == e;
      }
    }
  }

  /** Holding Tab over any number of frames after a fresh press advances the index once. */
  lemma HoldingTabAdvancesOnce(index: int, count: nat, frames: nat)
    requires count > 0 && 0 <= index < count && frames >= 1
    ensures Cycle(index, count, seq(frames, _ => true), false) == (index + 1) % count
  {
    var tabs := seq(frames, _ => true);
    assert RisingEdges(tabs[1..], true) == 0 by {
      AllHeldNoEdges(frames - 1);
      assert tabs[1..] == seq(frames - 1, _ => true);
    }
    CycleCountsRisingEdges(index, count, tabs, false);
  }

  lemma {:induction false} AllHeldNoEdges(n: nat)
    ensures RisingEdges(seq(n, _ => true), true) == 0
  {
    if n > 0 {
      assert seq(n, _ => true)[1..] == seq(n - 1, _ => true);
      AllHeldNoEdges(n - 1);
    }
  }

  /** ProcessKeyboardInput and its `tab_pressed_last_frame` static. */
  class KeyboardInputSystem {
    var tabPressedLastFrame: bool

    constructor ()
      ensures !tabPressedLastFrame
    {
      tabPressedLastFrame := false;
    }

    /**
     * Appends one event per name to the world active on entry, then applies
     * the Tab rule. Without a level or with no worlds, nothing happens, not
     * even the update of the Tab state.
     */
    method Dispatch(bs: Engine.BaseSystem, names: seq<string>, tab: bool)
      requires bs.Valid()
      requires bs.hasLevel && |bs.worlds| > 0 ==> 0 <= bs.activeWorldIndex < |bs.worlds|
      modifies this, bs`worlds, bs`nextInstanceID, bs`issued, bs`activeWorldIndex
      ensures bs.Valid()
      ensures !bs.hasLevel || |old(bs.worlds)| == 0 ==>
        bs.worlds == old(bs.worlds) && bs.nextInstanceID == old(bs.nextInstanceID)
        && bs.activeWorldIndex == old(bs.activeWorldIndex) && tabPressedLastFrame == old(tabPressedLastFrame)
      ensures bs.hasLevel && |old(bs.worlds)| > 0 ==>
        var a := old(bs.activeWorldIndex);
        var ev := Events(bs.prototypes, bs.hasInstance, old(bs.nextInstanceID), names);
        && bs.worlds == old(bs.worlds)[a := old(bs.worlds)[a].(instances := old(bs.worlds)[a].instances + ev.0)]
        && bs.nextInstanceID == ev.1
        && bs.activeWorldIndex == TabStep(a, |bs.worlds|, tab, old(tabPressedLastFrame))
        && 0 <= bs.activeWorldIndex < |bs.worlds|
        && tabPressedLastFrame == tab
    {
      if !bs.hasLevel || |bs.worlds| == 0 {
        return;
      }
      var a := bs.activeWorldIndex;
      var instances := bs.worlds[a].instances;
      ghost var w0, n0 := instances, bs.nextInstanceID;
      for k := 0 to |names|
        invariant bs.Valid()
        invariant instances == w0 + Events(bs.prototypes, bs.hasInstance, n0, names[..k]).0
        invariant bs.nextInstanceID == Events(bs.prototypes, bs.hasInstance, n0, names[..k]).1
        invariant bs.worlds == old(bs.worlds) && bs.activeWorldIndex == a
        invariant tabPressedLastFrame == old(tabPressedLastFrame)
      {
        EventsSnoc(bs.prototypes, bs.hasInstance, n0, names[..k], names[k]);
        assert names[..k + 1] == names[..k] + [names[k]];
        var inst := bs.CreateInstanceByName(names[k], Origin, Origin);
        instances := instances + [inst];
      }
      assert names[..|names|] == names;
      bs.worlds := bs.worlds[a := bs.worlds[a].(instances := instances)];
      if tab && !tabPressedLastFrame {
        bs.activeWorldIndex := (bs.activeWorldIndex + 1) % |bs.worlds|;
      }
      tabPressedLastFrame := tab;
    }

    /** ProcessKeyboardInput of the latest rewrite: the UAV events, then Tab. */
    method ProcessKeyboardInput(bs: Engine.BaseSystem, keys: KeyState)
      requires bs.Valid()
      requires bs.hasLevel && |bs.worlds| > 0 ==> 0 <= bs.activeWorldIndex < |bs.worlds|
      modifies this, bs`worlds, bs`nextInstanceID, bs`issued, bs`activeWorldIndex
      ensures bs.Valid()
      ensures !bs.hasLevel || |old(bs.worlds)| == 0 ==>
        bs.worlds == old(bs.worlds) && bs.nextInstanceID == old(bs.nextInstanceID)
        && bs.activeWorldIndex == old(bs.activeWorldIndex) && tabPressedLastFrame == old(tabPressedLastFrame)
      ensures bs.hasLevel && |old(bs.worlds)| > 0 ==>
        var a := old(bs.activeWorldIndex);
        var ev := Events(bs.prototypes, bs.hasInstance, old(bs.nextInstanceID), UavEvents(keys));
        && bs.worlds == old(bs.worlds)[a := old(bs.worlds)[a].(instances := old(bs.worlds)[a].instances + ev.0)]
        && bs.nextInstanceID == ev.1
        && bs.activeWorldIndex == TabStep(a, |bs.worlds|, keys.tab, old(tabPressedLastFrame))
        && 0 <= bs.activeWorldIndex < |bs.worlds|
        && tabPressedLastFrame == keys.tab
    {
      Dispatch(bs, UavEvents(keys), keys.tab);
    }

    /** ProcessKeyboardInput of the tesseract rewrite: the tesseract events, then the UAV events, then Tab. */
    method ProcessTesseractKeyboardInput(bs: Engine.BaseSystem, keys: KeyState)
      requires bs.Valid()
      requires bs.hasLevel && |bs.worlds| > 0 ==> 0 <= bs.activeWorldIndex < |bs.worlds|
      modifies this, bs`worlds, bs`nextInstanceID, bs`issued, bs`activeWorldIndex
      ensures bs.Valid()
      ensures !bs.hasLevel || |old(bs.worlds)| == 0 ==>
        bs.worlds == old(bs.worlds) && bs.nextInstanceID == old(bs.nextInstanceID)
        && bs.activeWorldIndex == old(bs.activeWorldIndex) && tabPressedLastFrame == old(tabPressedLastFrame)
      ensures bs.hasLevel && |old(bs.worlds)| > 0 ==>
        var a := old(bs.activeWorldIndex);
        var ev := Events(bs.prototypes, bs.hasInstance, old(bs.nextInstanceID), TessEvents(keys) + UavEvents(keys));
        && bs.worlds == old(bs.worlds)[a := old(bs.worlds)[a].(instances := old(bs.worlds)[a].instances + ev.0)]
        && bs.nextInstanceID == ev.1
        && bs.activeWorldIndex == TabStep(a, |bs.worlds|, keys.tab, old(tabPressedLastFrame))
        && 0 <= bs.activeWorldIndex < |bs.worlds|
        && tabPressedLastFrame == keys.tab
    {
      Dispatch(bs, TessEvents(keys) + UavEvents(keys), keys.tab);
    }
  }

  /** With tilde held, Left and Right add nothing; without it, each arrow adds exactly one event. */
  lemma TildeSwitchesArrows(keys: KeyState)
    ensures keys.tilde ==> TessEvents(keys) == TessEvents(keys.(left := false, right := false))
    ensures !keys.tilde && keys.up && keys.down && keys.left && keys.right ==>
      TessEvents(keys) == ["TESS_FORWARD", "TESS_BACKWARD", "TESS_LEFT", "TESS_RIGHT"]
  {
  }
}
