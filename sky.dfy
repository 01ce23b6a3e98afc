/**
 * getCurrentSkyColors: find the keyframe segment that brackets the time of
 * day, then blend the two keys' top and bottom colours linearly.
 *
 * Three forms recur. The oldest reads a fixed five-key table and, when no
 * segment brackets the time, reads one key past the table's end. The next
 * falls back to segment 0. The vector form leaves its outputs alone for fewer
 * than two keys and falls back to the last segment. All are over reals here.
 */
module Sky {
  import opened Common

  datatype SkyColorKey = SkyColorKey(time: real, top: Vec3, bottom: Vec3)

  datatype SkyColors = SkyColors(top: Vec3, bottom: Vec3)

  /** glm::mix on one component: a * (1 - u) + b * u. */
  function MixReal(a: real, b: real, u: real): real
  {
    a * (1.0 - u) + b * u
  }

  function Mix(a: Vec3, b: Vec3, u: real): Vec3
  {
    Vec3(MixReal(a.x, b.x, u), MixReal(a.y, b.y, u), MixReal(a.z, b.z, u))
  }

  /** A factor in [0, 1] keeps the blend between its two ends. */
  lemma MixBetween(a: real, b: real, u: real)
    requires 0.0 <= u <= 1.0
    ensures a <= b ==> a <= MixReal(a, b, u) <= b
    ensures b <= a ==> b <= MixReal(a, b, u) <= a
  {
    assert MixReal(a, b, u) == a + (b - a) * u;
    if a <= b {
      ScaleWithin(b - a, u);
    } else {
      ScaleWithin(a - b, u);
      assert (b - a) * u == -((a - b) * u);
    }
  }

  lemma ScaleWithin(d: real, u: real)
    requires d >= 0.0 && 0.0 <= u <= 1.0
    ensures 0.0 <= d * u <= d
  {
    assert d * (1.0 - u) >= 0.0;
  }

  lemma RatioWithin(a: real, b: real)
    requires 0.0 <= a <= b && b > 0.0
    ensures 0.0 <= a / b <= 1.0
  {
    var q := a / b;
    assert q * b == a;
    assert (1.0 - q) * b == b - a;
  }

  predicate Brackets(keys: seq<SkyColorKey>, i: nat, t: real)
    requires i + 1 < |keys|
  {
    keys[i].time <= t <= keys[i + 1].time
  }

  /**
   * The search loop, started at `i`: the first segment that brackets `t`, or
   * |keys| - 1 when none does (where the loop counter ends).
   */
  function FirstBracket(keys: seq<SkyColorKey>, t: real, i: nat): (r: nat)
    requires 2 <= |keys| && i <= |keys| - 1
    ensures i <= r <= |keys| - 1
    ensures r < |keys| - 1 ==> Brackets(keys, r, t)
    ensures forall j :: i <= j < r ==> !Brackets(keys, j, t)
    decreases |keys| - i
  {
    if i == |keys| - 1 then i
    else if Brackets(keys, i, t) then i
    else FirstBracket(keys, t, i + 1)
  }

  /** Times strictly increase from key to key. */
  predicate Ascending(keys: seq<SkyColorKey>)
  {
    forall i, j :: 0 <= i < j < |keys| ==> keys[i].time < keys[j].time
  }

  /** The blend on segment `i`; the segment must have a positive length. */
  function Blend(keys: seq<SkyColorKey>, i: nat, t: real): SkyColors
    requires i + 1 < |keys| && keys[i].time != keys[i + 1].time
  {
    var u := (t - keys[i].time) / (keys[i + 1].time - keys[i].time);
    SkyColors(Mix(keys[i].top, keys[i + 1].top, u), Mix(keys[i].bottom, keys[i + 1].bottom, u))
  }

  /**
   * The vector form (23/BaseSystem/SkyboxSystem.cpp and its copies). Fewer
   * than two keys returns the outputs as they were; otherwise the first
   * bracketing segment, or the last segment when none brackets. A segment of
   * zero length divides by zero, which gives no finite colour: `None`.
   */
  function VectorSkyColors(keys: seq<SkyColorKey>, t: real, top: Vec3, bottom: Vec3): (r: Option<SkyColors>)
    ensures |keys| < 2 ==> r == Some(SkyColors(top, bottom))
    ensures Ascending(keys) ==> r.Some?
  {
    if |keys| < 2 then Some(SkyColors(top, bottom))
    else
      var i := VectorSegment(keys, t);
      if keys[i].time == keys[i + 1].time then None else Some(Blend(keys, i, t))
  }

  /** The segment the vector form blends on: the first bracketing one, clamped to the last. */
  function VectorSegment(keys: seq<SkyColorKey>, t: real): (i: nat)
    requires |keys| >= 2
    ensures i + 1 < |keys|
    ensures i < |keys| - 2 ==> Brackets(keys, i, t)
    ensures forall j :: 0 <= j < i ==> !Brackets(keys, j, t)
  {
    var i := FirstBracket(keys, t, 0);
    if i >= |keys| - 1 then |keys| - 2 else i
  }

  /** With no bracketing segment (t before the first key or after the last) the last segment is used. */
  lemma {:induction false} NoBracketUsesLastSegment(keys: seq<SkyColorKey>, t: real)
    requires |keys| >= 2
    requires forall j :: 0 <= j < |keys| - 1 ==> !Brackets(keys, j, t)
    ensures VectorSegment(keys, t) == |keys| - 2
  {
  }

  /** At a key's own time the vector form gives exactly that key's colours. */
  lemma {:induction false} VectorAtKeyTime(keys: seq<SkyColorKey>, k: nat, top: Vec3, bottom: Vec3)
    requires 2 <= |keys| && k < |keys| && Ascending(keys)
    ensures VectorSkyColors(keys, keys[k].time, top, bottom) == Some(SkyColors(keys[k].top, keys[k].bottom))
  {
    var t := keys[k].time;
    if k == 0 {
      assert Brackets(keys, 0, t);
      SegmentAt(keys, t, 0);
      BlendAtStart(keys, 0);
    } else {
      assert Brackets(keys, k - 1, t);
      forall j | 0 <= j < k - 1 ensures !Brackets(keys, j, t) {
        assert keys[j + 1].time < keys[k].time;
      }
      SegmentAt(keys, t, k - 1);
      BlendAtEnd(keys, k - 1);
    }
  }

  /** The first bracketing segment is the one the vector form blends on. */
  lemma SegmentAt(keys: seq<SkyColorKey>, t: real, i: nat)
    requires i + 1 < |keys| && Brackets(keys, i, t)
    requires forall j :: 0 <= j < i ==> !Brackets(keys, j, t)
    ensures VectorSegment(keys, t) == i
  {
  }

  /** A segment's blend at its start time is its first key. */
  lemma BlendAtStart(keys: seq<SkyColorKey>, i: nat)
    requires i + 1 < |keys| && keys[i].time < keys[i + 1].time
    ensures Blend(keys, i, keys[i].time) == SkyColors(keys[i].top, keys[i].bottom)
  {
    var d := keys[i + 1].time - keys[i].time;
    assert (keys[i].time - keys[i].time) / d == 0.0;
  }

  /** A segment's blend at its end time is its second key. */
  lemma BlendAtEnd(keys: seq<SkyColorKey>, i: nat)
    requires i + 1 < |keys| && keys[i].time < keys[i + 1].time
    ensures Blend(keys, i, keys[i + 1].time) == SkyColors(keys[i + 1].top, keys[i + 1].bottom)
  {
    var d := keys[i + 1].time - keys[i].time;
    assert (keys[i + 1].time - keys[i].time) / d == 1.0;
    MixAtOne(keys[i].top, keys[i + 1].top);
    MixAtOne(keys[i].bottom, keys[i + 1].bottom);
  }

  lemma MixAtOne(a: Vec3, b: Vec3)
    ensures Mix(a, b, 1.0) == b
  {
  }

  /** Inside the chosen segment every output component lies between the two keys' components. */
  lemma {:induction false} VectorWithinSegment(keys: seq<SkyColorKey>, t: real, top: Vec3, bottom: Vec3)
    requires 2 <= |keys| && Ascending(keys)
    requires keys[0].time <= t <= keys[|keys| - 1].time
    ensures var i := VectorSegment(keys, t);
      var r := VectorSkyColors(keys, t, top, bottom).value;
      Between(keys[i].top, keys[i + 1].top, r.top) && Between(keys[i].bottom, keys[i + 1].bottom, r.bottom)
  {
    var i := VectorSegment(keys, t);
    BracketExists(keys, t);
    var j :| 0 <= j < |keys| - 1 && Brackets(keys, j, t);
    assert i <= j;
    assert Brackets(keys, i, t);
    var u := (t - keys[i].time) / (keys[i + 1].time - keys[i].time);
    RatioWithin(t - keys[i].time, keys[i + 1].time - keys[i].time);
    BlendBetween(keys[i].top, keys[i + 1].top, u);
    BlendBetween(keys[i].bottom, keys[i + 1].bottom, u);
  }

  /** Times from the first key to the last are bracketed by some segment. */
  lemma {:induction false} BracketExists(keys: seq<SkyColorKey>, t: real)
    requires 2 <= |keys| && Ascending(keys)
    requires keys[0].time <= t <= keys[|keys| - 1].time
    ensures exists j :: 0 <= j < |keys| - 1 && Brackets(keys, j, t)
  {
    if t <= keys[1].time {
      assert Brackets(keys, 0, t);
    } else if |keys| == 2 {
      assert false;
    } else {
      BracketExists(keys[1..], t);
      var j :| 0 <= j < |keys| - 2 && Brackets(keys[1..], j, t);
      assert Brackets(keys, j + 1, t);
    }
  }

  /** Each component of `v` lies between those of `a` and `b`. */
  predicate Between(a: Vec3, b: Vec3, v: Vec3)
  {
    (a.x <= v.x <= b.x || b.x <= v.x <= a.x)
    && (a.y <= v.y <= b.y || b.y <= v.y <= a.y)
    && (a.z <= v.z <= b.z || b.z <= v.z <= a.z)
  }

  lemma BlendBetween(a: Vec3, b: Vec3, u: real)
    requires 0.0 <= u <= 1.0
    ensures Between(a, b, Mix(a, b, u))
  {
    MixBetween(a.x, b.x, u);
    MixBetween(a.y, b.y, u);
    MixBetween(a.z, b.z, u);
  }

  /** The five-key day table shared by the fixed forms. */
  const DayKeys: seq<SkyColorKey> := [
    SkyColorKey(0.0, Vec3(16.0 / 255.0, 16.0 / 255.0, 48.0 / 255.0), Vec3(0.0, 0.0, 0.0)),
    SkyColorKey(0.25, Vec3(0.0, 0.0, 1.0), Vec3(128.0 / 255.0, 128.0 / 255.0, 1.0)),
    SkyColorKey(0.5, Vec3(135.0 / 255.0, 206.0 / 255.0, 235.0 / 255.0), Vec3(1.0, 1.0, 1.0)),
    SkyColorKey(0.75, Vec3(0.0, 128.0 / 255.0, 128.0 / 255.0), Vec3(1.0, 71.0 / 255.0, 0.0)),
    SkyColorKey(1.0, Vec3(16.0 / 255.0, 16.0 / 255.0, 48.0 / 255.0), Vec3(0.0, 0.0, 0.0))
  ]

  /** Key times ascend 0, .25, .5, .75, 1 and the last key repeats the first key's colours. */
  lemma DayKeysShape()
    ensures |DayKeys| == 5 && Ascending(DayKeys)
    ensures DayKeys[0].time == 0.0 && DayKeys[4].time == 1.0
    ensures DayKeys[0].top == DayKeys[4].top && DayKeys[0].bottom == DayKeys[4].bottom
  {
  }

  /**
   * The oldest fixed form: the loop leaves `i` at the first bracketing
   * segment, or at 4, after which key i + 1 = 5 is read past the table.
   */
  function FixedSkyIndex(t: real): (i: nat)
    ensures i <= 4
  {
    FirstBracket(DayKeys, t, 0)
  }

  /** Times outside [0, 1] leave the index at 4, so the table is read at index 5. */
  lemma {:induction false} OutsideDayReadsPastEnd(t: real)
    requires t < 0.0 || t > 1.0
    ensures FixedSkyIndex(t) + 1 == |DayKeys|
  {
    var i := FixedSkyIndex(t);
    DayKeysShape();
    assert forall j :: 0 <= j < 4 ==> !Brackets(DayKeys, j, t);
  }

  /** The oldest fixed form, for the times its callers pass (a fraction of the day). */
  function FixedSkyColors(t: real): (r: SkyColors)
    requires 0.0 <= t <= 1.0
    ensures FixedSkyIndex(t) < 4
    ensures Some(r) == VectorSkyColors(DayKeys, t, Origin, Origin)
  {
    var i := FixedSkyIndex(t);
    if i == 4 then
      assert Brackets(DayKeys, 3, t);
      assert false;
      SkyColors(Origin, Origin)
    else
      Blend(DayKeys, i, t)
  }

  /** The fallback form (class.cpp, forg_.cpp): no bracketing segment means segment 0. */
  function FallbackSkyColors(t: real): (r: SkyColors)
    ensures (t < 0.0 || t > 1.0) ==> r == Blend(DayKeys, 0, t)
    ensures 0.0 <= t <= 1.0 ==> r == FixedSkyColors(t)
  {
    var i := FixedSkyIndex(t);
    if i == 4 then
      Blend(DayKeys, 0, t)
    else
      Blend(DayKeys, i, t)
  }

  /** At each key's time the fallback form gives that key's colours, and midnight matches at both ends. */
  lemma FallbackAtKeyTimes(k: nat)
    requires k < 5
    ensures FallbackSkyColors(DayKeys[k].time) == SkyColors(DayKeys[k].top, DayKeys[k].bottom)
    ensures FallbackSkyColors(0.0) == FallbackSkyColors(1.0)
  {
    DayKeysShape();
    VectorAtKeyTime(DayKeys, k, Origin, Origin);
    VectorAtKeyTime(DayKeys, 0, Origin, Origin);
    VectorAtKeyTime(DayKeys, 4, Origin, Origin);
  }
}
