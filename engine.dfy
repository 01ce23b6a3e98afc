/**
 * Instance factories.
 *
 * Early rewrites (5/, 7/, 8/) own an `InstanceSystem` object whose counter
 * stamps out instances; later ones keep the counter in an `InstanceContext`
 * reached through the shared `BaseSystem`, and `CreateInstance` is a free
 * function that returns a default instance when that context is missing.
 */
module Engine {
  import opened Common
  import opened Sky

  /** The consecutive IDs `start, start + 1, …` handed out by `n` calls. */
  function IssuedIds(start: int, n: nat): (r: seq<int>)
    ensures |r| == n
  {
    if n == 0 then [] else IssuedIds(start, n - 1) + [start + n - 1]
  }

  /** Successive calls on one factory give strictly increasing, consecutive IDs. */
  lemma {:induction false} IssuedIdsIncreasing(start: int, n: nat)
    ensures forall k :: 0 <= k < n ==> IssuedIds(start, n)[k] == start + k
    ensures forall i, j :: 0 <= i < j < n ==> IssuedIds(start, n)[i] < IssuedIds(start, n)[j]
  {
    if n > 0 {
      IssuedIdsIncreasing(start, n - 1);
    }
  }

  /**
   * The factory object of the early rewrites (8/Systems/InstanceSystem.cpp).
   * `issued` records every ID handed out so far.
   */
  class InstanceSystem {
    var nextInstanceID: int
    ghost var issued: set<int>

    ghost predicate Valid()
      reads this
    {
      forall id :: id in issued ==> id < nextInstanceID
    }

    constructor ()
      ensures Valid() && nextInstanceID == 0 && issued == {}
    {
      nextInstanceID := 0;
      issued := {};
    }

    /**
     * createInstance: the current counter becomes the ID, then the counter
     * moves on by one. Only prototypeID and position are set; rotation stays
     * 0 and the colour stays the default.
     */
    method CreateInstance(prototypeID: int, position: Vec3) returns (inst: EntityInstance)
      requires Valid()
      modifies this
      ensures Valid()
      ensures inst == Stamp(old(nextInstanceID), prototypeID, position, Magenta)
      ensures nextInstanceID == old(nextInstanceID) + 1
      ensures inst.instanceID !in old(issued) && issued == old(issued) + {inst.instanceID}
    {
      inst := Stamp(nextInstanceID, prototypeID, position, Magenta);
      issued := issued + {nextInstanceID};
      nextInstanceID := nextInstanceID + 1;
    }

    /** update does nothing. */
    method Update()
      ensures nextInstanceID == old(nextInstanceID) && issued == old(issued)
    {
    }
  }

  /**
   * The shared state of the later rewrites. Each context pointer of the
   * original becomes a presence flag next to the fields of that context that
   * the core reads: the instance counter (InstanceContext), the colour
   * library, sky keys and shader sources (WorldContext; a flat BaseSystem in
   * the older rewrites) and the worlds with the active index (LevelContext). The
   * prototype vector that the host passes by reference to every system is
   * held here as `prototypes`.
   */
  class BaseSystem {
    var hasApp: bool
    var hasWorld: bool
    var hasInstance: bool
    var hasLevel: bool
    var nextInstanceID: int
    ghost var issued: set<int>
    var colorLibrary: map<string, Vec3>
    var skyKeys: seq<SkyColorKey>
    var shaders: map<string, string>
    var worlds: seq<Entity>
    var activeWorldIndex: int
    var prototypes: seq<Entity>

    ghost predicate Valid()
      reads this
    {
      forall id :: id in issued ==> id < nextInstanceID
    }

    constructor (hasWorld: bool, hasInstance: bool, hasLevel: bool, prototypes: seq<Entity>)
      ensures Valid() && issued == {} && nextInstanceID == 0
      ensures this.hasWorld == hasWorld && this.hasInstance == hasInstance && this.hasLevel == hasLevel
      ensures this.prototypes == prototypes && worlds == [] && activeWorldIndex == 0 && colorLibrary == map[]
      ensures hasApp && skyKeys == [] && shaders == map[]
    {
      hasApp := true;
      skyKeys := [];
      shaders := map[];
      this.hasWorld := hasWorld;
      this.hasInstance := hasInstance;
      this.hasLevel := hasLevel;
      this.prototypes := prototypes;
      nextInstanceID := 0;
      issued := {};
      colorLibrary := map[];
      worlds := [];
      activeWorldIndex := 0;
    }

    /**
     * CreateInstance(baseSystem, prototypeID, position, color): without an
     * instance context the default instance comes back and no ID is used;
     * otherwise the counter becomes the ID and moves on by exactly one.
     */
    method CreateInstance(prototypeID: int, position: Vec3, color: Vec3) returns (inst: EntityInstance)
      requires Valid()
      modifies this`nextInstanceID, this`issued
      ensures Valid()
      ensures !hasInstance ==> inst == DefaultInstance && nextInstanceID == old(nextInstanceID) && issued == old(issued)
      ensures hasInstance ==> inst == Stamp(old(nextInstanceID), prototypeID, position, color)
      ensures hasInstance ==> nextInstanceID == old(nextInstanceID) + 1
      ensures hasInstance ==> inst.instanceID !in old(issued) && issued == old(issued) + {inst.instanceID}
    {
      if !hasInstance {
        return DefaultInstance;
      }
      inst := CreateFlatInstance(prototypeID, position, color);
    }

    /**
     * CreateInstance(baseSystem, prototypeID, position, color) of 12/ and 13/,
     * on a flat BaseSystem that always holds the counter.
     */
    method CreateFlatInstance(prototypeID: int, position: Vec3, color: Vec3) returns (inst: EntityInstance)
      requires Valid()
      modifies this`nextInstanceID, this`issued
      ensures Valid()
      ensures inst == Stamp(old(nextInstanceID), prototypeID, position, color)
      ensures nextInstanceID == old(nextInstanceID) + 1
      ensures inst.instanceID !in old(issued) && issued == old(issued) + {inst.instanceID}
    {
      inst := Stamp(nextInstanceID, prototypeID, position, color);
      issued := issued + {nextInstanceID};
      nextInstanceID := nextInstanceID + 1;
    }

    /**
     * The colourless CreateInstance(prototypeID, position) of 10/BaseSystem.cpp,
     * on a flat BaseSystem that always holds the counter.
     */
    method CreateUncoloredInstance(prototypeID: int, position: Vec3) returns (inst: EntityInstance)
      requires Valid()
      modifies this`nextInstanceID, this`issued
      ensures Valid()
      ensures inst == Stamp(old(nextInstanceID), prototypeID, position, Magenta)
      ensures nextInstanceID == old(nextInstanceID) + 1
      ensures inst.instanceID !in old(issued) && issued == old(issued) + {inst.instanceID}
    {
      inst := Stamp(nextInstanceID, prototypeID, position, Magenta);
      issued := issued + {nextInstanceID};
      nextInstanceID := nextInstanceID + 1;
    }

    /**
     * CreateInstance(baseSystem, name, position, color): looks the prototype
     * up by name; an unknown name gives the default instance and uses no ID.
     */
    method CreateInstanceByName(name: string, position: Vec3, color: Vec3) returns (inst: EntityInstance)
      requires Valid()
      modifies this`nextInstanceID, this`issued
      ensures Valid()
      ensures FindPrototype(name, prototypes).None? ==>
        inst == DefaultInstance && nextInstanceID == old(nextInstanceID) && issued == old(issued)
      ensures FindPrototype(name, prototypes).Some? && hasInstance ==>
        inst == Stamp(old(nextInstanceID), prototypes[FindPrototype(name, prototypes).value].prototypeID, position, color)
        && nextInstanceID == old(nextInstanceID) + 1
      ensures FindPrototype(name, prototypes).Some? && !hasInstance ==>
        inst == DefaultInstance && nextInstanceID == old(nextInstanceID) && issued == old(issued)
    {
      var found := FindPrototypeIndex(name, prototypes);
      match found {
        case None =>
          inst := DefaultInstance;
        case Some(k) =>
          inst := CreateInstance(prototypes[k].prototypeID, position, color);
      }
    }
  }

  /** findPrototype: the index of the first prototype called `name`, if any. */
  function FindPrototype(name: string, protos: seq<Entity>): (r: Option<nat>)
    ensures r.Some? ==> r.value < |protos| && protos[r.value].name == name
    ensures r.Some? ==> forall k :: 0 <= k < r.value ==> protos[k].name != name
    ensures r.None? ==> forall k :: 0 <= k < |protos| ==> protos[k].name != name
  {
    if |protos| == 0 then None
    else if protos[0].name == name then Some(0)
    else match FindPrototype(name, protos[1..]) {
      case None => None
      case Some(i) => Some(i + 1)
    }
  }

  /** The linear search of findPrototype, as the loop the source runs. */
  method FindPrototypeIndex(name: string, protos: seq<Entity>) returns (r: Option<nat>)
    ensures r == FindPrototype(name, protos)
  {
    var k := 0;
    while k < |protos|
      invariant 0 <= k <= |protos|
      invariant forall j :: 0 <= j < k ==> protos[j].name != name
    {
      if protos[k].name == name {
        FindPrototypeUnique(name, protos, k);
        return Some(k);
      }
      k := k + 1;
    }
    FindPrototypeUnique(name, protos, -1);
    return None;
  }

  /** The loop that picks the world: the first prototype with isWorld set, if any. */
  method FindWorldIndex(protos: seq<Entity>) returns (r: Option<nat>)
    ensures r == FirstWorld(protos)
  {
    var k := 0;
    while k < |protos|
      invariant 0 <= k <= |protos|
      invariant forall j :: 0 <= j < k ==> !protos[j].isWorld
    {
      if protos[k].isWorld {
        FirstWorldUnique(protos, k);
        return Some(k);
      }
      k := k + 1;
    }
    FirstWorldUnique(protos, -1);
    return None;
  }

  lemma FirstWorldUnique(protos: seq<Entity>, k: int)
    requires -1 <= k < |protos|
    requires k >= 0 ==> protos[k].isWorld
    requires forall j :: 0 <= j < k ==> !protos[j].isWorld
    requires k < 0 ==> forall j :: 0 <= j < |protos| ==> !protos[j].isWorld
    ensures FirstWorld(protos) == if k >= 0 then Some(k) else None
  {
  }

  /** The first match is the only answer FindPrototype can give. */
  lemma FindPrototypeUnique(name: string, protos: seq<Entity>, k: int)
    requires -1 <= k < |protos|
    requires k >= 0 ==> protos[k].name == name
    requires forall j :: 0 <= j < k ==> protos[j].name != name
    requires k < 0 ==> forall j :: 0 <= j < |protos| ==> protos[j].name != name
    ensures FindPrototype(name, protos) == if k >= 0 then Some(k) else None
  {
  }
}
