/**
 * Values shared by every part of the voxel demo's core: three-component
 * vectors, the per-instance record and the prototype record.
 *
 * The rewrites of the demo grow and shrink these records from one version to
 * the next; the datatypes here carry the union of the fields that the
 * modelled code reads or writes, and each version's code touches only its own.
 */
module Common {

  datatype Option<T> = None | Some(value: T)

  /** A prefix one element longer is the shorter prefix and that element. */
  lemma PrefixSnoc<T>(a: seq<T>, k: nat)
    requires k < |a|
    ensures a[..k + 1] == a[..k] + [a[k]]
  {
  }

  /** A glm::vec3, over the reals instead of IEEE floats. */
  datatype Vec3 = Vec3(x: real, y: real, z: real)

  const Origin: Vec3 := Vec3(0.0, 0.0, 0.0)

  /** The default instance colour, glm::vec3(1, 0, 1). */
  const Magenta: Vec3 := Vec3(1.0, 0.0, 1.0)

  function Add(a: Vec3, b: Vec3): Vec3
  {
    Vec3(a.x + b.x, a.y + b.y, a.z + b.z)
  }

  function DistanceSquared(a: Vec3, b: Vec3): real
  {
    (a.x - b.x) * (a.x - b.x) + (a.y - b.y) * (a.y - b.y) + (a.z - b.z) * (a.z - b.z)
  }

  /** glm::distance(a, b) < 0.1, compared on squares so that no root is taken. */
  predicate Near(a: Vec3, b: Vec3)
  {
    DistanceSquared(a, b) < 0.01
  }

  /**
   * One placed copy of a prototype. `name` only exists in the latest
   * rewrite (where it names the prototype during level load); elsewhere it
   * stays empty. `color` is magenta unless the creating code sets it.
   */
  datatype EntityInstance = EntityInstance(
    instanceID: int,
    prototypeID: int,
    name: string,
    position: Vec3,
    rotation: real,
    color: Vec3)

  /**
   * The value-initialised instance `{}` returned on the error paths of
   * CreateInstance: zero IDs, empty name, origin, rotation 0, magenta.
   */
  const DefaultInstance: EntityInstance := EntityInstance(0, 0, "", Origin, 0.0, Magenta)

  /** The instance CreateInstance stamps out for a given ID. */
  function Stamp(id: int, prototypeID: int, position: Vec3, color: Vec3): EntityInstance
  {
    EntityInstance(id, prototypeID, "", position, 0.0, color)
  }

  /**
   * A prototype. `instances` is the world's instance list when the prototype
   * is a world, and the payload of events when it is an audicle.
   */
  datatype Entity = Entity(
    prototypeID: int,
    name: string,
    isRenderable: bool,
    isSolid: bool,
    hasWireframe: bool,
    isAnimated: bool,
    isOccluder: bool,
    dampingFactor: real,
    isBlock: bool,
    isWorld: bool,
    isAudicle: bool,
    audicleType: string,
    isStar: bool,
    isVolume: bool,
    isTesseract: bool,
    blockType: int,
    fillOrigin: Vec3,
    fillDimensions: Vec3,
    fillBlockType: string,
    fillColor: string,
    count: int,
    instances: seq<EntityInstance>)

  /** Every instance in `s` names a prototype that exists in `protos`. */
  predicate IndexesInto(s: seq<EntityInstance>, protos: seq<Entity>)
  {
    forall k :: 0 <= k < |s| ==> 0 <= s[k].prototypeID < |protos|
  }

  /** The instance IDs of `s`, in order. */
  function Ids(s: seq<EntityInstance>): (r: seq<int>)
    ensures |r| == |s|
    ensures forall k :: 0 <= k < |s| ==> r[k] == s[k].instanceID
  {
    seq(|s|, k requires 0 <= k < |s| => s[k].instanceID)
  }

  /** No two instances of `s` share an ID. */
  predicate UniqueIds(s: seq<EntityInstance>)
  {
    forall i, j :: 0 <= i < j < |s| ==> s[i].instanceID != s[j].instanceID
  }

  /** Every ID in `s` is below `bound` (all were issued before the counter reached it). */
  predicate IdsBelow(s: seq<EntityInstance>, bound: int)
  {
    forall k :: 0 <= k < |s| ==> s[k].instanceID < bound
  }

  /** The index of the first prototype satisfying `isWorld`, if any. */
  function FirstWorld(protos: seq<Entity>): (r: Option<nat>)
    ensures r.Some? ==> r.value < |protos| && protos[r.value].isWorld
    ensures r.Some? ==> forall k :: 0 <= k < r.value ==> !protos[k].isWorld
    ensures r.None? ==> forall k :: 0 <= k < |protos| ==> !protos[k].isWorld
  {
    if |protos| == 0 then None
    else if protos[0].isWorld then Some(0)
    else match FirstWorld(protos[1..]) {
      case None => None
      case Some(i) => Some(i + 1)
    }
  }
}
