/**
 * Reading prototypes from their JSON definitions (from_json of Entity and of
 * EntityInstance), in three generations.
 *
 * A JSON object is modelled as a record of optional, already-typed values:
 * `None` is an absent key. from_json overwrites its out-parameter key by
 * key; each parser here maps the record it is given (whatever the
 * out-parameter held) to the record it leaves, and `None` stands for the
 * exception `at()` throws on a missing mandatory key.
 */
module Presets {
  import opened Common
  import Tables

  /** The keys an instance object may carry. */
  datatype InstanceJson = InstanceJson(
    name: Option<string>,
    prototypeID: Option<int>,
    position: Option<Vec3>,
    rotation: Option<real>)

  /** The keys a prototype object may carry, across the three generations. */
  datatype EntityJson = EntityJson(
    name: Option<string>,
    isBlock: Option<bool>,
    isRenderable: Option<bool>,
    isSolid: Option<bool>,
    hasWireframe: Option<bool>,
    isAnimated: Option<bool>,
    isWorld: Option<bool>,
    isAudicle: Option<bool>,
    audicleType: Option<string>,
    isStar: Option<bool>,
    isVolume: Option<bool>,
    isOccluder: Option<bool>,
    dampingFactor: Option<real>,
    isTesseract: Option<bool>,
    fillOrigin: Option<Vec3>,
    fillDimensions: Option<Vec3>,
    fillBlockType: Option<string>,
    fillColor: Option<string>,
    count: Option<int>,
    instances: Option<seq<InstanceJson>>)

  /** `if (j.contains(key)) j.at(key).get_to(field)`: the key's value if present, else the field as it was. */
  function Pick<T>(o: Option<T>, current: T): (r: T)
    ensures o.Some? ==> r == o.value
    ensures o.None? ==> r == current
  {
    if o.Some? then o.value else current
  }

  /** An object with only a name: what a minimal prototype definition holds. */
  function NameOnly(name: string): EntityJson
  {
    EntityJson(Some(name), None, None, None, None, None, None, None, None, None, None, None, None, None,
               None, None, None, None, None, None)
  }

  /**
   * A freshly constructed instance record: name empty, rotation 0 and colour
   * magenta by their initialisers. instanceID, prototypeID and position have
   * no initialiser, so any value is allowed for them.
   */
  predicate FreshInstance(inst: EntityInstance)
  {
    inst.name == "" && inst.rotation == 0.0 && inst.color == Magenta
  }

  /** The default prototype record: every flag false, dampingFactor 0.10, audicleType "false", count 1, no instances. */
  const DefaultEntity: Entity := Tables.Blank(0)

  // ---------------------------------------------------------------------
  // Latest generation: every instance key optional, a flag-only preset
  // ---------------------------------------------------------------------

  /**
   * from_json(j, inst), latest generation: name, prototypeID, position and
   * rotation are each read only when present; nothing else is touched, so
   * the colour is never parsed.
   */
  function InstanceFromJson(j: InstanceJson, inst: EntityInstance): (r: EntityInstance)
    ensures r.name == Pick(j.name, inst.name)
    ensures r.prototypeID == Pick(j.prototypeID, inst.prototypeID)
    ensures r.position == Pick(j.position, inst.position)
    ensures r.rotation == Pick(j.rotation, inst.rotation)
    ensures r.instanceID == inst.instanceID && r.color == inst.color
  {
    inst.(name := Pick(j.name, inst.name),
          prototypeID := Pick(j.prototypeID, inst.prototypeID),
          position := Pick(j.position, inst.position),
          rotation := Pick(j.rotation, inst.rotation))
  }

  /**
   * Every instance object parses, whatever keys it lacks. Parsed into a
   * fresh record, the colour stays magenta, the rotation is 0 unless given,
   * and an absent prototypeID leaves whatever value the record held.
   */
  lemma InstanceKeysOptional(j: InstanceJson, inst: EntityInstance)
    requires FreshInstance(inst)
    ensures InstanceFromJson(j, inst).color == Magenta
    ensures j.rotation.None? ==> InstanceFromJson(j, inst).rotation == 0.0
    ensures j.prototypeID.None? ==> InstanceFromJson(j, inst).prototypeID == inst.prototypeID
    ensures j.name.None? ==> InstanceFromJson(j, inst).name == ""
  {
  }

  /** get_to of an instance array: every element parsed into a record like `blank`, in order. */
  function InstancesFromJson(js: seq<InstanceJson>, blank: EntityInstance): (r: seq<EntityInstance>)
    ensures |r| == |js|
    ensures forall k :: 0 <= k < |js| ==> r[k] == InstanceFromJson(js[k], blank)
  {
    seq(|js|, k requires 0 <= k < |js| => InstanceFromJson(js[k], blank))
  }

  /** The isBlock preset of the latest generation: it sets isBlock, isRenderable and isSolid and nothing else. */
  function BlockPreset(e: Entity): Entity
  {
    e.(isBlock := true, isRenderable := true, isSolid := true)
  }

  /**
   * from_json(j, e), latest generation. "name" is mandatory. A true
   * "isBlock" applies the preset first, and every key present afterwards
   * overwrites its field, so an explicit key beats the preset. An "isBlock"
   * of false changes nothing. Instances are parsed each into a record like
   * `blank`, the record the JSON library starts each element from.
   */
  function EntityFromJson(j: EntityJson, e: Entity, blank: EntityInstance): (r: Option<Entity>)
    ensures r.None? <==> j.name.None?
    ensures r.Some? ==> r.value.name == j.name.value
    ensures r.Some? ==> r.value.isBlock == (j.isBlock == Some(true) || e.isBlock)
    ensures r.Some? ==> r.value.isRenderable == Pick(j.isRenderable, j.isBlock == Some(true) || e.isRenderable)
    ensures r.Some? ==> r.value.isSolid == Pick(j.isSolid, j.isBlock == Some(true) || e.isSolid)
    ensures r.Some? ==> r.value.prototypeID == e.prototypeID && r.value.isAudicle == e.isAudicle
                        && r.value.isTesseract == e.isTesseract && r.value.blockType == e.blockType
    ensures r.Some? ==> r.value.instances == if j.instances.Some? then InstancesFromJson(j.instances.value, blank) else e.instances
  {
    if j.name.None? then None
    else
      var p := if j.isBlock == Some(true) then BlockPreset(e) else e;
      Some(p.(name := j.name.value,
              isRenderable := Pick(j.isRenderable, p.isRenderable),
              isSolid := Pick(j.isSolid, p.isSolid),
              hasWireframe := Pick(j.hasWireframe, p.hasWireframe),
              isAnimated := Pick(j.isAnimated, p.isAnimated),
              isWorld := Pick(j.isWorld, p.isWorld),
              audicleType := Pick(j.audicleType, p.audicleType),
              isStar := Pick(j.isStar, p.isStar),
              isVolume := Pick(j.isVolume, p.isVolume),
              isOccluder := Pick(j.isOccluder, p.isOccluder),
              dampingFactor := Pick(j.dampingFactor, p.dampingFactor),
              fillOrigin := Pick(j.fillOrigin, p.fillOrigin),
              fillDimensions := Pick(j.fillDimensions, p.fillDimensions),
              fillBlockType := Pick(j.fillBlockType, p.fillBlockType),
              fillColor := Pick(j.fillColor, p.fillColor),
              count := Pick(j.count, p.count),
              instances := if j.instances.Some? then InstancesFromJson(j.instances.value, blank) else p.instances))
  }

  /**
   * The preset alone: a definition holding only a name and "isBlock": true
   * sets isBlock, isRenderable and isSolid and leaves every other field of
   * the record as it was.
   */
  lemma PresetAlone(name: string, e: Entity, blank: EntityInstance)
    ensures EntityFromJson(NameOnly(name).(isBlock := Some(true)), e, blank)
            == Some(e.(name := name, isBlock := true, isRenderable := true, isSolid := true))
  {
  }

  /** An explicit key is read after the preset and wins: isBlock with "isRenderable": false is not renderable, yet still solid. */
  lemma OverrideBeatsPreset(j: EntityJson, e: Entity, blank: EntityInstance)
    requires j.name.Some? && j.isBlock == Some(true) && j.isRenderable == Some(false) && j.isSolid.None?
    ensures EntityFromJson(j, e, blank).Some?
    ensures !EntityFromJson(j, e, blank).value.isRenderable
    ensures EntityFromJson(j, e, blank).value.isSolid && EntityFromJson(j, e, blank).value.isBlock
  {
  }

  /** A definition with only a name, read into a default record, yields the defaults under that name. */
  lemma DefaultsSurvive(name: string, blank: EntityInstance)
    ensures EntityFromJson(NameOnly(name), DefaultEntity, blank) == Some(DefaultEntity.(name := name))
    ensures var e := DefaultEntity;
      !e.isRenderable && !e.isSolid && !e.hasWireframe && !e.isAnimated && !e.isOccluder && !e.isBlock
      && !e.isWorld && !e.isStar && !e.isVolume && e.audicleType == "false" && e.dampingFactor == 0.1
      && e.count == 1 && e.instances == []
  {
  }

  // ---------------------------------------------------------------------
  // Earlier generations: mandatory instance keys, a preset that clears flags
  // ---------------------------------------------------------------------

  /**
   * from_json(j, inst) of the two earlier generations: prototypeID and
   * position are mandatory, rotation is read when present, and the
   * record's other fields (its colour among them) are left alone.
   */
  function InstanceFromJsonStrict(j: InstanceJson, inst: EntityInstance): (r: Option<EntityInstance>)
    ensures r.Some? <==> j.prototypeID.Some? && j.position.Some?
    ensures r.Some? ==> r.value.prototypeID == j.prototypeID.value && r.value.position == j.position.value
    ensures r.Some? ==> r.value.rotation == Pick(j.rotation, inst.rotation)
    ensures r.Some? ==> r.value.instanceID == inst.instanceID && r.value.color == inst.color && r.value.name == inst.name
  {
    if j.prototypeID.None? || j.position.None? then None
    else Some(inst.(prototypeID := j.prototypeID.value, position := j.position.value, rotation := Pick(j.rotation, inst.rotation)))
  }

  /** get_to of an instance array: every element parsed into a record like `blank`; the first failure aborts the whole read. */
  function InstancesFromJsonStrict(js: seq<InstanceJson>, blank: EntityInstance): (r: Option<seq<EntityInstance>>)
    ensures r.Some? <==> forall k :: 0 <= k < |js| ==> InstanceFromJsonStrict(js[k], blank).Some?
    ensures r.Some? ==> |r.value| == |js|
    ensures r.Some? ==> forall k :: 0 <= k < |js| ==> r.value[k] == InstanceFromJsonStrict(js[k], blank).value
  {
    if |js| == 0 then Some([])
    else
      var k := |js| - 1;
      match InstancesFromJsonStrict(js[..k], blank)
      case None => None
      case Some(front) =>
        match InstanceFromJsonStrict(js[k], blank)
        case None => None
        case Some(last) => Some(front + [last])
  }

  /** The isBlock preset of the earlier generations: renderable and solid, and every other kind flag cleared. */
  function StrictBlockPreset(e: Entity): Entity
  {
    e.(isBlock := true, isRenderable := true, isSolid := true, hasWireframe := false,
       isAnimated := false, isWorld := false, isAudicle := false, isStar := false)
  }

  /**
   * from_json(j, e) of the tesseract generation: "name" is mandatory and
   * the preset applies first; the keys isRenderable, isSolid, hasWireframe,
   * isAnimated, isWorld, isAudicle, isStar, isOccluder, dampingFactor and
   * isTesseract then overwrite it. A bad instance aborts the read.
   */
  function EntityFromJsonTesseract(j: EntityJson, e: Entity, blank: EntityInstance): (r: Option<Entity>)
    ensures r.Some? <==> j.name.Some? && (j.instances.Some? ==> InstancesFromJsonStrict(j.instances.value, blank).Some?)
    ensures r.Some? ==> r.value.name == j.name.value
    ensures r.Some? && j.isBlock == Some(true) ==>
      && r.value.isBlock
      && r.value.isRenderable == Pick(j.isRenderable, true) && r.value.isSolid == Pick(j.isSolid, true)
      && r.value.hasWireframe == Pick(j.hasWireframe, false) && r.value.isAnimated == Pick(j.isAnimated, false)
      && r.value.isWorld == Pick(j.isWorld, false) && r.value.isAudicle == Pick(j.isAudicle, false)
      && r.value.isStar == Pick(j.isStar, false)
      && r.value.isOccluder == Pick(j.isOccluder, e.isOccluder) && r.value.isTesseract == Pick(j.isTesseract, e.isTesseract)
    ensures r.Some? && j.isBlock != Some(true) ==>
      r.value.isBlock == e.isBlock && r.value.isWorld == Pick(j.isWorld, e.isWorld) && r.value.isAudicle == Pick(j.isAudicle, e.isAudicle)
    ensures r.Some? ==> r.value.dampingFactor == Pick(j.dampingFactor, e.dampingFactor)
    ensures r.Some? ==> r.value.audicleType == e.audicleType && r.value.count == e.count && r.value.isVolume == e.isVolume
    ensures r.Some? ==> r.value.instances == if j.instances.Some? then InstancesFromJsonStrict(j.instances.value, blank).value else e.instances
  {
    if j.name.None? then None
    else if j.instances.Some? && InstancesFromJsonStrict(j.instances.value, blank).None? then None
    else
      var p := if j.isBlock == Some(true) then StrictBlockPreset(e) else e;
      Some(p.(name := j.name.value,
              isRenderable := Pick(j.isRenderable, p.isRenderable),
              isSolid := Pick(j.isSolid, p.isSolid),
              hasWireframe := Pick(j.hasWireframe, p.hasWireframe),
              isAnimated := Pick(j.isAnimated, p.isAnimated),
              isWorld := Pick(j.isWorld, p.isWorld),
              isAudicle := Pick(j.isAudicle, p.isAudicle),
              isStar := Pick(j.isStar, p.isStar),
              isOccluder := Pick(j.isOccluder, p.isOccluder),
              dampingFactor := Pick(j.dampingFactor, p.dampingFactor),
              isTesseract := Pick(j.isTesseract, p.isTesseract),
              instances := if j.instances.Some? then InstancesFromJsonStrict(j.instances.value, blank).value else p.instances))
  }

  /**
   * from_json(j, e) of the behaviour-bucket generation: as the tesseract
   * generation, but only isRenderable, isSolid, hasWireframe, isAnimated,
   * isWorld, isAudicle and isStar are read after the preset; isOccluder,
   * dampingFactor and isTesseract keys are ignored.
   */
  function EntityFromJsonFlat(j: EntityJson, e: Entity, blank: EntityInstance): (r: Option<Entity>)
    ensures r.Some? <==> j.name.Some? && (j.instances.Some? ==> InstancesFromJsonStrict(j.instances.value, blank).Some?)
    ensures r.Some? ==> r.value.name == j.name.value
    ensures r.Some? && j.isBlock == Some(true) ==>
      && r.value.isBlock
      && r.value.isRenderable == Pick(j.isRenderable, true) && r.value.isSolid == Pick(j.isSolid, true)
      && r.value.hasWireframe == Pick(j.hasWireframe, false) && r.value.isAnimated == Pick(j.isAnimated, false)
      && r.value.isWorld == Pick(j.isWorld, false) && r.value.isAudicle == Pick(j.isAudicle, false)
      && r.value.isStar == Pick(j.isStar, false)
    ensures r.Some? ==> r.value.isOccluder == e.isOccluder && r.value.dampingFactor == e.dampingFactor
                        && r.value.isTesseract == e.isTesseract
    ensures r.Some? ==> r.value.instances == if j.instances.Some? then InstancesFromJsonStrict(j.instances.value, blank).value else e.instances
  {
    if j.name.None? then None
    else if j.instances.Some? && InstancesFromJsonStrict(j.instances.value, blank).None? then None
    else
      var p := if j.isBlock == Some(true) then StrictBlockPreset(e) else e;
      Some(p.(name := j.name.value,
              isRenderable := Pick(j.isRenderable, p.isRenderable),
              isSolid := Pick(j.isSolid, p.isSolid),
              hasWireframe := Pick(j.hasWireframe, p.hasWireframe),
              isAnimated := Pick(j.isAnimated, p.isAnimated),
              isWorld := Pick(j.isWorld, p.isWorld),
              isAudicle := Pick(j.isAudicle, p.isAudicle),
              isStar := Pick(j.isStar, p.isStar),
              instances := if j.instances.Some? then InstancesFromJsonStrict(j.instances.value, blank).value else p.instances))
  }

  /**
   * The two earlier generations agree on every definition that carries
   * none of the keys isOccluder, dampingFactor and isTesseract.
   */
  lemma FlatAgreesWithTesseract(j: EntityJson, e: Entity, blank: EntityInstance)
    requires j.isOccluder.None? && j.dampingFactor.None? && j.isTesseract.None?
    ensures EntityFromJsonFlat(j, e, blank) == EntityFromJsonTesseract(j, e, blank)
  {
  }

  /**
   * Parsed instances of the earlier generations keep a fresh record's
   * magenta colour and get rotation 0 unless one is given.
   */
  lemma StrictInstancesFresh(js: seq<InstanceJson>, blank: EntityInstance)
    requires FreshInstance(blank)
    requires InstancesFromJsonStrict(js, blank).Some?
    ensures forall k :: 0 <= k < |js| ==> InstancesFromJsonStrict(js, blank).value[k].color == Magenta
    ensures forall k :: 0 <= k < |js| && js[k].rotation.None? ==> InstancesFromJsonStrict(js, blank).value[k].rotation == 0.0
  {
  }

  /** A single instance object missing prototypeID or position makes the whole prototype definition fail. */
  lemma StrictInstanceFailureAborts(j: EntityJson, e: Entity, blank: EntityInstance, k: int)
    requires j.instances.Some? && 0 <= k < |j.instances.value|
    requires j.instances.value[k].prototypeID.None? || j.instances.value[k].position.None?
    ensures EntityFromJsonTesseract(j, e, blank).None? && EntityFromJsonFlat(j, e, blank).None?
  {
  }
}
