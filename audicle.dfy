/**
 * The audicle passes as the rewrites run them: a walk over the snapshot of
 * the world's instances that appends spawns and notes spawner IDs, then an
 * erase of the noted IDs. Each method is proved against the pass functions
 * of AudicleSpec, whose properties are proved there.
 */
module Audicle {
  import opened Common
  import opened Engine
  import opened AudicleSpec

  /** The erase/remove_if of every pass: keeps, in order, the instances whose ID is not noted. */
  method EraseIds(s: seq<EntityInstance>, ids: seq<int>) returns (kept: seq<EntityInstance>)
    ensures kept == RemoveIds(s, ids)
  {
    kept := [];
    var k := 0;
    while k < |s|
      invariant 0 <= k <= |s|
      invariant kept == RemoveIds(s[..k], ids)
    {
      assert s[..k + 1][..k] == s[..k];
      if s[k].instanceID !in ids {
        kept := kept + [s[k]];
      }
      k := k + 1;
    }
    assert s[..|s|] == s;
  }

  /** Appends one instance per payload entry, each from the shared factory with the entry's prototype, position and colour. */
  method SpawnPayload(bs: BaseSystem, world: seq<EntityInstance>, payload: seq<EntityInstance>) returns (grown: seq<EntityInstance>)
    requires bs.Valid() && bs.hasInstance
    modifies bs`nextInstanceID, bs`issued
    ensures bs.Valid()
    ensures grown == world + SpawnAll(old(bs.nextInstanceID), payload, true)
    ensures bs.nextInstanceID == old(bs.nextInstanceID) + |payload|
  {
    grown := world;
    var j := 0;
    while j < |payload|
      invariant 0 <= j <= |payload|
      invariant bs.Valid()
      invariant grown == world + SpawnAll(old(bs.nextInstanceID), payload[..j], true)
      invariant bs.nextInstanceID == old(bs.nextInstanceID) + j
    {
      var e := payload[j];
      var inst := bs.CreateInstance(e.prototypeID, e.position, e.color);
      assert payload[..j + 1] == payload[..j] + [e];
      SpawnAllAppend(old(bs.nextInstanceID), payload[..j], [e], true);
      grown := grown + [inst];
      j := j + 1;
    }
    assert payload[..|payload|] == payload;
  }

  /** The proximity loop: is some instance of another prototype within 0.1 of `pos`? */
  method IsBlocked(world: seq<EntityInstance>, audicleID: int, pos: Vec3) returns (blocked: bool)
    ensures blocked == Blocked(world, audicleID, pos)
  {
    blocked := false;
    var k := 0;
    while k < |world|
      invariant 0 <= k <= |world|
      invariant forall j :: 0 <= j < k ==> !(world[j].prototypeID != audicleID && Near(world[j].position, pos))
    {
      if world[k].prototypeID != audicleID && Near(world[k].position, pos) {
        blocked := true;
        return;
      }
      k := k + 1;
    }
  }

  /**
   * The de-duplicating payload loop on a flat BaseSystem: colour kept
   * (12/, 13/) or left at the default (10/).
   */
  method DedupPayload(bs: BaseSystem, world: seq<EntityInstance>, audicleID: int, payload: seq<EntityInstance>, keepColor: bool)
    returns (grown: seq<EntityInstance>)
    requires bs.Valid()
    modifies bs`nextInstanceID, bs`issued
    ensures bs.Valid()
    ensures (grown, bs.nextInstanceID) == Dedup(world, old(bs.nextInstanceID), audicleID, payload, keepColor)
  {
    grown := world;
    var j := 0;
    while j < |payload|
      invariant 0 <= j <= |payload|
      invariant bs.Valid()
      invariant Dedup(grown, bs.nextInstanceID, audicleID, payload[j..], keepColor)
        == Dedup(world, old(bs.nextInstanceID), audicleID, payload, keepColor)
    {
      var e := payload[j];
      assert payload[j..][0] == e && payload[j..][1..] == payload[j + 1..];
      var blocked := IsBlocked(grown, audicleID, e.position);
      if !blocked {
        var inst;
        if keepColor {
          inst := bs.CreateFlatInstance(e.prototypeID, e.position, e.color);
        } else {
          inst := bs.CreateUncoloredInstance(e.prototypeID, e.position);
        }
        grown := grown + [inst];
      }
      j := j + 1;
    }
    assert payload[|payload|..] == [];
  }

  /** The walk over the snapshot `s` of prototype `w`'s instances, on the shared BaseSystem. */
  method WalkWorld(bs: BaseSystem, rule: Rule, w: nat, s: seq<EntityInstance>) returns (world: seq<EntityInstance>, finished: seq<int>)
    requires bs.Valid() && Clears(rule) && (!rule.NearbyBlocks? ==> bs.hasInstance)
    requires WorldReady(bs.prototypes, w) && s == bs.prototypes[w].instances
    modifies bs`prototypes, bs`nextInstanceID, bs`issued
    ensures bs.Valid()
    ensures Scan(rule, Pass(old(bs.prototypes), s, old(bs.nextInstanceID), []), s) == Pass(bs.prototypes, world, bs.nextInstanceID, finished)
  {
    world := s;
    finished := [];
    var i := 0;
    while i < |s|
      invariant 0 <= i <= |s|
      invariant bs.Valid()
      invariant |bs.prototypes| == |old(bs.prototypes)| && bs.prototypes[w] == old(bs.prototypes)[w]
      invariant IndexesInto(s[i..], bs.prototypes)
      invariant Scan(rule, Pass(bs.prototypes, world, bs.nextInstanceID, finished), s[i..])
        == Scan(rule, Pass(old(bs.prototypes), s, old(bs.nextInstanceID), []), s)
    {
      var inst := s[i];
      var q := inst.prototypeID;
      var proto := bs.prototypes[q];
      ghost var before := Pass(bs.prototypes, world, bs.nextInstanceID, finished);
      if IsSpawner(rule, proto) && !(rule.NonEmptyPayload? && proto.instances == []) {
        if rule.NearbyBlocks? {
          world := DedupPayload(bs, world, proto.prototypeID, proto.instances, rule.keepColor);
        } else {
          world := SpawnPayload(bs, world, proto.instances);
        }
        bs.prototypes := bs.prototypes[q := proto.(instances := [])];
        finished := finished + [inst.instanceID];
      }
      assert Pass(bs.prototypes, world, bs.nextInstanceID, finished) == Step(rule, before, inst);
      assert s[i..][0] == inst && s[i..][1..] == s[i + 1..];
      i := i + 1;
    }
  }

  /** Walk, erase the noted IDs when there are any, and store the result as the world's instances. */
  method RunPass(bs: BaseSystem, rule: Rule, w: nat)
    requires bs.Valid() && Clears(rule) && (!rule.NearbyBlocks? ==> bs.hasInstance)
    requires WorldReady(bs.prototypes, w)
    modifies bs`prototypes, bs`nextInstanceID, bs`issued
    ensures bs.Valid()
    ensures (bs.prototypes, bs.nextInstanceID) == PassOutcome(rule, old(bs.prototypes), w, old(bs.nextInstanceID))
  {
    var s := bs.prototypes[w].instances;
    var world, finished := WalkWorld(bs, rule, w, s);
    if |finished| > 0 {
      world := EraseIds(world, finished);
    } else {
      RemoveIdsNone(world, finished);
    }
    bs.prototypes := bs.prototypes[w := bs.prototypes[w].(instances := world)];
  }

  /**
   * ProcessAudicles of 14/: without a world or instance context, or without
   * an isWorld prototype, nothing changes; otherwise the unconditional pass
   * runs on the first isWorld prototype.
   */
  method ProcessAudiclesUnconditional(bs: BaseSystem)
    requires bs.Valid()
    requires FirstWorld(bs.prototypes).Some? ==> WorldReady(bs.prototypes, FirstWorld(bs.prototypes).value)
    modifies bs`prototypes, bs`nextInstanceID, bs`issued
    ensures bs.Valid()
    ensures !bs.hasWorld || !bs.hasInstance || FirstWorld(old(bs.prototypes)).None? ==>
      bs.prototypes == old(bs.prototypes) && bs.nextInstanceID == old(bs.nextInstanceID)
    ensures bs.hasWorld && bs.hasInstance && FirstWorld(old(bs.prototypes)).Some? ==>
      (bs.prototypes, bs.nextInstanceID)
      == PassOutcome(Unconditional, old(bs.prototypes), FirstWorld(old(bs.prototypes)).value, old(bs.nextInstanceID))
  {
    if !bs.hasWorld || !bs.hasInstance {
      return;
    }
    var found := FindWorldIndex(bs.prototypes);
    if found.None? {
      return;
    }
    RunPass(bs, Unconditional, found.value);
  }

  /**
   * ProcessAudicles of 17/: the same guards as 14/, then the pass that only
   * expands audicles whose payload is non-empty.
   */
  method ProcessAudiclesNonEmpty(bs: BaseSystem)
    requires bs.Valid()
    requires FirstWorld(bs.prototypes).Some? ==> WorldReady(bs.prototypes, FirstWorld(bs.prototypes).value)
    modifies bs`prototypes, bs`nextInstanceID, bs`issued
    ensures bs.Valid()
    ensures !bs.hasWorld || !bs.hasInstance || FirstWorld(old(bs.prototypes)).None? ==>
      bs.prototypes == old(bs.prototypes) && bs.nextInstanceID == old(bs.nextInstanceID)
    ensures bs.hasWorld && bs.hasInstance && FirstWorld(old(bs.prototypes)).Some? ==>
      (bs.prototypes, bs.nextInstanceID)
      == PassOutcome(NonEmptyPayload, old(bs.prototypes), FirstWorld(old(bs.prototypes)).value, old(bs.nextInstanceID))
  {
    if !bs.hasWorld || !bs.hasInstance {
      return;
    }
    var found := FindWorldIndex(bs.prototypes);
    if found.None? {
      return;
    }
    RunPass(bs, NonEmptyPayload, found.value);
  }

  /**
   * ProcessAudicles of 10/: no context checks on the flat BaseSystem; the
   * de-duplicating pass on the first isWorld prototype, spawns made by the
   * colourless CreateInstance.
   */
  method ProcessAudiclesUncolored(bs: BaseSystem)
    requires bs.Valid()
    requires FirstWorld(bs.prototypes).Some? ==> WorldReady(bs.prototypes, FirstWorld(bs.prototypes).value)
    modifies bs`prototypes, bs`nextInstanceID, bs`issued
    ensures bs.Valid()
    ensures FirstWorld(old(bs.prototypes)).None? ==>
      bs.prototypes == old(bs.prototypes) && bs.nextInstanceID == old(bs.nextInstanceID)
    ensures FirstWorld(old(bs.prototypes)).Some? ==>
      (bs.prototypes, bs.nextInstanceID)
      == PassOutcome(NearbyBlocks(false), old(bs.prototypes), FirstWorld(old(bs.prototypes)).value, old(bs.nextInstanceID))
  {
    var found := FindWorldIndex(bs.prototypes);
    if found.None? {
      return;
    }
    RunPass(bs, NearbyBlocks(false), found.value);
  }

  /**
   * ProcessAudicles of 12/ and 13/: as 10/, but each spawn carries its
   * payload entry's colour.
   */
  method ProcessAudiclesColored(bs: BaseSystem)
    requires bs.Valid()
    requires FirstWorld(bs.prototypes).Some? ==> WorldReady(bs.prototypes, FirstWorld(bs.prototypes).value)
    modifies bs`prototypes, bs`nextInstanceID, bs`issued
    ensures bs.Valid()
    ensures FirstWorld(old(bs.prototypes)).None? ==>
      bs.prototypes == old(bs.prototypes) && bs.nextInstanceID == old(bs.nextInstanceID)
    ensures FirstWorld(old(bs.prototypes)).Some? ==>
      (bs.prototypes, bs.nextInstanceID)
      == PassOutcome(NearbyBlocks(true), old(bs.prototypes), FirstWorld(old(bs.prototypes)).value, old(bs.nextInstanceID))
  {
    var found := FindWorldIndex(bs.prototypes);
    if found.None? {
      return;
    }
    RunPass(bs, NearbyBlocks(true), found.value);
  }

  /** The typed walk of 22/ over a level world: "true" spawners expand, payloads stay. */
  method WalkTyped(bs: BaseSystem, s: seq<EntityInstance>) returns (world: seq<EntityInstance>, finished: seq<int>)
    requires bs.Valid() && bs.hasInstance && IndexesInto(s, bs.prototypes)
    modifies bs`nextInstanceID, bs`issued
    ensures bs.Valid()
    ensures Scan(TypedTrue, Pass(bs.prototypes, s, old(bs.nextInstanceID), []), s) == Pass(bs.prototypes, world, bs.nextInstanceID, finished)
  {
    world := s;
    finished := [];
    var i := 0;
    while i < |s|
      invariant 0 <= i <= |s|
      invariant bs.Valid()
      invariant Scan(TypedTrue, Pass(bs.prototypes, world, bs.nextInstanceID, finished), s[i..])
        == Scan(TypedTrue, Pass(bs.prototypes, s, old(bs.nextInstanceID), []), s)
    {
      var inst := s[i];
      var proto := bs.prototypes[inst.prototypeID];
      ghost var before := Pass(bs.prototypes, world, bs.nextInstanceID, finished);
      if proto.audicleType == "true" {
        if proto.instances != [] {
          world := SpawnPayload(bs, world, proto.instances);
        } else {
          assert SpawnAll(bs.nextInstanceID, [], true) == [] && world + [] == world;
        }
        finished := finished + [inst.instanceID];
      }
      assert Pass(bs.prototypes, world, bs.nextInstanceID, finished) == Step(TypedTrue, before, inst);
      assert s[i..][0] == inst && s[i..][1..] == s[i + 1..];
      i := i + 1;
    }
  }

  /** The second walk of 22/: notes every "gated" instance of the grown list. */
  method NoteGated(protos: seq<Entity>, world: seq<EntityInstance>, finished: seq<int>) returns (noted: seq<int>)
    requires IndexesInto(world, protos)
    ensures noted == finished + GatedIds(protos, world)
  {
    noted := finished;
    var j := 0;
    while j < |world|
      invariant 0 <= j <= |world|
      invariant noted == finished + GatedIds(protos, world[..j])
    {
      assert world[..j + 1][..j] == world[..j];
      if protos[world[j].prototypeID].audicleType == "gated" {
        noted := noted + [world[j].instanceID];
      }
      j := j + 1;
    }
    assert world[..|world|] == world;
  }

  /**
   * ProcessAudicles of 22/: without a level, with no worlds or without an
   * instance context nothing changes; otherwise the typed pass runs on the
   * level's active world, and only that world and the counter change.
   */
  method ProcessAudiclesTyped(bs: BaseSystem)
    requires bs.Valid()
    requires bs.hasLevel && |bs.worlds| > 0 && bs.hasInstance ==>
      0 <= bs.activeWorldIndex < |bs.worlds| && IndexesInto(bs.worlds[bs.activeWorldIndex].instances, bs.prototypes)
      && TruePayloadsIndex(bs.prototypes)
    modifies bs`worlds, bs`nextInstanceID, bs`issued
    ensures bs.Valid()
    ensures !(bs.hasLevel && |old(bs.worlds)| > 0 && bs.hasInstance) ==>
      bs.worlds == old(bs.worlds) && bs.nextInstanceID == old(bs.nextInstanceID)
    ensures bs.hasLevel && |old(bs.worlds)| > 0 && bs.hasInstance ==>
      var a := bs.activeWorldIndex;
      var r := TypedOutcome(bs.prototypes, old(bs.worlds)[a].instances, old(bs.nextInstanceID));
      bs.worlds == old(bs.worlds)[a := old(bs.worlds)[a].(instances := r.0)] && bs.nextInstanceID == r.1
  {
    if !bs.hasLevel || |bs.worlds| == 0 || !bs.hasInstance {
      return;
    }
    var a := bs.activeWorldIndex;
    var s := bs.worlds[a].instances;
    var world, finished := WalkTyped(bs, s);
    TypedWorldIndexes(bs.prototypes, s, old(bs.nextInstanceID));
    finished := NoteGated(bs.prototypes, world, finished);
    if |finished| > 0 {
      world := EraseIds(world, finished);
    } else {
      RemoveIdsNone(world, finished);
    }
    bs.worlds := bs.worlds[a := bs.worlds[a].(instances := world)];
  }

  /**
   * The AudicleSystem object of 7/ and 8/. Spawn IDs come from its own
   * private factory, which starts at 0 whatever IDs the world already holds,
   * so they are unique only among this system's spawns.
   */
  class AudicleSystem {
    var instanceFactory: InstanceSystem

    constructor ()
      ensures fresh(instanceFactory) && instanceFactory.Valid() && instanceFactory.nextInstanceID == 0
    {
      instanceFactory := new InstanceSystem();
    }

    /** The de-duplicating payload loop with the private factory: colour is not carried. */
    method DedupWithFactory(world: seq<EntityInstance>, audicleID: int, payload: seq<EntityInstance>)
      returns (grown: seq<EntityInstance>)
      requires instanceFactory.Valid()
      modifies instanceFactory
      ensures instanceFactory.Valid()
      ensures (grown, instanceFactory.nextInstanceID)
        == Dedup(world, old(instanceFactory.nextInstanceID), audicleID, payload, false)
    {
      grown := world;
      var j := 0;
      while j < |payload|
        invariant 0 <= j <= |payload|
        invariant instanceFactory.Valid()
        invariant Dedup(grown, instanceFactory.nextInstanceID, audicleID, payload[j..], false)
          == Dedup(world, old(instanceFactory.nextInstanceID), audicleID, payload, false)
      {
        var e := payload[j];
        assert payload[j..][0] == e && payload[j..][1..] == payload[j + 1..];
        var blocked := IsBlocked(grown, audicleID, e.position);
        if !blocked {
          var inst := instanceFactory.CreateInstance(e.prototypeID, e.position);
          grown := grown + [inst];
        }
        j := j + 1;
      }
      assert payload[|payload|..] == [];
    }

    /**
     * update: with no isWorld prototype nothing changes; otherwise the
     * de-duplicating pass runs on the first isWorld prototype, payload
     * entries' colours dropped, IDs from the private factory.
     */
    method Update(bs: BaseSystem)
      requires instanceFactory.Valid()
      requires FirstWorld(bs.prototypes).Some? ==> WorldReady(bs.prototypes, FirstWorld(bs.prototypes).value)
      modifies bs`prototypes, instanceFactory
      ensures instanceFactory.Valid()
      ensures FirstWorld(old(bs.prototypes)).None? ==>
        bs.prototypes == old(bs.prototypes) && instanceFactory.nextInstanceID == old(instanceFactory.nextInstanceID)
      ensures FirstWorld(old(bs.prototypes)).Some? ==>
        (bs.prototypes, instanceFactory.nextInstanceID)
        == PassOutcome(NearbyBlocks(false), old(bs.prototypes), FirstWorld(old(bs.prototypes)).value,
                       old(instanceFactory.nextInstanceID))
    {
      var found := FindWorldIndex(bs.prototypes);
      if found.None? {
        return;
      }
      var w := found.value;
      var s := bs.prototypes[w].instances;
      var world := s;
      var finished: seq<int> := [];
      var i := 0;
      while i < |s|
        invariant 0 <= i <= |s|
        invariant instanceFactory.Valid()
        invariant |bs.prototypes| == |old(bs.prototypes)| && bs.prototypes[w] == old(bs.prototypes)[w]
        invariant IndexesInto(s[i..], bs.prototypes)
        invariant Scan(NearbyBlocks(false), Pass(bs.prototypes, world, instanceFactory.nextInstanceID, finished), s[i..])
          == Scan(NearbyBlocks(false), Pass(old(bs.prototypes), s, old(instanceFactory.nextInstanceID), []), s)
      {
        var inst := s[i];
        var q := inst.prototypeID;
        var proto := bs.prototypes[q];
        ghost var before := Pass(bs.prototypes, world, instanceFactory.nextInstanceID, finished);
        if proto.isAudicle {
          world := DedupWithFactory(world, proto.prototypeID, proto.instances);
          bs.prototypes := bs.prototypes[q := proto.(instances := [])];
          finished := finished + [inst.instanceID];
        }
        assert Pass(bs.prototypes, world, instanceFactory.nextInstanceID, finished) == Step(NearbyBlocks(false), before, inst);
        assert s[i..][0] == inst && s[i..][1..] == s[i + 1..];
        i := i + 1;
      }
      if |finished| > 0 {
        world := EraseIds(world, finished);
      } else {
        RemoveIdsNone(world, finished);
      }
      bs.prototypes := bs.prototypes[w := bs.prototypes[w].(instances := world)];
    }
  }
}
