/**
 * The audicle pass as a function of its inputs.
 *
 * Every rewrite runs the same three phases over one world's instance list:
 * walk the instances, and for each "spawner" append instances stamped from
 * its prototype's payload and note the spawner's ID; then erase every noted
 * ID with an order-preserving remove_if. The rewrites differ in which
 * instance is a spawner, whether payloads are cleared and whether a payload
 * entry is skipped when something already sits at its position.
 *
 * The original walks the list with a range-for while appending to it, which
 * is undefined once the vector reallocates. The model assumes the intended
 * reading: the walk visits the list as it was when the pass began (the
 * snapshot `s` below), and spawns land after it.
 */
module AudicleSpec {
  import opened Common

  /** Which instances spawn, and how. */
  datatype Rule =
    | Unconditional                   // every isAudicle instance (14/)
    | NonEmptyPayload                 // isAudicle and a non-empty payload (17/)
    | NearbyBlocks(keepColor: bool)   // isAudicle, skipping occupied positions (7/, 8/, 10/, 12/, 13/)
    | TypedTrue                       // audicleType "true", payloads kept (22/)

  /** The prototype flag that makes an instance a candidate spawner under `rule`. */
  predicate IsSpawner(rule: Rule, proto: Entity)
  {
    if rule.TypedTrue? then proto.audicleType == "true" else proto.isAudicle
  }

  /** Every rule but the typed one clears a payload once it has been read. */
  predicate Clears(rule: Rule)
  {
    !rule.TypedTrue?
  }

  /** The instance a payload entry turns into: the entry's prototype and position, rotation 0. */
  function Spawn(e: EntityInstance, id: int, keepColor: bool): EntityInstance
  {
    Stamp(id, e.prototypeID, e.position, if keepColor then e.color else Magenta)
  }

  /** The instances stamped from `payload` by successive factory calls starting at `next`. */
  function SpawnAll(next: int, payload: seq<EntityInstance>, keepColor: bool): (r: seq<EntityInstance>)
    ensures |r| == |payload|
    ensures forall k :: 0 <= k < |r| ==> r[k] == Spawn(payload[k], next + k, keepColor)
  {
    seq(|payload|, k requires 0 <= k < |payload| => Spawn(payload[k], next + k, keepColor))
  }

  lemma SpawnAllAppend(next: int, a: seq<EntityInstance>, b: seq<EntityInstance>, keepColor: bool)
    ensures SpawnAll(next, a + b, keepColor) == SpawnAll(next, a, keepColor) + SpawnAll(next + |a|, b, keepColor)
  {
  }

  /**
   * The proximity test of the de-duplicating rewrites: some instance of a
   * prototype other than the audicle's lies within distance 0.1 of `pos`.
   */
  predicate Blocked(world: seq<EntityInstance>, audicleID: int, pos: Vec3)
  {
    exists k :: 0 <= k < |world| && world[k].prototypeID != audicleID && Near(world[k].position, pos)
  }

  /**
   * The payload walk of the de-duplicating rewrites: each entry is spawned
   * unless it is blocked by the list as it stands, spawns of earlier
   * entries included.
   */
  function Dedup(world: seq<EntityInstance>, next: int, audicleID: int, payload: seq<EntityInstance>, keepColor: bool)
    : (r: (seq<EntityInstance>, int))
    decreases |payload|
  {
    if payload == [] then (world, next)
    else if Blocked(world, audicleID, payload[0].position) then Dedup(world, next, audicleID, payload[1..], keepColor)
    else Dedup(world + [Spawn(payload[0], next, keepColor)], next + 1, audicleID, payload[1..], keepColor)
  }

  /** The state of a pass: prototype table, working list, factory counter and noted IDs. */
  datatype Pass = Pass(protos: seq<Entity>, world: seq<EntityInstance>, next: int, finished: seq<int>)

  function ClearPayload(protos: seq<Entity>, q: int): (r: seq<Entity>)
    requires 0 <= q < |protos|
    ensures |r| == |protos|
  {
    protos[q := protos[q].(instances := [])]
  }

  /** One visited instance: decide whether it spawns, and if so spawn, clear and note it. */
  function Step(rule: Rule, p: Pass, inst: EntityInstance): (r: Pass)
    requires 0 <= inst.prototypeID < |p.protos|
    ensures |r.protos| == |p.protos|
  {
    var proto := p.protos[inst.prototypeID];
    var payload := proto.instances;
    var protos' := if Clears(rule) then ClearPayload(p.protos, inst.prototypeID) else p.protos;
    if !IsSpawner(rule, proto) || (rule.NonEmptyPayload? && payload == []) then p
    else if rule.NearbyBlocks? then
      var g := Dedup(p.world, p.next, proto.prototypeID, payload, rule.keepColor);
      Pass(protos', g.0, g.1, p.finished + [inst.instanceID])
    else
      Pass(protos', p.world + SpawnAll(p.next, payload, true), p.next + |payload|, p.finished + [inst.instanceID])
  }

  /** The walk over the snapshot `s`. */
  function Scan(rule: Rule, p: Pass, s: seq<EntityInstance>): (r: Pass)
    requires IndexesInto(s, p.protos)
    ensures |r.protos| == |p.protos|
    decreases |s|
  {
    if s == [] then p else Scan(rule, Step(rule, p, s[0]), s[1..])
  }

  /** remove_if over instance IDs: drops every instance whose ID is noted, keeping the order of the rest. */
  function RemoveIds(s: seq<EntityInstance>, ids: seq<int>): (r: seq<EntityInstance>)
    ensures |r| <= |s|
    decreases |s|
  {
    if s == [] then []
    else RemoveIds(s[..|s| - 1], ids) + (if s[|s| - 1].instanceID in ids then [] else [s[|s| - 1]])
  }

  /** The world prototype's entry can be the pass's target: it exists, its instances index the table, and it is not itself an audicle. */
  predicate WorldReady(protos: seq<Entity>, w: int)
  {
    0 <= w < |protos| && IndexesInto(protos[w].instances, protos) && !protos[w].isAudicle
  }

  /**
   * A whole pass over the instances of prototype `w`: the new prototype
   * table (payloads cleared, world list replaced) and the new counter.
   */
  function PassOutcome(rule: Rule, protos: seq<Entity>, w: int, next: int): (seq<Entity>, int)
    requires WorldReady(protos, w)
  {
    var s := protos[w].instances;
    var p := Scan(rule, Pass(protos, s, next, []), s);
    (p.protos[w := p.protos[w].(instances := RemoveIds(p.world, p.finished))], p.next)
  }

  /** The IDs of the instances of `s` whose prototype is "gated". */
  function GatedIds(protos: seq<Entity>, s: seq<EntityInstance>): (r: seq<int>)
    decreases |s|
  {
    if s == [] then []
    else GatedIds(protos, s[..|s| - 1]) + (if IsGated(protos, s[|s| - 1]) then [s[|s| - 1].instanceID] else [])
  }

  predicate IsGated(protos: seq<Entity>, inst: EntityInstance)
  {
    0 <= inst.prototypeID < |protos| && protos[inst.prototypeID].audicleType == "gated"
  }

  /**
   * The typed pass of 22/ over a level world `s`: "true" spawners expand
   * their payloads, then a second walk over the grown list notes every
   * "gated" instance, and all noted IDs are erased. Returns the new list
   * and the new counter; the prototype table is only read.
   */
  function TypedOutcome(protos: seq<Entity>, s: seq<EntityInstance>, next: int): (seq<EntityInstance>, int)
    requires IndexesInto(s, protos)
  {
    var p := Scan(TypedTrue, Pass(protos, s, next, []), s);
    (RemoveIds(p.world, p.finished + GatedIds(protos, p.world)), p.next)
  }

  // ---------------------------------------------------------------------
  // remove_if

  /** Erasing by ID distributes over concatenation, so the survivors keep their order. */
  lemma {:induction false} RemoveIdsAppend(a: seq<EntityInstance>, b: seq<EntityInstance>, ids: seq<int>)
    ensures RemoveIds(a + b, ids) == RemoveIds(a, ids) + RemoveIds(b, ids)
    decreases |b|
  {
    if b == [] {
      assert a + b == a;
    } else {
      var b' := b[..|b| - 1];
      assert (a + b)[..|a + b| - 1] == a + b';
      RemoveIdsAppend(a, b', ids);
    }
  }

  /** An instance survives exactly when it was there and its ID was not noted. */
  lemma {:induction false} RemoveIdsMembership(s: seq<EntityInstance>, ids: seq<int>, x: EntityInstance)
    ensures x in RemoveIds(s, ids) <==> x in s && x.instanceID !in ids
    decreases |s|
  {
    if s != [] {
      var s' := s[..|s| - 1];
      RemoveIdsMembership(s', ids, x);
      assert s == s' + [s[|s| - 1]];
    }
  }

  /** With no noted ID present, nothing is erased. */
  lemma {:induction false} RemoveIdsNone(s: seq<EntityInstance>, ids: seq<int>)
    requires forall k :: 0 <= k < |s| ==> s[k].instanceID !in ids
    ensures RemoveIds(s, ids) == s
    decreases |s|
  {
    if s != [] {
      var s' := s[..|s| - 1];
      RemoveIdsNone(s', ids);
      assert s == s' + [s[|s| - 1]];
    }
  }

  // ---------------------------------------------------------------------
  // The pass, described from the snapshot alone

  /** The prototype IDs named by the instances of `s`. */
  function Pids(s: seq<EntityInstance>): (r: set<int>)
    ensures forall q :: q in r <==> exists k :: 0 <= k < |s| && s[k].prototypeID == q
    decreases |s|
  {
    if s == [] then {}
    else
      var r := Pids(s[..|s| - 1]) + {s[|s| - 1].prototypeID};
      assert forall k :: 0 <= k < |s| - 1 ==> s[..|s| - 1][k] == s[k];
      r
  }

  /** The table after the payloads of every spawner prototype in `seen` have been cleared. */
  function Cleared(rule: Rule, protos: seq<Entity>, seen: set<int>): (r: seq<Entity>)
    ensures |r| == |protos|
  {
    seq(|protos|, q requires 0 <= q < |protos| =>
      if Clears(rule) && IsSpawner(rule, protos[q]) && q in seen then protos[q].(instances := []) else protos[q])
  }

  /**
   * Whether the walk notes `s[k]`: its prototype is a spawner and, under the
   * non-empty rule, no earlier instance of that prototype has emptied the
   * payload and the payload was not empty to begin with.
   */
  predicate Fires(rule: Rule, protos: seq<Entity>, s: seq<EntityInstance>, k: int)
    requires 0 <= k < |s| && IndexesInto(s, protos)
  {
    IsSpawner(rule, protos[s[k].prototypeID])
    && (rule.NonEmptyPayload? ==> s[k].prototypeID !in Pids(s[..k]) && protos[s[k].prototypeID].instances != [])
  }

  /** The IDs the walk notes, in walk order. */
  function FiredIds(rule: Rule, protos: seq<Entity>, s: seq<EntityInstance>): (r: seq<int>)
    requires IndexesInto(s, protos)
    decreases |s|
  {
    if s == [] then []
    else FiredIds(rule, protos, s[..|s| - 1]) + (if Fires(rule, protos, s, |s| - 1) then [s[|s| - 1].instanceID] else [])
  }

  /**
   * The payload entries the walk expands, in order: a spawner's payload as
   * the table first held it, or nothing when an earlier instance of the same
   * prototype has already cleared it.
   */
  function Payloads(rule: Rule, protos: seq<Entity>, s: seq<EntityInstance>): (r: seq<EntityInstance>)
    requires IndexesInto(s, protos)
    decreases |s|
  {
    if s == [] then []
    else
      var q := s[|s| - 1].prototypeID;
      Payloads(rule, protos, s[..|s| - 1])
        + (if IsSpawner(rule, protos[q]) && (Clears(rule) ==> q !in Pids(s[..|s| - 1])) then protos[q].instances else [])
  }

  /** The payloads of `a + [x]`: those of `a`, then what `x` expands. */
  lemma PayloadsSnoc(rule: Rule, protos: seq<Entity>, a: seq<EntityInstance>, x: EntityInstance, b: seq<EntityInstance>)
    requires b == a + [x] && IndexesInto(b, protos) && 0 <= x.prototypeID < |protos|
    ensures IndexesInto(a, protos)
    ensures var q := x.prototypeID;
      Payloads(rule, protos, b) == Payloads(rule, protos, a)
        + (if IsSpawner(rule, protos[q]) && (Clears(rule) ==> q !in Pids(a)) then protos[q].instances else [])
  {
    assert b[..|b| - 1] == a;
  }

  /** `world` is `s` followed by instances numbered `next0`, `next0 + 1`, … up to `next`. */
  predicate Grown(s: seq<EntityInstance>, next0: int, world: seq<EntityInstance>, next: int)
  {
    |s| <= |world| && world[..|s|] == s && next - next0 == |world| - |s|
    && forall k :: |s| <= k < |world| ==> world[k].instanceID == next0 + (k - |s|)
  }

  /** The walk over `a + [x]` is the walk over `a` followed by one step. */
  lemma {:induction false} ScanSnoc(rule: Rule, p: Pass, a: seq<EntityInstance>, x: EntityInstance)
    requires IndexesInto(a, p.protos) && 0 <= x.prototypeID < |p.protos|
    ensures IndexesInto(a + [x], p.protos)
    ensures Scan(rule, p, a + [x]) == Step(rule, Scan(rule, p, a), x)
    decreases |a|
  {
    assert forall k :: 0 <= k < |a| ==> a[k] == (a + [x])[k];
    if a == [] {
      assert [x][1..] == [];
    } else {
      assert (a + [x])[1..] == a[1..] + [x];
      ScanSnoc(rule, Step(rule, p, a[0]), a[1..], x);
    }
  }

  /** The de-duplicating walk only appends, numbering its spawns consecutively. */
  lemma {:induction false} DedupGrows(world: seq<EntityInstance>, next: int, audicleID: int, payload: seq<EntityInstance>, keepColor: bool)
    ensures Grown(world, next, Dedup(world, next, audicleID, payload, keepColor).0, Dedup(world, next, audicleID, payload, keepColor).1)
    decreases |payload|
  {
    if payload != [] {
      if Blocked(world, audicleID, payload[0].position) {
        DedupGrows(world, next, audicleID, payload[1..], keepColor);
      } else {
        var w' := world + [Spawn(payload[0], next, keepColor)];
        DedupGrows(w', next + 1, audicleID, payload[1..], keepColor);
        var g := Dedup(w', next + 1, audicleID, payload[1..], keepColor);
        assert g.0[..|w'|][..|world|] == world;
      }
    }
  }

  /** One step, told in terms of the original table and the prototypes already visited. */
  lemma StepAgrees(rule: Rule, protos: seq<Entity>, seen: set<int>, st: Pass, x: EntityInstance)
    requires 0 <= x.prototypeID < |protos|
    requires st.protos == Cleared(rule, protos, seen)
    ensures Step(rule, st, x).protos == Cleared(rule, protos, seen + {x.prototypeID})
    ensures Step(rule, st, x).finished == st.finished
      + (if IsSpawner(rule, protos[x.prototypeID])
         && (rule.NonEmptyPayload? ==> x.prototypeID !in seen && protos[x.prototypeID].instances != [])
         then [x.instanceID] else [])
    ensures !rule.NearbyBlocks? ==>
      var q := x.prototypeID;
      var added := if IsSpawner(rule, protos[q]) && (Clears(rule) ==> q !in seen) then protos[q].instances else [];
      Step(rule, st, x).world == st.world + SpawnAll(st.next, added, true)
      && Step(rule, st, x).next == st.next + |added|
    ensures rule.NearbyBlocks? ==> Grown(st.world, st.next, Step(rule, st, x).world, Step(rule, st, x).next)
  {
    var q := x.prototypeID;
    assert IsSpawner(rule, st.protos[q]) == IsSpawner(rule, protos[q]);
    if rule.NearbyBlocks? {
      var proto := st.protos[q];
      DedupGrows(st.world, st.next, proto.prototypeID, proto.instances, rule.keepColor);
    }
    if !IsSpawner(rule, protos[q]) || !Clears(rule) {
      assert SpawnAll(st.next, [], true) == [];
      assert st.world + [] == st.world;
    }
  }

  lemma AppendAssoc(a: seq<EntityInstance>, b: seq<EntityInstance>, c: seq<EntityInstance>)
    ensures (a + b) + c == a + (b + c)
  {
  }

  lemma GrownTrans(s: seq<EntityInstance>, n0: int, w1: seq<EntityInstance>, n1: int, w2: seq<EntityInstance>, n2: int)
    requires Grown(s, n0, w1, n1) && Grown(w1, n1, w2, n2)
    ensures Grown(s, n0, w2, n2)
  {
    assert w2[..|s|] == w2[..|w1|][..|s|];
  }

  /** The walk after its first `i` instances: which payloads are cleared and which IDs are noted. */
  lemma {:induction false} ScanPrefixTable(rule: Rule, protos: seq<Entity>, s: seq<EntityInstance>, next: int, i: nat)
    requires IndexesInto(s, protos) && i <= |s|
    ensures IndexesInto(s[..i], protos)
    ensures Scan(rule, Pass(protos, s, next, []), s[..i]).protos == Cleared(rule, protos, Pids(s[..i]))
    ensures Scan(rule, Pass(protos, s, next, []), s[..i]).finished == FiredIds(rule, protos, s[..i])
    decreases i
  {
    var start := Pass(protos, s, next, []);
    if i == 0 {
      assert s[..0] == [];
      assert Cleared(rule, protos, {}) == protos;
    } else {
      ScanPrefixTable(rule, protos, s, next, i - 1);
      var a := s[..i - 1];
      var x := s[i - 1];
      PrefixSnoc(s, i - 1);
      TableStep(rule, protos, start, a, x);
    }
  }

  /** One more instance walked: its prototype joins the cleared ones, and its ID is noted when it fires. */
  lemma TableStep(rule: Rule, protos: seq<Entity>, start: Pass, a: seq<EntityInstance>, x: EntityInstance)
    requires start.protos == protos && IndexesInto(a, protos) && 0 <= x.prototypeID < |protos|
    requires Scan(rule, start, a).protos == Cleared(rule, protos, Pids(a))
    requires Scan(rule, start, a).finished == FiredIds(rule, protos, a)
    ensures IndexesInto(a + [x], protos)
    ensures Scan(rule, start, a + [x]).protos == Cleared(rule, protos, Pids(a + [x]))
    ensures Scan(rule, start, a + [x]).finished == FiredIds(rule, protos, a + [x])
  {
    var b := a + [x];
    assert b[..|b| - 1] == a;
    ScanSnoc(rule, start, a, x);
    var st := Scan(rule, start, a);
    StepAgrees(rule, protos, Pids(a), st, x);
    assert Pids(b) == Pids(a) + {x.prototypeID};
    assert Fires(rule, protos, b, |a|) <==>
      IsSpawner(rule, protos[x.prototypeID])
      && (rule.NonEmptyPayload? ==> x.prototypeID !in Pids(a) && protos[x.prototypeID].instances != []);
  }

  /** The walk after its first `i` instances: what has been appended, and the counter. */
  lemma {:induction false} ScanPrefixWorld(rule: Rule, protos: seq<Entity>, s: seq<EntityInstance>, next: int, i: nat)
    requires IndexesInto(s, protos) && i <= |s|
    ensures IndexesInto(s[..i], protos)
    ensures !rule.NearbyBlocks? ==>
      Scan(rule, Pass(protos, s, next, []), s[..i]).world == s + SpawnAll(next, Payloads(rule, protos, s[..i]), true)
      && Scan(rule, Pass(protos, s, next, []), s[..i]).next == next + |Payloads(rule, protos, s[..i])|
    ensures rule.NearbyBlocks? ==>
      Grown(s, next, Scan(rule, Pass(protos, s, next, []), s[..i]).world, Scan(rule, Pass(protos, s, next, []), s[..i]).next)
    decreases i
  {
    if i == 0 {
      assert s[..0] == [];
      WorldStart(rule, protos, s, next);
    } else {
      ScanPrefixWorld(rule, protos, s, next, i - 1);
      ScanPrefixTable(rule, protos, s, next, i - 1);
      var a := s[..i - 1];
      var x := s[i - 1];
      PrefixSnoc(s, i - 1);
      WorldStep(rule, protos, s, next, a, x);
    }
  }

  /** Before any instance is walked, the world is the snapshot and the counter is unchanged. */
  lemma WorldStart(rule: Rule, protos: seq<Entity>, s: seq<EntityInstance>, next: int)
    ensures Scan(rule, Pass(protos, s, next, []), []).world == s + SpawnAll(next, Payloads(rule, protos, []), true)
    ensures Scan(rule, Pass(protos, s, next, []), []).next == next + |Payloads(rule, protos, [])|
    ensures Grown(s, next, Scan(rule, Pass(protos, s, next, []), []).world, Scan(rule, Pass(protos, s, next, []), []).next)
  {
    assert SpawnAll(next, [], true) == [];
    assert s + [] == s;
    assert s[..|s|] == s;
  }

  /** One more instance walked: the world grows by what that instance expands. */
  lemma WorldStep(rule: Rule, protos: seq<Entity>, s: seq<EntityInstance>, next: int, a: seq<EntityInstance>, x: EntityInstance)
    requires IndexesInto(a, protos) && 0 <= x.prototypeID < |protos|
    requires Scan(rule, Pass(protos, s, next, []), a).protos == Cleared(rule, protos, Pids(a))
    requires !rule.NearbyBlocks? ==>
      Scan(rule, Pass(protos, s, next, []), a).world == s + SpawnAll(next, Payloads(rule, protos, a), true)
      && Scan(rule, Pass(protos, s, next, []), a).next == next + |Payloads(rule, protos, a)|
    requires rule.NearbyBlocks? ==>
      Grown(s, next, Scan(rule, Pass(protos, s, next, []), a).world, Scan(rule, Pass(protos, s, next, []), a).next)
    ensures IndexesInto(a + [x], protos)
    ensures !rule.NearbyBlocks? ==>
      Scan(rule, Pass(protos, s, next, []), a + [x]).world == s + SpawnAll(next, Payloads(rule, protos, a + [x]), true)
      && Scan(rule, Pass(protos, s, next, []), a + [x]).next == next + |Payloads(rule, protos, a + [x])|
    ensures rule.NearbyBlocks? ==>
      Grown(s, next, Scan(rule, Pass(protos, s, next, []), a + [x]).world, Scan(rule, Pass(protos, s, next, []), a + [x]).next)
  {
    var start := Pass(protos, s, next, []);
    ScanSnoc(rule, start, a, x);
    var st := Scan(rule, start, a);
    StepAgrees(rule, protos, Pids(a), st, x);
    var q := x.prototypeID;
    var added := if IsSpawner(rule, protos[q]) && (Clears(rule) ==> q !in Pids(a)) then protos[q].instances else [];
    PayloadsSnoc(rule, protos, a, x, a + [x]);
    if rule.NearbyBlocks? {
      GrownTrans(s, next, st.world, st.next, Step(rule, st, x).world, Step(rule, st, x).next);
    } else {
      var r := Step(rule, st, x);
      SpawnStep(s, next, Payloads(rule, protos, a), added, st.world, st.next, r.world, r.next);
    }
  }

  /** Spawning `pa` and then `added` leaves the list of spawning `pa + added` in one go. */
  lemma SpawnStep(s: seq<EntityInstance>, next: int, pa: seq<EntityInstance>, added: seq<EntityInstance>,
                  w1: seq<EntityInstance>, n1: int, w2: seq<EntityInstance>, n2: int)
    requires w1 == s + SpawnAll(next, pa, true) && n1 == next + |pa|
    requires w2 == w1 + SpawnAll(n1, added, true) && n2 == n1 + |added|
    ensures w2 == s + SpawnAll(next, pa + added, true) && n2 == next + |pa + added|
  {
    SpawnAllAppend(next, pa, added, true);
    AppendAssoc(s, SpawnAll(next, pa, true), SpawnAll(n1, added, true));
  }

  /** Only the noted IDs that occur in `s` matter to the erase. */
  lemma {:induction false} RemoveIdsIrrelevant(s: seq<EntityInstance>, ids1: seq<int>, ids2: seq<int>)
    requires forall k :: 0 <= k < |s| ==> (s[k].instanceID in ids1 <==> s[k].instanceID in ids2)
    ensures RemoveIds(s, ids1) == RemoveIds(s, ids2)
    decreases |s|
  {
    if s != [] {
      var s' := s[..|s| - 1];
      assert forall k :: 0 <= k < |s'| ==> s'[k] == s[k];
      RemoveIdsIrrelevant(s', ids1, ids2);
    }
  }

  /** The walk notes exactly the IDs of the instances that fire. */
  lemma {:induction false} FiredIdsMembership(rule: Rule, protos: seq<Entity>, s: seq<EntityInstance>, id: int)
    requires IndexesInto(s, protos)
    ensures id in FiredIds(rule, protos, s) <==> exists k :: 0 <= k < |s| && Fires(rule, protos, s, k) && s[k].instanceID == id
    decreases |s|
  {
    if s != [] {
      var n := |s| - 1;
      var s' := s[..n];
      FiredIdsMembership(rule, protos, s', id);
      assert FiredIds(rule, protos, s) == FiredIds(rule, protos, s') + (if Fires(rule, protos, s, n) then [s[n].instanceID] else []);
      if id in FiredIds(rule, protos, s') {
        var k :| 0 <= k < n && Fires(rule, protos, s', k) && s'[k].instanceID == id;
        FiresPrefix(rule, protos, s, n, k);
      } else if Fires(rule, protos, s, n) && s[n].instanceID == id {
      } else {
        forall k | 0 <= k < |s| && Fires(rule, protos, s, k)
          ensures s[k].instanceID != id
        {
          if k < n {
            FiresPrefix(rule, protos, s, n, k);
          }
        }
      }
    }
  }

  /** Whether an instance fires depends only on the instances before it. */
  lemma FiresPrefix(rule: Rule, protos: seq<Entity>, s: seq<EntityInstance>, n: nat, k: nat)
    requires IndexesInto(s, protos) && k < n <= |s|
    ensures IndexesInto(s[..n], protos)
    ensures s[..n][k] == s[k] && Fires(rule, protos, s[..n], k) == Fires(rule, protos, s, k)
  {
    assert s[..n][..k] == s[..k];
  }

  lemma {:induction false} GatedIdsMembership(protos: seq<Entity>, s: seq<EntityInstance>, id: int)
    ensures id in GatedIds(protos, s) <==> exists k :: 0 <= k < |s| && IsGated(protos, s[k]) && s[k].instanceID == id
    decreases |s|
  {
    if s != [] {
      var s' := s[..|s| - 1];
      GatedIdsMembership(protos, s', id);
      assert forall k :: 0 <= k < |s'| ==> s'[k] == s[k];
    }
  }

  lemma {:induction false} GatedIdsAppend(protos: seq<Entity>, a: seq<EntityInstance>, b: seq<EntityInstance>)
    ensures GatedIds(protos, a + b) == GatedIds(protos, a) + GatedIds(protos, b)
    decreases |b|
  {
    if b == [] {
      assert a + b == a;
    } else {
      var b' := b[..|b| - 1];
      assert (a + b)[..|a + b| - 1] == a + b';
      GatedIdsAppend(protos, a, b');
    }
  }

  /**
   * With unique IDs, an instance of the snapshot survives the erase exactly
   * when it did not fire.
   */
  lemma SurvivesIffNotFired(rule: Rule, protos: seq<Entity>, s: seq<EntityInstance>, k: int)
    requires IndexesInto(s, protos) && UniqueIds(s) && 0 <= k < |s|
    ensures s[k] in RemoveIds(s, FiredIds(rule, protos, s)) <==> !Fires(rule, protos, s, k)
  {
    RemoveIdsMembership(s, FiredIds(rule, protos, s), s[k]);
    FiredIdsMembership(rule, protos, s, s[k].instanceID);
  }

  /**
   * A whole walk: the noted IDs all come from the snapshot, so erasing them
   * leaves every spawn in place and removes exactly the fired instances of
   * the snapshot.
   */
  lemma PassWorld(rule: Rule, protos: seq<Entity>, s: seq<EntityInstance>, next: int)
    requires IndexesInto(s, protos) && IdsBelow(s, next)
    ensures Grown(s, next, Scan(rule, Pass(protos, s, next, []), s).world, Scan(rule, Pass(protos, s, next, []), s).next)
    ensures Scan(rule, Pass(protos, s, next, []), s).protos == Cleared(rule, protos, Pids(s))
    ensures Scan(rule, Pass(protos, s, next, []), s).finished == FiredIds(rule, protos, s)
    ensures RemoveIds(Scan(rule, Pass(protos, s, next, []), s).world, Scan(rule, Pass(protos, s, next, []), s).finished)
      == RemoveIds(s, FiredIds(rule, protos, s)) + Scan(rule, Pass(protos, s, next, []), s).world[|s|..]
    ensures !rule.NearbyBlocks? ==>
      Scan(rule, Pass(protos, s, next, []), s).world[|s|..] == SpawnAll(next, Payloads(rule, protos, s), true)
      && Scan(rule, Pass(protos, s, next, []), s).next == next + |Payloads(rule, protos, s)|
  {
    assert s[..|s|] == s;
    ScanPrefixTable(rule, protos, s, next, |s|);
    ScanPrefixWorld(rule, protos, s, next, |s|);
    var st := Scan(rule, Pass(protos, s, next, []), s);
    var rest := st.world[|s|..];
    assert st.world == s + rest;
    var f := FiredIds(rule, protos, s);
    RemoveIdsAppend(s, rest, f);
    FiredBelow(rule, protos, s, next);
    assert forall k :: 0 <= k < |rest| ==> rest[k].instanceID == st.world[|s| + k].instanceID;
    RemoveIdsNone(rest, f);
  }

  /** Every noted ID is the ID of a snapshot instance, so it lies below the counter. */
  lemma FiredBelow(rule: Rule, protos: seq<Entity>, s: seq<EntityInstance>, next: int)
    requires IndexesInto(s, protos) && IdsBelow(s, next)
    ensures forall id :: id in FiredIds(rule, protos, s) ==> id < next
  {
    forall id | id in FiredIds(rule, protos, s)
      ensures id < next
    {
      FiredIdsMembership(rule, protos, s, id);
    }
  }

  /** With unique IDs, the erase removes one instance per noted ID. */
  lemma {:induction false} FiredCount(rule: Rule, protos: seq<Entity>, s: seq<EntityInstance>)
    requires IndexesInto(s, protos) && UniqueIds(s)
    ensures |RemoveIds(s, FiredIds(rule, protos, s))| + |FiredIds(rule, protos, s)| == |s|
    decreases |s|
  {
    if s != [] {
      var n := |s| - 1;
      var s' := s[..n];
      var x := s[n];
      assert forall k :: 0 <= k < n ==> s'[k] == s[k];
      FiredCount(rule, protos, s');
      var f' := FiredIds(rule, protos, s');
      var f := FiredIds(rule, protos, s);
      FiredIdsMembership(rule, protos, s', x.instanceID);
      assert x.instanceID !in f';
      RemoveIdsIrrelevant(s', f, f');
    }
  }

  /** Entries appended after the snapshot carry fresh IDs, so no instance of the snapshot equals one. */
  lemma SnapshotNotSpawned(s: seq<EntityInstance>, next: int, rest: seq<EntityInstance>, x: EntityInstance)
    requires IdsBelow(s, next) && x in s
    requires forall k :: 0 <= k < |rest| ==> rest[k].instanceID >= next
    ensures x !in rest
  {
  }

  /**
   * The unconditional pass of 14/: every isAudicle instance of the snapshot
   * is erased and every other one kept, in order; the spawned instances
   * follow, one per entry of each payload as first seen (a later instance of
   * an already-expanded prototype finds its payload cleared); every audicle
   * prototype met is left with an empty payload and nothing else in the
   * table changes.
   */
  lemma UnconditionalPass(protos: seq<Entity>, w: int, next: int)
    requires WorldReady(protos, w)
    requires UniqueIds(protos[w].instances) && IdsBelow(protos[w].instances, next)
    ensures var s := protos[w].instances;
      var r := PassOutcome(Unconditional, protos, w, next);
      && |r.0| == |protos|
      && r.0[w] == protos[w].(instances := RemoveIds(s, FiredIds(Unconditional, protos, s))
                                           + SpawnAll(next, Payloads(Unconditional, protos, s), true))
      && r.1 == next + |Payloads(Unconditional, protos, s)|
      && (forall k :: 0 <= k < |s| ==> (s[k] in r.0[w].instances <==> !protos[s[k].prototypeID].isAudicle))
      && |r.0[w].instances| == |s| - |FiredIds(Unconditional, protos, s)| + |Payloads(Unconditional, protos, s)|
      && (forall q :: 0 <= q < |protos| && q != w ==>
            r.0[q] == if protos[q].isAudicle && q in Pids(s) then protos[q].(instances := []) else protos[q])
  {
    var s := protos[w].instances;
    PassWorld(Unconditional, protos, s, next);
    FiredCount(Unconditional, protos, s);
    var r := PassOutcome(Unconditional, protos, w, next);
    var kept := RemoveIds(s, FiredIds(Unconditional, protos, s));
    var spawned := SpawnAll(next, Payloads(Unconditional, protos, s), true);
    assert r.0[w].instances == kept + spawned;
    forall k | 0 <= k < |s|
      ensures s[k] in r.0[w].instances <==> !protos[s[k].prototypeID].isAudicle
    {
      SurvivesIffNotFired(Unconditional, protos, s, k);
      SnapshotNotSpawned(s, next, spawned, s[k]);
    }
  }

  /**
   * The non-empty pass of 17/: an isAudicle instance is expanded and erased
   * only when its payload is non-empty as it is met, that is, when the
   * table's payload was non-empty and no earlier instance of the same
   * prototype has emptied it; every other instance stays, in order, and the
   * spawned instances follow.
   */
  lemma NonEmptyPass(protos: seq<Entity>, w: int, next: int)
    requires WorldReady(protos, w)
    requires UniqueIds(protos[w].instances) && IdsBelow(protos[w].instances, next)
    ensures var s := protos[w].instances;
      var r := PassOutcome(NonEmptyPayload, protos, w, next);
      && |r.0| == |protos|
      && r.0[w] == protos[w].(instances := RemoveIds(s, FiredIds(NonEmptyPayload, protos, s))
                                           + SpawnAll(next, Payloads(NonEmptyPayload, protos, s), true))
      && r.1 == next + |Payloads(NonEmptyPayload, protos, s)|
      && (forall k :: 0 <= k < |s| ==>
            (s[k] in r.0[w].instances <==>
               !(protos[s[k].prototypeID].isAudicle && protos[s[k].prototypeID].instances != []
                 && s[k].prototypeID !in Pids(s[..k]))))
      && (forall q :: 0 <= q < |protos| && q != w ==>
            r.0[q] == if protos[q].isAudicle && q in Pids(s) then protos[q].(instances := []) else protos[q])
  {
    var s := protos[w].instances;
    PassWorld(NonEmptyPayload, protos, s, next);
    var st := Scan(NonEmptyPayload, Pass(protos, s, next, []), s);
    WriteBackTable(NonEmptyPayload, protos, w, Pids(s), st.protos, RemoveIds(st.world, st.finished));
    NonEmptyKept(protos, s, next);
  }

  /** The list the non-empty pass writes back, and which snapshot instances it keeps. */
  lemma NonEmptyKept(protos: seq<Entity>, s: seq<EntityInstance>, next: int)
    requires IndexesInto(s, protos) && UniqueIds(s) && IdsBelow(s, next)
    ensures var st := Scan(NonEmptyPayload, Pass(protos, s, next, []), s);
      var spawned := SpawnAll(next, Payloads(NonEmptyPayload, protos, s), true);
      && RemoveIds(st.world, st.finished) == RemoveIds(s, FiredIds(NonEmptyPayload, protos, s)) + spawned
      && st.next == next + |Payloads(NonEmptyPayload, protos, s)|
      && (forall k :: 0 <= k < |s| ==>
            (s[k] in RemoveIds(st.world, st.finished) <==>
               !(protos[s[k].prototypeID].isAudicle && protos[s[k].prototypeID].instances != []
                 && s[k].prototypeID !in Pids(s[..k]))))
  {
    PassWorld(NonEmptyPayload, protos, s, next);
    var kept := RemoveIds(s, FiredIds(NonEmptyPayload, protos, s));
    var spawned := SpawnAll(next, Payloads(NonEmptyPayload, protos, s), true);
    forall k | 0 <= k < |s|
      ensures s[k] in kept + spawned <==>
        !(protos[s[k].prototypeID].isAudicle && protos[s[k].prototypeID].instances != [] && s[k].prototypeID !in Pids(s[..k]))
    {
      SurvivesIffNotFired(NonEmptyPayload, protos, s, k);
      SnapshotNotSpawned(s, next, spawned, s[k]);
    }
  }

  /** Every expanded entry is an entry of some prototype's payload. */
  lemma {:induction false} PayloadsFromTable(rule: Rule, protos: seq<Entity>, s: seq<EntityInstance>)
    requires IndexesInto(s, protos)
    ensures forall e :: e in Payloads(rule, protos, s) ==>
      exists q :: 0 <= q < |protos| && IsSpawner(rule, protos[q]) && e in protos[q].instances
    decreases |s|
  {
    if s != [] {
      var s' := s[..|s| - 1];
      assert forall k :: 0 <= k < |s'| ==> s'[k] == s[k];
      PayloadsFromTable(rule, protos, s');
    }
  }

  /** Payloads only ever point at prototypes that exist and are not audicles. */
  predicate PayloadsSpawnNoAudicles(protos: seq<Entity>)
  {
    forall q, k :: 0 <= q < |protos| && 0 <= k < |protos[q].instances| ==>
      0 <= protos[q].instances[k].prototypeID < |protos| && !protos[protos[q].instances[k].prototypeID].isAudicle
  }

  lemma {:induction false} NothingToExpand(rule: Rule, protos: seq<Entity>, s: seq<EntityInstance>)
    requires IndexesInto(s, protos)
    requires forall k :: 0 <= k < |s| && IsSpawner(rule, protos[s[k].prototypeID]) ==> protos[s[k].prototypeID].instances == []
    ensures Payloads(rule, protos, s) == []
    ensures rule.NonEmptyPayload? ==> FiredIds(rule, protos, s) == []
    decreases |s|
  {
    if s != [] {
      var s' := s[..|s| - 1];
      assert forall k :: 0 <= k < |s'| ==> s'[k] == s[k];
      NothingToExpand(rule, protos, s');
    }
  }

  /**
   * Idempotence of the non-empty pass: when no payload holds an audicle,
   * a second pass straight after the first changes nothing, because every
   * audicle instance left in the world belongs to a prototype whose payload
   * the first pass emptied or found empty.
   */
  lemma NonEmptyPassIdempotent(protos: seq<Entity>, w: int, next: int)
    requires WorldReady(protos, w) && PayloadsSpawnNoAudicles(protos)
    requires UniqueIds(protos[w].instances) && IdsBelow(protos[w].instances, next)
    ensures WorldReady(PassOutcome(NonEmptyPayload, protos, w, next).0, w)
    ensures var r := PassOutcome(NonEmptyPayload, protos, w, next);
      PassOutcome(NonEmptyPayload, r.0, w, r.1) == r
  {
    var s := protos[w].instances;
    var r := PassOutcome(NonEmptyPayload, protos, w, next);
    var p1 := r.0;
    var kept := RemoveIds(s, FiredIds(NonEmptyPayload, protos, s));
    var pl := Payloads(NonEmptyPayload, protos, s);
    var spawned := SpawnAll(next, pl, true);
    var s1 := kept + spawned;
    assert |p1| == |protos| && p1[w].instances == s1 && r.1 == next + |pl| && !p1[w].isAudicle
      && forall q :: 0 <= q < |p1| ==>
           (p1[q].isAudicle == protos[q].isAudicle && (protos[q].isAudicle && q in Pids(s) ==> p1[q].instances == []))
    by {
      NonEmptyPass(protos, w, next);
    }
    QuietAfterNonEmpty(protos, s, next, p1, s1);
    assert WorldReady(p1, w);
    QuietPass(p1, w, r.1);
  }

  /**
   * After the non-empty pass, every instance written back points into the
   * table, has an ID below the new counter, and belongs to no audicle
   * prototype that still holds a payload.
   */
  lemma QuietAfterNonEmpty(protos: seq<Entity>, s: seq<EntityInstance>, next: int, p1: seq<Entity>, s1: seq<EntityInstance>)
    requires IndexesInto(s, protos) && IdsBelow(s, next) && PayloadsSpawnNoAudicles(protos)
    requires |p1| == |protos|
    requires forall q :: 0 <= q < |p1| ==>
      (p1[q].isAudicle == protos[q].isAudicle && (protos[q].isAudicle && q in Pids(s) ==> p1[q].instances == []))
    requires s1 == RemoveIds(s, FiredIds(NonEmptyPayload, protos, s))
                   + SpawnAll(next, Payloads(NonEmptyPayload, protos, s), true)
    ensures IndexesInto(s1, p1)
    ensures IdsBelow(s1, next + |Payloads(NonEmptyPayload, protos, s)|)
    ensures forall k :: 0 <= k < |s1| && p1[s1[k].prototypeID].isAudicle ==> p1[s1[k].prototypeID].instances == []
  {
    var kept := RemoveIds(s, FiredIds(NonEmptyPayload, protos, s));
    var pl := Payloads(NonEmptyPayload, protos, s);
    var spawned := SpawnAll(next, pl, true);
    forall k | 0 <= k < |s1|
      ensures 0 <= s1[k].prototypeID < |p1|
      ensures s1[k].instanceID < next + |pl|
      ensures p1[s1[k].prototypeID].isAudicle ==> p1[s1[k].prototypeID].instances == []
    {
      if k < |kept| {
        assert s1[k] in kept;
        RemoveIdsMembership(s, FiredIds(NonEmptyPayload, protos, s), s1[k]);
        var j :| 0 <= j < |s| && s[j] == s1[k];
        assert s1[k].prototypeID in Pids(s);
      } else {
        var e := pl[k - |kept|];
        assert s1[k] == Spawn(e, next + (k - |kept|), true);
        assert e in pl;
        PayloadsFromTable(NonEmptyPayload, protos, s);
        var q :| 0 <= q < |protos| && e in protos[q].instances;
        var i :| 0 <= i < |protos[q].instances| && protos[q].instances[i] == e;
      }
    }
  }

  /** A world in which no audicle instance has a payload left to expand is a fixed point of the non-empty pass. */
  lemma QuietPass(protos: seq<Entity>, w: int, next: int)
    requires WorldReady(protos, w) && IdsBelow(protos[w].instances, next)
    requires forall k :: 0 <= k < |protos[w].instances| && protos[protos[w].instances[k].prototypeID].isAudicle ==>
      protos[protos[w].instances[k].prototypeID].instances == []
    ensures PassOutcome(NonEmptyPayload, protos, w, next) == (protos, next)
  {
    var s := protos[w].instances;
    QuietScan(protos, s, next);
    RemoveIdsNone(s, []);
    assert protos[w := protos[w].(instances := s)] == protos;
  }

  /** The walk itself finds nothing to do: no payload is expanded, none cleared, no ID noted. */
  lemma QuietScan(protos: seq<Entity>, s: seq<EntityInstance>, next: int)
    requires IndexesInto(s, protos) && IdsBelow(s, next)
    requires forall k :: 0 <= k < |s| && protos[s[k].prototypeID].isAudicle ==> protos[s[k].prototypeID].instances == []
    ensures Scan(NonEmptyPayload, Pass(protos, s, next, []), s) == Pass(protos, s, next, [])
  {
    var st := Scan(NonEmptyPayload, Pass(protos, s, next, []), s);
    NothingToExpand(NonEmptyPayload, protos, s);
    ClearedNoop(NonEmptyPayload, protos, Pids(s));
    PassWorld(NonEmptyPayload, protos, s, next);
    assert st.world == s + SpawnAll(next, [], true);
    assert SpawnAll(next, [], true) == [];
    assert st.world == s;
  }

  lemma ClearedNoop(rule: Rule, protos: seq<Entity>, seen: set<int>)
    requires forall q :: 0 <= q < |protos| && q in seen && IsSpawner(rule, protos[q]) ==> protos[q].instances == []
    ensures Cleared(rule, protos, seen) == protos
  {
    forall q | 0 <= q < |protos|
      ensures Cleared(rule, protos, seen)[q] == protos[q]
    {
      if Clears(rule) && IsSpawner(rule, protos[q]) && q in seen {
        assert protos[q].(instances := []) == protos[q];
      }
    }
  }

  /**
   * The de-duplicating pass of 7/, 8/, 10/, 12/ and 13/: every isAudicle
   * instance of the snapshot is erased and every other one kept, in order;
   * the spawns follow with consecutive fresh IDs; every audicle prototype
   * met is left with an empty payload and nothing else in the table changes.
   */
  lemma NearbyPass(keepColor: bool, protos: seq<Entity>, w: int, next: int)
    requires WorldReady(protos, w)
    requires UniqueIds(protos[w].instances) && IdsBelow(protos[w].instances, next)
    ensures var s := protos[w].instances;
      var r := PassOutcome(NearbyBlocks(keepColor), protos, w, next);
      var kept := RemoveIds(s, FiredIds(NearbyBlocks(keepColor), protos, s));
      && |r.0| == |protos|
      && r.0[w].(instances := []) == protos[w].(instances := [])
      && Grown(kept, next, r.0[w].instances, r.1)
      && (forall k :: 0 <= k < |s| ==> (s[k] in r.0[w].instances <==> !protos[s[k].prototypeID].isAudicle))
      && (forall q :: 0 <= q < |protos| && q != w ==>
            r.0[q] == if protos[q].isAudicle && q in Pids(s) then protos[q].(instances := []) else protos[q])
  {
    var rule := NearbyBlocks(keepColor);
    var s := protos[w].instances;
    PassWorld(rule, protos, s, next);
    var st := Scan(rule, Pass(protos, s, next, []), s);
    WriteBackTable(rule, protos, w, Pids(s), st.protos, RemoveIds(st.world, st.finished));
    NearbyKept(keepColor, protos, s, next);
  }

  /** The list the de-duplicating pass writes back: the kept snapshot, then the spawns; a snapshot instance stays iff it is not isAudicle. */
  lemma NearbyKept(keepColor: bool, protos: seq<Entity>, s: seq<EntityInstance>, next: int)
    requires IndexesInto(s, protos) && UniqueIds(s) && IdsBelow(s, next)
    ensures var st := Scan(NearbyBlocks(keepColor), Pass(protos, s, next, []), s);
      var kept := RemoveIds(s, FiredIds(NearbyBlocks(keepColor), protos, s));
      && Grown(kept, next, RemoveIds(st.world, st.finished), st.next)
      && forall k :: 0 <= k < |s| ==> (s[k] in RemoveIds(st.world, st.finished) <==> !protos[s[k].prototypeID].isAudicle)
  {
    var rule := NearbyBlocks(keepColor);
    PassWorld(rule, protos, s, next);
    var st := Scan(rule, Pass(protos, s, next, []), s);
    var kept := RemoveIds(s, FiredIds(rule, protos, s));
    var rest := st.world[|s|..];
    assert RemoveIds(st.world, st.finished) == kept + rest;
    assert (kept + rest)[..|kept|] == kept;
    assert forall j :: 0 <= j < |rest| ==> rest[j].instanceID == st.world[|s| + j].instanceID;
    forall k | 0 <= k < |s|
      ensures s[k] in kept + rest <==> !protos[s[k].prototypeID].isAudicle
    {
      SurvivesIffNotFired(rule, protos, s, k);
      SnapshotNotSpawned(s, next, rest, s[k]);
    }
  }

  /** Writing a list back into the cleared table leaves every other prototype as clearing made it. */
  lemma WriteBackTable(rule: Rule, protos: seq<Entity>, w: int, seen: set<int>, tbl: seq<Entity>, inst: seq<EntityInstance>)
    requires 0 <= w < |protos| && !protos[w].isAudicle && Clears(rule)
    requires tbl == Cleared(rule, protos, seen)
    ensures var t := tbl[w := tbl[w].(instances := inst)];
      && |t| == |protos|
      && t[w] == protos[w].(instances := inst)
      && (forall q :: 0 <= q < |protos| && q != w ==>
            t[q] == if protos[q].isAudicle && q in seen then protos[q].(instances := []) else protos[q])
  {
    var t := tbl[w := tbl[w].(instances := inst)];
    forall q | 0 <= q < |protos| && q != w
      ensures t[q] == if protos[q].isAudicle && q in seen then protos[q].(instances := []) else protos[q]
    {
      assert t[q] == tbl[q];
      assert IsSpawner(rule, protos[q]) == protos[q].isAudicle;
    }
    assert IsSpawner(rule, protos[w]) == protos[w].isAudicle;
    assert tbl[w] == protos[w];
  }

  /**
   * Each instance the de-duplicating walk appends is stamped from a payload
   * entry, and no instance of another prototype lay within 0.1 of it when it
   * was appended: neither in the starting list nor among earlier spawns.
   */
  lemma {:induction false} DedupSpawnsOnlyUnblocked(world: seq<EntityInstance>, next: int, audicleID: int,
                                                    payload: seq<EntityInstance>, keepColor: bool)
    ensures var g := Dedup(world, next, audicleID, payload, keepColor);
      |world| <= |g.0| && g.0[..|world|] == world
      && forall k :: |world| <= k < |g.0| ==>
           !Blocked(g.0[..k], audicleID, g.0[k].position)
           && (exists j :: 0 <= j < |payload| && g.0[k] == Spawn(payload[j], g.0[k].instanceID, keepColor))
    decreases |payload|
  {
    if payload != [] {
      var tail := payload[1..];
      assert forall j :: 0 <= j < |tail| ==> tail[j] == payload[j + 1];
      if Blocked(world, audicleID, payload[0].position) {
        DedupSpawnsOnlyUnblocked(world, next, audicleID, tail, keepColor);
      } else {
        var w' := world + [Spawn(payload[0], next, keepColor)];
        DedupSpawnsOnlyUnblocked(w', next + 1, audicleID, tail, keepColor);
        var g := Dedup(w', next + 1, audicleID, tail, keepColor);
        assert g.0[..|w'|][..|world|] == world;
        assert g.0[|world|] == w'[|world|];
        assert g.0[..|world|] == world;
      }
    }
  }

  /** Instances of the audicle's own prototype, the spawner included, never block a spawn. */
  lemma OwnPrototypeNeverBlocks(world: seq<EntityInstance>, audicleID: int, x: EntityInstance, pos: Vec3)
    requires x.prototypeID == audicleID
    ensures Blocked(world + [x], audicleID, pos) <==> Blocked(world, audicleID, pos)
    ensures Blocked([x] + world, audicleID, pos) <==> Blocked(world, audicleID, pos)
  {
    if Blocked(world, audicleID, pos) {
      var k :| 0 <= k < |world| && world[k].prototypeID != audicleID && Near(world[k].position, pos);
      assert (world + [x])[k] == world[k];
      assert ([x] + world)[k + 1] == world[k];
    }
    if Blocked([x] + world, audicleID, pos) {
      var k :| 0 <= k < |[x] + world| && ([x] + world)[k].prototypeID != audicleID && Near(([x] + world)[k].position, pos);
      assert world[k - 1] == ([x] + world)[k];
    }
  }

  /**
   * Because the proximity test looks at the growing list, two payload
   * entries of another prototype at the same position give one spawn.
   */
  lemma SamePositionSpawnsOnce(world: seq<EntityInstance>, next: int, audicleID: int,
                               e1: EntityInstance, e2: EntityInstance, keepColor: bool)
    requires e1.position == e2.position && e1.prototypeID != audicleID
    requires !Blocked(world, audicleID, e1.position)
    ensures Dedup(world, next, audicleID, [e1, e2], keepColor) == (world + [Spawn(e1, next, keepColor)], next + 1)
  {
    var w' := world + [Spawn(e1, next, keepColor)];
    assert [e1, e2][1..] == [e2];
    assert [e2][1..] == [];
    assert DistanceSquared(e1.position, e2.position) == 0.0;
    assert w'[|world|].prototypeID != audicleID && Near(w'[|world|].position, e2.position);
    assert Blocked(w', audicleID, e2.position);
    assert Dedup(w', next + 1, audicleID, [e2], keepColor) == Dedup(w', next + 1, audicleID, [], keepColor);
    assert Dedup(world, next, audicleID, [e1, e2], keepColor) == Dedup(w', next + 1, audicleID, [e2], keepColor);
  }

  /** The typed pass erases the noted "true" and "gated" instances of the snapshot, and the "gated" spawns. */
  lemma TypedPassShape(protos: seq<Entity>, s: seq<EntityInstance>, next: int)
    requires IndexesInto(s, protos) && IdsBelow(s, next)
    ensures var sp := SpawnAll(next, Payloads(TypedTrue, protos, s), true);
      TypedOutcome(protos, s, next)
      == (RemoveIds(s, FiredIds(TypedTrue, protos, s) + GatedIds(protos, s)) + RemoveIds(sp, GatedIds(protos, sp)),
          next + |Payloads(TypedTrue, protos, s)|)
  {
    var pl := Payloads(TypedTrue, protos, s);
    var sp := SpawnAll(next, pl, true);
    var f := FiredIds(TypedTrue, protos, s);
    TypedScanWorld(protos, s, next);
    FiredBelow(TypedTrue, protos, s, next);
    SplitErase(protos, s, sp, f, next);
  }

  /** Without "nearby" rules, the scan of the typed pass appends the spawns to the snapshot. */
  lemma TypedScanWorld(protos: seq<Entity>, s: seq<EntityInstance>, next: int)
    requires IndexesInto(s, protos) && IdsBelow(s, next)
    ensures var st := Scan(TypedTrue, Pass(protos, s, next, []), s);
      st.world == s + SpawnAll(next, Payloads(TypedTrue, protos, s), true)
      && st.finished == FiredIds(TypedTrue, protos, s)
      && st.next == next + |Payloads(TypedTrue, protos, s)|
  {
    PassWorld(TypedTrue, protos, s, next);
    var st := Scan(TypedTrue, Pass(protos, s, next, []), s);
    assert st.world == st.world[..|s|] + st.world[|s|..];
  }

  /**
   * Erasing a snapshot followed by fresh spawns: identifiers noted in the
   * snapshot never match a spawn, and gated spawns never match the snapshot.
   */
  lemma SplitErase(protos: seq<Entity>, s: seq<EntityInstance>, sp: seq<EntityInstance>, f: seq<int>, next: int)
    requires IdsBelow(s, next)
    requires forall k :: 0 <= k < |sp| ==> sp[k].instanceID >= next
    requires forall id :: id in f ==> id < next
    ensures RemoveIds(s + sp, f + GatedIds(protos, s + sp))
      == RemoveIds(s, f + GatedIds(protos, s)) + RemoveIds(sp, GatedIds(protos, sp))
  {
    var ids := f + GatedIds(protos, s + sp);
    GatedIdsAppend(protos, s, sp);
    assert ids == (f + GatedIds(protos, s)) + GatedIds(protos, sp);
    RemoveIdsAppend(s, sp, ids);
    forall k | 0 <= k < |s|
      ensures s[k].instanceID in ids <==> s[k].instanceID in f + GatedIds(protos, s)
    {
      GatedIdsMembership(protos, sp, s[k].instanceID);
    }
    RemoveIdsIrrelevant(s, ids, f + GatedIds(protos, s));
    forall k | 0 <= k < |sp|
      ensures sp[k].instanceID in ids <==> sp[k].instanceID in GatedIds(protos, sp)
    {
      GatedIdsMembership(protos, s, sp[k].instanceID);
    }
    RemoveIdsIrrelevant(sp, ids, GatedIds(protos, sp));
  }

  /**
   * The typed pass of 22/: every "true" instance of the snapshot expands its
   * payload (payloads are never cleared, so each "true" instance expands it
   * again) and is erased even when the payload is empty; every "gated"
   * instance, in the snapshot or among the spawns, is erased and never
   * expanded; everything else stays in order, the kept spawns after the
   * kept snapshot.
   */
  lemma TypedPass(protos: seq<Entity>, s: seq<EntityInstance>, next: int)
    requires IndexesInto(s, protos) && UniqueIds(s) && IdsBelow(s, next)
    ensures var sp := SpawnAll(next, Payloads(TypedTrue, protos, s), true);
      var r := TypedOutcome(protos, s, next);
      && r.1 == next + |Payloads(TypedTrue, protos, s)|
      && r.0 == RemoveIds(s, FiredIds(TypedTrue, protos, s) + GatedIds(protos, s)) + RemoveIds(sp, GatedIds(protos, sp))
      && (forall k :: 0 <= k < |s| ==>
            (s[k] in r.0 <==> protos[s[k].prototypeID].audicleType != "true" && protos[s[k].prototypeID].audicleType != "gated"))
      && (forall k :: 0 <= k < |sp| ==> (sp[k] in r.0 <==> !IsGated(protos, sp[k])))
  {
    TypedPassShape(protos, s, next);
    var pl := Payloads(TypedTrue, protos, s);
    var sp := SpawnAll(next, pl, true);
    var f := FiredIds(TypedTrue, protos, s);
    var kept := RemoveIds(s, f + GatedIds(protos, s));
    var keptSpawns := RemoveIds(sp, GatedIds(protos, sp));
    forall k | 0 <= k < |s|
      ensures s[k] in kept + keptSpawns <==>
        protos[s[k].prototypeID].audicleType != "true" && protos[s[k].prototypeID].audicleType != "gated"
    {
      SnapshotKeptIffPlain(protos, s, sp, next, k);
    }
    forall k | 0 <= k < |sp|
      ensures sp[k] in kept + keptSpawns <==> !IsGated(protos, sp[k])
    {
      SpawnKeptIffNotGated(protos, s, next, pl, f + GatedIds(protos, s), k);
    }
  }

  /** With unique IDs, an instance of the snapshot survives the typed erase exactly when it is neither "true" nor "gated". */
  lemma SnapshotKeptIffPlain(protos: seq<Entity>, s: seq<EntityInstance>, sp: seq<EntityInstance>, next: int, k: int)
    requires IndexesInto(s, protos) && UniqueIds(s) && IdsBelow(s, next) && 0 <= k < |s|
    requires forall j :: 0 <= j < |sp| ==> sp[j].instanceID >= next
    ensures var ids := FiredIds(TypedTrue, protos, s) + GatedIds(protos, s);
      s[k] in RemoveIds(s, ids) + RemoveIds(sp, GatedIds(protos, sp)) <==>
        protos[s[k].prototypeID].audicleType != "true" && protos[s[k].prototypeID].audicleType != "gated"
  {
    var ids := FiredIds(TypedTrue, protos, s) + GatedIds(protos, s);
    RemoveIdsMembership(s, ids, s[k]);
    RemoveIdsMembership(sp, GatedIds(protos, sp), s[k]);
    FiredIdsMembership(TypedTrue, protos, s, s[k].instanceID);
    GatedIdsMembership(protos, s, s[k].instanceID);
    assert s[k] !in sp;
  }

  /** A spawn is never an instance of the snapshot, so it survives the typed erase exactly when it is not "gated". */
  lemma SpawnKeptIffNotGated(protos: seq<Entity>, s: seq<EntityInstance>, next: int, pl: seq<EntityInstance>, ids: seq<int>, k: int)
    requires IdsBelow(s, next) && 0 <= k < |pl|
    ensures var sp := SpawnAll(next, pl, true);
      sp[k] in RemoveIds(s, ids) + RemoveIds(sp, GatedIds(protos, sp)) <==> !IsGated(protos, sp[k])
  {
    var sp := SpawnAll(next, pl, true);
    RemoveIdsMembership(s, ids, sp[k]);
    RemoveIdsMembership(sp, GatedIds(protos, sp), sp[k]);
    GatedIdsMembership(protos, sp, sp[k].instanceID);
    assert sp[k].instanceID >= next;
    assert sp[k] !in s;
  }

  /** The walk's bookkeeping over a two-instance snapshot. */
  lemma TwoInstances(rule: Rule, protos: seq<Entity>, s: seq<EntityInstance>)
    requires IndexesInto(s, protos) && |s| == 2
    ensures var q0 := s[0].prototypeID;
      var q1 := s[1].prototypeID;
      Payloads(rule, protos, s)
      == (if IsSpawner(rule, protos[q0]) then protos[q0].instances else [])
         + (if IsSpawner(rule, protos[q1]) && (Clears(rule) ==> q1 != q0) then protos[q1].instances else [])
    ensures rule.NonEmptyPayload? ==>
      FiredIds(rule, protos, s)
      == (if protos[s[0].prototypeID].isAudicle && protos[s[0].prototypeID].instances != [] then [s[0].instanceID] else [])
         + (if protos[s[1].prototypeID].isAudicle && protos[s[1].prototypeID].instances != [] && s[1].prototypeID != s[0].prototypeID
            then [s[1].instanceID] else [])
  {
    var a := s[..1];
    assert a[..0] == [] && a == [s[0]] && s[..|s| - 1] == a && a[..|a| - 1] == [];
    assert Pids([]) == {} && Pids(a) == {s[0].prototypeID};
    var q0 := s[0].prototypeID;
    assert Payloads(rule, protos, a) == Payloads(rule, protos, []) + (if IsSpawner(rule, protos[q0]) then protos[q0].instances else []);
    assert FiredIds(rule, protos, a) == FiredIds(rule, protos, []) + (if Fires(rule, protos, a, 0) then [s[0].instanceID] else []);
    assert s[..0] == [];
    assert s[..1] == a;
  }

  /**
   * 14/ with two live instances of one audicle: both are erased and the
   * payload is expanded once, by the first.
   */
  lemma UnconditionalTwoInstances(protos: seq<Entity>, w: int, next: int)
    requires WorldReady(protos, w) && |protos[w].instances| == 2
    requires var s := protos[w].instances;
      s[0].prototypeID == s[1].prototypeID && protos[s[0].prototypeID].isAudicle
      && s[0].instanceID != s[1].instanceID && IdsBelow(s, next)
    ensures var s := protos[w].instances;
      PassOutcome(Unconditional, protos, w, next).0[w].instances == SpawnAll(next, protos[s[0].prototypeID].instances, true)
  {
    var s := protos[w].instances;
    UnconditionalPass(protos, w, next);
    TwoInstances(Unconditional, protos, s);
    assert protos[s[0].prototypeID].instances + [] == protos[s[0].prototypeID].instances;
  }

  /**
   * 17/ with two live instances of one audicle whose payload is non-empty:
   * the first expands the payload and is erased; the second then finds the
   * payload empty and stays.
   */
  lemma NonEmptyTwoInstances(protos: seq<Entity>, w: int, next: int)
    requires WorldReady(protos, w) && |protos[w].instances| == 2
    requires var s := protos[w].instances;
      s[0].prototypeID == s[1].prototypeID && protos[s[0].prototypeID].isAudicle
      && protos[s[0].prototypeID].instances != []
      && s[0].instanceID != s[1].instanceID && IdsBelow(s, next)
    ensures var s := protos[w].instances;
      PassOutcome(NonEmptyPayload, protos, w, next).0[w].instances
      == [s[1]] + SpawnAll(next, protos[s[0].prototypeID].instances, true)
  {
    var s := protos[w].instances;
    NonEmptyPass(protos, w, next);
    TwoInstances(NonEmptyPayload, protos, s);
    assert FiredIds(NonEmptyPayload, protos, s) == [s[0].instanceID];
    assert protos[s[0].prototypeID].instances + [] == protos[s[0].prototypeID].instances;
    assert s[..1] == [s[0]] && s[..0] == [];
    assert RemoveIds(s, [s[0].instanceID]) == [s[1]];
  }

  /**
   * 22/ with two live "true" instances of one prototype: payloads are not
   * cleared, so the payload is expanded twice.
   */
  lemma TypedTwoInstances(protos: seq<Entity>, s: seq<EntityInstance>)
    requires IndexesInto(s, protos) && |s| == 2
    requires s[0].prototypeID == s[1].prototypeID && protos[s[0].prototypeID].audicleType == "true"
    ensures Payloads(TypedTrue, protos, s) == protos[s[0].prototypeID].instances + protos[s[0].prototypeID].instances
  {
    TwoInstances(TypedTrue, protos, s);
  }

  /** Every payload entry of a "true" prototype names a prototype of the table. */
  predicate TruePayloadsIndex(protos: seq<Entity>)
  {
    forall q, k :: 0 <= q < |protos| && protos[q].audicleType == "true" && 0 <= k < |protos[q].instances| ==>
      0 <= protos[q].instances[k].prototypeID < |protos|
  }

  /** After the typed walk, every instance of the grown list names a prototype of the table. */
  lemma TypedWorldIndexes(protos: seq<Entity>, s: seq<EntityInstance>, next: int)
    requires IndexesInto(s, protos) && TruePayloadsIndex(protos)
    ensures IndexesInto(Scan(TypedTrue, Pass(protos, s, next, []), s).world, protos)
  {
    var st := Scan(TypedTrue, Pass(protos, s, next, []), s);
    ScanPrefixWorld(TypedTrue, protos, s, next, |s|);
    assert s[..|s|] == s;
    var pl := Payloads(TypedTrue, protos, s);
    PayloadsFromTable(TypedTrue, protos, s);
    forall k | 0 <= k < |st.world|
      ensures 0 <= st.world[k].prototypeID < |protos|
    {
      if k >= |s| {
        var e := pl[k - |s|];
        assert e in pl;
        var q :| 0 <= q < |protos| && IsSpawner(TypedTrue, protos[q]) && e in protos[q].instances;
        var i :| 0 <= i < |protos[q].instances| && protos[q].instances[i] == e;
      }
    }
  }
}
