/**
 * The prototype tables the early rewrites build at start-up, and the debug
 * worlds laid out from them.
 *
 * Every table is built by an append loop in which a new prototype's ID is
 * the table's size at that moment (or the loop counter, which is the same
 * thing because the table starts empty), so a prototype's ID is its index.
 * The debug worlds place one block of each type on a 5-wide grid with a
 * spacing of 3.
 */
module Tables {
  import opened Common
  import Engine
  import Render

  // ---------------------------------------------------------------------
  // Decimal names, std::to_string of a non-negative int
  // ---------------------------------------------------------------------

  function DigitChar(d: nat): (c: char)
    requires d < 10
    ensures '0' <= c <= '9'
    ensures c as int - '0' as int == d
  {
    ('0' as int + d) as char
  }

  /** The decimal digits of `n`, most significant first, with no leading zero. */
  function Decimal(n: nat): (r: string)
    ensures |r| >= 1
    ensures forall k :: 0 <= k < |r| ==> '0' <= r[k] <= '9'
    ensures n >= 10 <==> |r| >= 2
    ensures |r| >= 2 ==> r[0] != '0'
  {
    if n < 10 then [DigitChar(n)] else Decimal(n / 10) + [DigitChar(n % 10)]
  }

  /** Different numbers print differently, so the block names of a table are distinct. */
  lemma {:induction false} DecimalInjective(a: nat, b: nat)
    requires Decimal(a) == Decimal(b)
    ensures a == b
  {
    if a >= 10 && b >= 10 {
      var da, db := Decimal(a), Decimal(b);
      assert da == Decimal(a / 10) + [DigitChar(a % 10)];
      assert db == Decimal(b / 10) + [DigitChar(b % 10)];
      assert da[..|da| - 1] == Decimal(a / 10);
      assert db[..|db| - 1] == Decimal(b / 10);
      DecimalInjective(a / 10, b / 10);
      assert DigitChar(a % 10) == da[|da| - 1] == db[|db| - 1] == DigitChar(b % 10);
    } else {
      assert |Decimal(a)| == 1 && |Decimal(b)| == 1;
      assert DigitChar(a) == Decimal(a)[0] == Decimal(b)[0] == DigitChar(b);
    }
  }

  /** The name "BlockType_" + std::to_string(i) of block prototype i. */
  function BlockName(i: nat): string
  {
    "BlockType_" + Decimal(i)
  }

  lemma BlockNameInjective(i: nat, j: nat)
    requires BlockName(i) == BlockName(j)
    ensures i == j
  {
    var p := "BlockType_";
    assert BlockName(i)[|p|..] == Decimal(i);
    assert BlockName(j)[|p|..] == Decimal(j);
    DecimalInjective(i, j);
  }

  // ---------------------------------------------------------------------
  // Prototype tables
  // ---------------------------------------------------------------------

  /**
   * A freshly declared `Entity p;` of the early rewrites, with its ID set:
   * empty name, not renderable, blockType -1, every flag false, no
   * instances. Fields the early records do not have carry the later
   * defaults (dampingFactor 0.10, audicleType "false", count 1).
   */
  function Blank(id: int): Entity
  {
    Entity(id, "", false, false, false, false, false, 0.1, false, false, false, "false",
           false, false, false, -1, Origin, Origin, "", "", 1, [])
  }

  /** Block prototype i of a named table: renderable, blockType i, named "BlockType_i". */
  function NamedBlock(i: nat): Entity
  {
    Blank(i).(name := BlockName(i), isRenderable := true, blockType := i)
  }

  /** Block prototype i of an unnamed table: renderable with blockType i. */
  function PlainBlock(i: nat): Entity
  {
    Blank(i).(isRenderable := true, blockType := i)
  }

  function WorldPrototype(id: int): Entity { Blank(id).(name := "World", isWorld := true) }
  function StarPrototype(id: int): Entity { Blank(id).(name := "Star", isStar := true) }
  function GeneratorPrototype(id: int): Entity { Blank(id).(name := "DebugWorldGenerator", isAudicle := true) }

  /** The number of block prototypes a loop `for (i = 0; i < n; ++i)` creates. */
  function BlockCount(n: int): nat
  {
    if n > 0 then n else 0
  }

  /** The table of createAllEntityPrototypes with `n` block prototypes. */
  function NamedTable(n: int): seq<Entity>
  {
    var N := BlockCount(n);
    seq(N, i requires 0 <= i < N => NamedBlock(i))
      + [WorldPrototype(N), StarPrototype(N + 1), GeneratorPrototype(N + 2)]
  }

  /** The first `n` block prototypes of an unnamed table. */
  function PlainBlocks(n: nat): seq<Entity>
  {
    seq(n, i requires 0 <= i < n => PlainBlock(i))
  }

  /** The unnamed table of the oldest rewrite: the blocks, then a world and a star, with no audicle. */
  function PlainTable(n: nat): seq<Entity>
  {
    PlainBlocks(n) + [Blank(n).(isWorld := true), Blank(n + 1).(isStar := true)]
  }

  /**
   * createAllEntityPrototypes(baseSystem): `numBlockPrototypes` named block
   * prototypes, each with its index as ID, followed by World, Star and the
   * DebugWorldGenerator audicle. A non-positive count gives only the three.
   * The fixed-size version with NUM_BLOCK_PROTOTYPES is this with 25.
   */
  method CreateAllEntityPrototypes(numBlockPrototypes: int) returns (protos: seq<Entity>)
    ensures protos == NamedTable(numBlockPrototypes)
  {
    protos := [];
    var i := 0;
    while i < numBlockPrototypes
      invariant 0 <= i <= BlockCount(numBlockPrototypes)
      invariant protos == seq(i, k requires 0 <= k < i => NamedBlock(k))
    {
      var p := Blank(|protos|);
      p := p.(isRenderable := true, blockType := i, name := "BlockType_" + Decimal(i));
      protos := protos + [p];
      i := i + 1;
    }
    var worldProto := Blank(|protos|).(name := "World", isWorld := true);
    protos := protos + [worldProto];
    var starProto := Blank(|protos|).(name := "Star", isStar := true);
    protos := protos + [starProto];
    var worldGenAudicle := Blank(|protos|).(name := "DebugWorldGenerator", isAudicle := true);
    protos := protos + [worldGenAudicle];
  }

  /**
   * The fixed-size createAllEntityPrototypes: the same loop with
   * NUM_BLOCK_PROTOTYPES blocks, so 28 prototypes whose last is the audicle
   * that the application later fills with a script.
   */
  method CreateFixedEntityPrototypes() returns (protos: seq<Entity>)
    ensures protos == NamedTable(Render.NumBlockTypes)
    ensures |protos| == Render.NumBlockTypes + 3
    ensures forall k :: 0 <= k < |protos| ==> protos[k].prototypeID == k
    ensures forall k :: 0 <= k < |protos| ==> (protos[k].isAudicle <==> k == Render.NumBlockTypes + 2)
    ensures protos[Render.NumBlockTypes + 2].name == "DebugWorldGenerator" && protos[Render.NumBlockTypes + 2].instances == []
  {
    protos := CreateAllEntityPrototypes(Render.NumBlockTypes);
    NamedTableShape(Render.NumBlockTypes);
  }

  /** createAllEntityPrototypes of the oldest rewrite: 25 unnamed blocks with ID i, then World and Star. */
  method CreateAllEntityPrototypesUnnamed() returns (protos: seq<Entity>)
    ensures protos == PlainTable(Render.NumBlockTypes)
  {
    protos := [];
    for i := 0 to Render.NumBlockTypes
      invariant protos == PlainBlocks(i)
    {
      var p := Blank(i).(isRenderable := true, blockType := i);
      protos := protos + [p];
    }
    var worldProto := Blank(|protos|).(isWorld := true);
    protos := protos + [worldProto];
    var starProto := Blank(|protos|).(isStar := true);
    protos := protos + [starProto];
  }

  /** The prototype loop of the single-file demo: 25 renderable blocks, entityTypeID i and blockType i. */
  method CreateBlockPrototypes() returns (protos: seq<Entity>)
    ensures protos == PlainBlocks(Render.NumBlockTypes)
  {
    protos := [];
    for i := 0 to Render.NumBlockTypes
      invariant protos == PlainBlocks(i)
    {
      var blockPrototype := Blank(i).(isRenderable := true, blockType := i);
      protos := protos + [blockPrototype];
    }
  }

  /**
   * The named table: every ID is the index, only the blocks are renderable
   * and they carry their index as block type, the three special prototypes
   * follow in order, the generator is the only audicle and starts with an
   * empty payload, and the world lookup finds the World prototype.
   */
  lemma NamedTableShape(n: int)
    ensures var t, N := NamedTable(n), BlockCount(n);
      && |t| == N + 3
      && (forall k :: 0 <= k < |t| ==> t[k].prototypeID == k)
      && (forall k :: 0 <= k < |t| ==> (t[k].isRenderable <==> k < N))
      && (forall k :: 0 <= k < N ==> t[k].blockType == k && t[k].name == BlockName(k))
      && t[N].isWorld && t[N + 1].isStar && t[N + 2].isAudicle
      && (forall k :: 0 <= k < |t| ==> (t[k].isAudicle <==> k == N + 2))
      && t[N + 2].instances == []
      && FirstWorld(t) == Some(N)
  {
    var t, N := NamedTable(n), BlockCount(n);
    Engine.FirstWorldUnique(t, N);
  }

  /** No two prototypes of the named table share a name, so a lookup by name finds each one at its own index. */
  lemma {:induction false} NamedTableNamesUnique(n: int)
    ensures forall i, j :: 0 <= i < j < |NamedTable(n)| ==> NamedTable(n)[i].name != NamedTable(n)[j].name
    ensures forall k :: 0 <= k < |NamedTable(n)| ==> Engine.FindPrototype(NamedTable(n)[k].name, NamedTable(n)) == Some(k)
  {
    var t, N := NamedTable(n), BlockCount(n);
    forall i, j | 0 <= i < j < |t|
      ensures t[i].name != t[j].name
    {
      if j < N {
        if t[i].name == t[j].name {
          BlockNameInjective(i, j);
        }
      } else if i < N {
        assert t[i].name[0] == 'B';
        assert t[j].name[0] != 'B';
      }
    }
    forall k | 0 <= k < |t|
      ensures Engine.FindPrototype(t[k].name, t) == Some(k)
    {
      Engine.FindPrototypeUnique(t[k].name, t, k);
    }
  }

  /** The unnamed table: IDs are indexes, only blocks are renderable, the world comes first after them, and there is no audicle. */
  lemma PlainTableShape(n: nat)
    ensures var t := PlainTable(n);
      && |t| == n + 2
      && (forall k :: 0 <= k < |t| ==> t[k].prototypeID == k)
      && (forall k :: 0 <= k < |t| ==> (t[k].isRenderable <==> k < n))
      && (forall k :: 0 <= k < n ==> t[k].blockType == k)
      && t[n].isWorld && t[n + 1].isStar
      && (forall k :: 0 <= k < |t| ==> !t[k].isAudicle)
      && FirstWorld(t) == Some(n)
  {
    Engine.FirstWorldUnique(PlainTable(n), n);
  }

  // ---------------------------------------------------------------------
  // Debug worlds
  // ---------------------------------------------------------------------

  /** C++ `/` on int, which truncates toward zero. */
  function CppDiv(a: int, b: int): int
    requires b > 0
  {
    if a >= 0 then a / b else -((-a) / b)
  }

  /** C++ `%` on int, whose result takes the sign of the dividend. */
  function CppMod(a: int, b: int): int
    requires b > 0
  {
    a - b * CppDiv(a, b)
  }

  /** The debug-world cell of type `id`: ((id % 5) * 3, 0, (id / 5) * 3). */
  function GridPosition(id: int): Vec3
  {
    Vec3((CppMod(id, 5) * 3) as real, 0.0, (CppDiv(id, 5) * 3) as real)
  }

  /** Distinct types get distinct cells, negative ones included. */
  lemma GridPositionInjective(a: int, b: int)
    requires GridPosition(a) == GridPosition(b)
    ensures a == b
  {
    assert CppMod(a, 5) * 3 == CppMod(b, 5) * 3;
    assert CppDiv(a, 5) * 3 == CppDiv(b, 5) * 3;
  }

  /** The instance the single-file demo places for a renderable prototype of type `id`. */
  function GameInstance(id: int): EntityInstance
  {
    EntityInstance(0, id, "", GridPosition(id), 0.0, Magenta)
  }

  /** The instances createDebugWorld appends: one per renderable prototype, in table order. */
  function DebugInstances(protos: seq<Entity>): (r: seq<EntityInstance>)
    ensures |r| <= |protos|
  {
    if |protos| == 0 then []
    else
      var k := |protos| - 1;
      DebugInstances(protos[..k]) + (if protos[k].isRenderable then [GameInstance(protos[k].prototypeID)] else [])
  }

  /** WorldSystem of the single-file demo: it owns the instances of the world. */
  class WorldSystem {
    var instances: seq<EntityInstance>

    constructor ()
      ensures instances == []
    {
      instances := [];
    }

    /** createDebugWorld: one instance per renderable prototype, in order, at its type's grid cell. */
    method CreateDebugWorld(protos: seq<Entity>)
      modifies this
      ensures instances == old(instances) + DebugInstances(protos)
    {
      for k := 0 to |protos|
        invariant instances == old(instances) + DebugInstances(protos[..k])
      {
        Common.PrefixSnoc(protos, k);
        assert protos[..k + 1][..k] == protos[..k];
        var prototype := protos[k];
        if prototype.isRenderable {
          var x := CppMod(prototype.prototypeID, 5);
          var z := CppDiv(prototype.prototypeID, 5);
          var instance := EntityInstance(0, prototype.prototypeID, "", Vec3((x * 3) as real, 0.0, (z * 3) as real), 0.0, Magenta);
          instances := instances + [instance];
        }
      }
      assert protos[..|protos|] == protos;
    }
  }

  /** On the demo's own table the debug world holds type k at index k, for every type 0..n-1. */
  lemma {:induction false} DebugWorldOfPlainBlocks(n: nat)
    ensures DebugInstances(PlainBlocks(n)) == seq(n, k requires 0 <= k < n => GameInstance(k))
  {
    if n > 0 {
      assert PlainBlocks(n)[..n - 1] == PlainBlocks(n - 1);
      DebugWorldOfPlainBlocks(n - 1);
    }
  }

  /**
   * The demo's debug world, rendered: there are no stars, and each instance
   * goes to the list of its own type, the branch type to the branch list.
   * Its cells are pairwise distinct.
   */
  lemma DebugWorldRoutes()
    ensures var s := DebugInstances(PlainBlocks(Render.NumBlockTypes));
      && |s| == Render.NumBlockTypes
      && (forall k :: 0 <= k < |s| ==> Render.TypeIdRoutes(s)[k] == if k == Render.BranchType then Render.ToBranch else Render.ToBucket(k))
      && Render.Gather(Render.TypeIdRoutes(s), Render.PositionsOf(s), Render.Skip) == []
      && (forall i, j :: 0 <= i < j < |s| ==> s[i].position != s[j].position)
  {
    var s := DebugInstances(PlainBlocks(Render.NumBlockTypes));
    DebugWorldOfPlainBlocks(Render.NumBlockTypes);
    var R := Render.TypeIdRoutes(s);
    assert Render.Skip !in R;
    forall i, j | 0 <= i < j < |s|
      ensures s[i].position != s[j].position
    {
      if s[i].position == s[j].position {
        GridPositionInjective(i, j);
      }
    }
  }

  /** The per-type lists after one createDebugWorld: every type but the branch type gains its grid cell. */
  function DebugBlocks(b: seq<seq<Vec3>>): (r: seq<seq<Vec3>>)
    ensures |r| == |b|
  {
    seq(|b|, i requires 0 <= i < |b| => if i == Render.BranchType then b[i] else b[i] + [GridPosition(i)])
  }

  /** The branch record createDebugWorld adds: the branch type's cell with rotation 0. */
  function DebugBranch(): Render.BranchVec4
  {
    Render.BranchVec4(GridPosition(Render.BranchType), 0.0)
  }

  /**
   * World of the class-based demo, and the two global vectors of the
   * single-source demo: one position list per block type and one branch
   * list of (position, rotation) records.
   */
  class DebugWorld {
    var blockInstances: seq<seq<Vec3>>
    var branchInstances: seq<seq<Render.BranchVec4>>

    predicate Valid()
      reads this
    {
      |blockInstances| == Render.NumBlockTypes && |branchInstances| == 1
    }

    constructor ()
      ensures Valid()
      ensures blockInstances == seq(Render.NumBlockTypes, _ => []) && branchInstances == [[]]
    {
      blockInstances := seq(Render.NumBlockTypes, _ => []);
      branchInstances := [[]];
    }

    /**
     * createDebugWorld: type i is placed at its grid cell; type 14 goes to
     * the branch list with rotation 0 instead of its own list. Nothing is
     * cleared first, so a second call adds every record again.
     */
    method CreateDebugWorld()
      requires Valid()
      modifies this
      ensures Valid()
      ensures blockInstances == DebugBlocks(old(blockInstances))
      ensures branchInstances == [old(branchInstances[0]) + [DebugBranch()]]
    {
      ghost var b0, r0 := blockInstances, branchInstances[0];
      for i := 0 to Render.NumBlockTypes
        invariant Valid()
        invariant forall j :: 0 <= j < i ==> blockInstances[j] == DebugBlocks(b0)[j]
        invariant forall j :: i <= j < Render.NumBlockTypes ==> blockInstances[j] == b0[j]
        invariant branchInstances == if i > Render.BranchType then [r0 + [DebugBranch()]] else [r0]
      {
        var x := CppMod(i, 5);
        var z := CppDiv(i, 5);
        var position := Vec3((x * 3) as real, 0.0, (z * 3) as real);
        if i == Render.BranchType {
          branchInstances := [branchInstances[0] + [Render.BranchVec4(position, 0.0)]];
        } else {
          blockInstances := blockInstances[i := blockInstances[i] + [position]];
        }
      }
    }

    /** The block draw loop: one instanced draw per non-empty list, the branch list in slot 14. */
    method Draw() returns (draws: seq<Render.DrawCall>)
      requires Valid()
      ensures draws == Render.InstancedDraws(Render.ListSizes(blockInstances, |branchInstances[0]|, Render.BranchType))
    {
      draws := Render.IssueDraws(blockInstances, branchInstances[0], Render.BranchType);
    }
  }

  /** Lists all of length `c` > 0 give one draw of `c` instances per slot, in slot order. */
  lemma {:induction false} UniformDraws(n: nat, c: nat)
    requires c > 0
    ensures Render.InstancedDraws(seq(n, _ => c)) == seq(n, i requires 0 <= i < n => Render.Instanced(i, c))
  {
    if n > 0 {
      assert seq(n, _ => c)[..n - 1] == seq(n - 1, _ => c);
      UniformDraws(n - 1, c);
    }
  }

  /** After `calls` runs of createDebugWorld on a fresh world, every list holds its cell `calls` times. */
  function Repeated(p: Vec3, calls: nat): seq<Vec3>
  {
    seq(calls, _ => p)
  }

  /**
   * A fresh world after one createDebugWorld, and after a second one: each
   * type's list (the branch list for type 14) holds one record, then two,
   * and the draw loop issues exactly one draw per type with that count.
   * The second call is what the single-source demo's global vectors allow.
   */
  lemma {:induction false} DebugWorldDraws(calls: nat)
    requires 1 <= calls <= 2
    ensures var b := if calls == 1 then DebugBlocks(seq(Render.NumBlockTypes, _ => []))
                     else DebugBlocks(DebugBlocks(seq(Render.NumBlockTypes, _ => [])));
      && (forall i :: 0 <= i < |b| && i != Render.BranchType ==> b[i] == Repeated(GridPosition(i), calls))
      && b[Render.BranchType] == []
      && Render.InstancedDraws(Render.ListSizes(b, calls, Render.BranchType))
         == seq(Render.NumBlockTypes, i requires 0 <= i < Render.NumBlockTypes => Render.Instanced(i, calls))
  {
    var e: seq<seq<Vec3>> := seq(Render.NumBlockTypes, _ => []);
    var b := if calls == 1 then DebugBlocks(e) else DebugBlocks(DebugBlocks(e));
    assert Render.ListSizes(b, calls, Render.BranchType) == seq(Render.NumBlockTypes, _ => calls);
    UniformDraws(Render.NumBlockTypes, calls);
  }
}
