/**
 * The fill command of the latest host: every volume world of the level
 * names a block prototype, an origin, float dimensions and a colour key,
 * and gets one instance of that block per integer cell of the box, x
 * outermost, then y, then z.
 *
 * The world vector is updated in place; the box is generated by a triple
 * loop that hands out instance IDs from the shared counter.
 */
module Fill {
  import opened Common
  import Engine

  /**
   * How often `for (int x = 0; x < d; ++x)` runs for a float bound `d`:
   * the least natural number that is not below `d` (the ceiling for a
   * positive bound, zero otherwise).
   */
  function Steps(d: real): (n: nat)
    ensures d <= n as real
    ensures n == 0 || ((n - 1) as real) < d
  {
    if d <= 0.0 then 0
    else if d.Floor as real == d then d.Floor
    else d.Floor + 1
  }

  /** The cells (x, y, 0) .. (x, y, nz-1), offset by the origin. */
  function Column(origin: Vec3, x: nat, y: nat, nz: nat): (r: seq<Vec3>)
    ensures |r| == nz
    ensures forall z :: 0 <= z < nz ==> r[z] == Add(origin, Vec3(x as real, y as real, z as real))
  {
    seq(nz, z requires 0 <= z => Add(origin, Vec3(x as real, y as real, z as real)))
  }

  /** The columns y = 0 .. ny-1 of plane x, in order. */
  function Slab(origin: Vec3, x: nat, ny: nat, nz: nat): seq<Vec3>
  {
    if ny == 0 then [] else Slab(origin, x, ny - 1, nz) + Column(origin, x, ny - 1, nz)
  }

  /** The planes x = 0 .. nx-1, in order: the positions the triple loop visits. */
  function Block(origin: Vec3, nx: nat, ny: nat, nz: nat): seq<Vec3>
  {
    if nx == 0 then [] else Block(origin, nx - 1, ny, nz) + Slab(origin, nx - 1, ny, nz)
  }

  /** Where row `row` of width `width` puts its entry `col` in a flat sequence. */
  function Pos(row: nat, col: nat, width: nat): nat
  {
    row * width + col
  }

  /** Row `row` of `rows` rows lies inside the flat sequence, before the last row when it is not the last. */
  lemma PosBounds(row: nat, col: nat, width: nat, rows: nat)
    requires row < rows && col < width
    ensures Pos(row, col, width) < rows * width
    ensures row < rows - 1 ==> Pos(row, col, width) < (rows - 1) * width
    ensures row == rows - 1 ==> Pos(row, col, width) == (rows - 1) * width + col
    ensures rows * width == (rows - 1) * width + width
  {
    Distrib(rows - 1, 1, width);
    if row < rows - 1 {
      Distrib(row, rows - 1 - row, width);
      Distrib(rows - 2 - row, 1, width);
    }
  }

  lemma Distrib(a: nat, b: nat, w: nat)
    ensures (a + b) * w == a * w + b * w
  {
  }

  /** Plane x holds its ny columns back to back: cell (y, z) sits at y*nz + z. */
  lemma {:induction false} SlabLayout(origin: Vec3, x: nat, ny: nat, nz: nat)
    ensures |Slab(origin, x, ny, nz)| == ny * nz
    ensures forall y, z :: 0 <= y < ny && 0 <= z < nz ==>
      Pos(y, z, nz) < ny * nz && Slab(origin, x, ny, nz)[Pos(y, z, nz)] == Add(origin, Vec3(x as real, y as real, z as real))
  {
    if ny > 0 {
      SlabLayout(origin, x, ny - 1, nz);
      var prev := Slab(origin, x, ny - 1, nz);
      var s := Slab(origin, x, ny, nz);
      assert s == prev + Column(origin, x, ny - 1, nz);
      assert |s| == ny * nz by { PosBoundsWidth(ny, nz); }
      forall y, z | 0 <= y < ny && 0 <= z < nz
        ensures Pos(y, z, nz) < ny * nz && s[Pos(y, z, nz)] == Add(origin, Vec3(x as real, y as real, z as real))
      {
        PosBounds(y, z, nz, ny);
        if y < ny - 1 {
          assert s[Pos(y, z, nz)] == prev[Pos(y, z, nz)];
        } else {
          assert s[Pos(y, z, nz)] == Column(origin, x, y, nz)[z];
        }
      }
    }
  }

  lemma PosBoundsWidth(rows: nat, width: nat)
    requires rows > 0
    ensures rows * width == (rows - 1) * width + width
  {
  }

  /**
   * The visiting order of the triple loop: the box has nx*ny*nz cells, and
   * cell (x, y, z) is visited at position x*(ny*nz) + (y*nz + z), at
   * origin + (x, y, z).
   */
  lemma {:induction false} BlockLayout(origin: Vec3, nx: nat, ny: nat, nz: nat)
    ensures |Block(origin, nx, ny, nz)| == nx * (ny * nz)
    ensures forall x, y, z :: 0 <= x < nx && 0 <= y < ny && 0 <= z < nz ==>
      Pos(x, Pos(y, z, nz), ny * nz) < nx * (ny * nz)
      && Block(origin, nx, ny, nz)[Pos(x, Pos(y, z, nz), ny * nz)] == Add(origin, Vec3(x as real, y as real, z as real))
  {
    if nx > 0 {
      BlockLayout(origin, nx - 1, ny, nz);
      var prev := Block(origin, nx - 1, ny, nz);
      var b := Block(origin, nx, ny, nz);
      var m := ny * nz;
      assert b == prev + Slab(origin, nx - 1, ny, nz);
      SlabLayout(origin, nx - 1, ny, nz);
      assert |b| == nx * m by { PosBoundsWidth(nx, m); }
      forall x, y, z | 0 <= x < nx && 0 <= y < ny && 0 <= z < nz
        ensures Pos(x, Pos(y, z, nz), m) < nx * m
          && b[Pos(x, Pos(y, z, nz), m)] == Add(origin, Vec3(x as real, y as real, z as real))
      {
        SlabLayout(origin, x, ny, nz);
        PosBounds(x, Pos(y, z, nz), m, nx);
        if x < nx - 1 {
          assert b[Pos(x, Pos(y, z, nz), m)] == prev[Pos(x, Pos(y, z, nz), m)];
        } else {
          assert b[Pos(x, Pos(y, z, nz), m)] == Slab(origin, x, ny, nz)[Pos(y, z, nz)];
        }
      }
    }
  }

  /**
   * The instances CreateInstance(baseSystem, id, pos, color) returns for the
   * positions in order: consecutive IDs from `next` with an instance
   * context, the default instance for every cell without one.
   */
  function FillInstances(ps: seq<Vec3>, hasInstance: bool, next: int, prototypeID: int, color: Vec3): (r: seq<EntityInstance>)
    ensures |r| == |ps|
    ensures forall k :: 0 <= k < |ps| ==>
      r[k] == if hasInstance then Stamp(next + k, prototypeID, ps[k], color) else DefaultInstance
  {
    seq(|ps|, k requires 0 <= k < |ps| => if hasInstance then Stamp(next + k, prototypeID, ps[k], color) else DefaultInstance)
  }

  lemma FillInstancesSnoc(ps: seq<Vec3>, p: Vec3, hasInstance: bool, next: int, prototypeID: int, color: Vec3)
    ensures FillInstances(ps + [p], hasInstance, next, prototypeID, color)
      == FillInstances(ps, hasInstance, next, prototypeID, color)
         + [if hasInstance then Stamp(next + |ps|, prototypeID, p, color) else DefaultInstance]
  {
  }

  /** The number of IDs a run of `n` creations consumes. */
  function Used(hasInstance: bool, n: nat): nat
  {
    if hasInstance then n else 0
  }

  /** The fill colour: the library entry for the key, magenta when there is none. */
  function FillColor(colors: map<string, Vec3>, key: string): (c: Vec3)
    ensures key in colors ==> c == colors[key]
    ensures key !in colors ==> c == Magenta
  {
    if key in colors then colors[key] else Magenta
  }

  /** The box of a world's fill command. */
  function FillBox(w: Entity): seq<Vec3>
  {
    Block(w.fillOrigin, Steps(w.fillDimensions.x), Steps(w.fillDimensions.y), Steps(w.fillDimensions.z))
  }

  /**
   * One world after the fill command, with the counter after it: a volume
   * world whose block type resolves gets the box appended; any other world
   * is left as it was.
   */
  function FillWorld(w: Entity, protos: seq<Entity>, colors: map<string, Vec3>, hasInstance: bool, next: int): (r: (Entity, int))
    ensures r.0 == w.(instances := r.0.instances)
    ensures (!w.isVolume || Engine.FindPrototype(w.fillBlockType, protos).None?) ==> r == (w, next)
    ensures w.isVolume && Engine.FindPrototype(w.fillBlockType, protos).Some? ==>
      var i := Engine.FindPrototype(w.fillBlockType, protos).value;
      r.0.instances == w.instances
        + FillInstances(FillBox(w), hasInstance, next, protos[i].prototypeID, FillColor(colors, w.fillColor))
      && r.1 == next + Used(hasInstance, |FillBox(w)|)
  {
    if !w.isVolume then (w, next)
    else match Engine.FindPrototype(w.fillBlockType, protos)
      case None => (w, next)
      case Some(i) =>
        var box := FillBox(w);
        (w.(instances := w.instances + FillInstances(box, hasInstance, next, protos[i].prototypeID, FillColor(colors, w.fillColor))),
         next + Used(hasInstance, |box|))
  }

  /** Every world in order, threading the counter from one to the next. */
  function FillWorlds(ws: seq<Entity>, protos: seq<Entity>, colors: map<string, Vec3>, hasInstance: bool, next: int): (r: (seq<Entity>, int))
    ensures |r.0| == |ws|
  {
    if |ws| == 0 then ([], next)
    else
      var k := |ws| - 1;
      var prev := FillWorlds(ws[..k], protos, colors, hasInstance, next);
      var e := FillWorld(ws[k], protos, colors, hasInstance, prev.1);
      (prev.0 + [e.0], e.1)
  }

  /**
   * The command touches nothing but instance lists, never removes an
   * instance, leaves worlds that are not volumes or whose block type does
   * not resolve exactly as they were, and uses at least as many IDs as it
   * adds cells when there is an instance context.
   */
  lemma {:induction false} FillWorldsKeepsWorlds(ws: seq<Entity>, protos: seq<Entity>, colors: map<string, Vec3>, hasInstance: bool, next: int)
    ensures var r := FillWorlds(ws, protos, colors, hasInstance, next);
      forall k :: 0 <= k < |ws| ==>
        r.0[k] == ws[k].(instances := r.0[k].instances)
        && ws[k].instances <= r.0[k].instances
        && ((!ws[k].isVolume || Engine.FindPrototype(ws[k].fillBlockType, protos).None?) ==> r.0[k] == ws[k])
    ensures next <= FillWorlds(ws, protos, colors, hasInstance, next).1
    ensures !hasInstance ==> FillWorlds(ws, protos, colors, hasInstance, next).1 == next
  {
    if |ws| > 0 {
      var k := |ws| - 1;
      FillWorldsKeepsWorlds(ws[..k], protos, colors, hasInstance, next);
      assert forall i :: 0 <= i < k ==> ws[..k][i] == ws[i];
    }
  }

  lemma FillWorldsSnoc(ws: seq<Entity>, w: Entity, protos: seq<Entity>, colors: map<string, Vec3>, hasInstance: bool, next: int)
    ensures FillWorlds(ws + [w], protos, colors, hasInstance, next)
      == (var prev := FillWorlds(ws, protos, colors, hasInstance, next);
          var e := FillWorld(w, protos, colors, hasInstance, prev.1);
          (prev.0 + [e.0], e.1))
  {
    assert (ws + [w])[..|ws|] == ws;
  }

  /**
   * The triple loop for one box: appends one instance per cell of
   * Block(origin, nx, ny, nz) to `instances`, in visiting order, each made
   * by CreateInstance with the given prototype and colour.
   */
  method FillVolume(bs: Engine.BaseSystem, origin: Vec3, nx: nat, ny: nat, nz: nat, prototypeID: int, color: Vec3, instances: seq<EntityInstance>)
    returns (filled: seq<EntityInstance>)
    requires bs.Valid()
    modifies bs`nextInstanceID, bs`issued
    ensures bs.Valid()
    ensures filled == instances + FillInstances(Block(origin, nx, ny, nz), bs.hasInstance, old(bs.nextInstanceID), prototypeID, color)
    ensures bs.nextInstanceID == old(bs.nextInstanceID) + Used(bs.hasInstance, |Block(origin, nx, ny, nz)|)
  {
    filled := instances;
    ghost var n0 := bs.nextInstanceID;
    for x := 0 to nx
      invariant bs.Valid()
      invariant filled == instances + FillInstances(Block(origin, x, ny, nz), bs.hasInstance, n0, prototypeID, color)
      invariant bs.nextInstanceID == n0 + Used(bs.hasInstance, |Block(origin, x, ny, nz)|)
    {
      ghost var done := Block(origin, x, ny, nz);
      for y := 0 to ny
        invariant bs.Valid()
        invariant filled == instances + FillInstances(done + Slab(origin, x, y, nz), bs.hasInstance, n0, prototypeID, color)
        invariant bs.nextInstanceID == n0 + Used(bs.hasInstance, |done + Slab(origin, x, y, nz)|)
      {
        ghost var before := done + Slab(origin, x, y, nz);
        for z := 0 to nz
          invariant bs.Valid()
          invariant filled == instances + FillInstances(before + Column(origin, x, y, z), bs.hasInstance, n0, prototypeID, color)
          invariant bs.nextInstanceID == n0 + Used(bs.hasInstance, |before + Column(origin, x, y, z)|)
        {
          var pos := Add(origin, Vec3(x as real, y as real, z as real));
          var inst := bs.CreateInstance(prototypeID, pos, color);
          FillInstancesSnoc(before + Column(origin, x, y, z), pos, bs.hasInstance, n0, prototypeID, color);
          assert before + Column(origin, x, y, z + 1) == (before + Column(origin, x, y, z)) + [pos];
          filled := filled + [inst];
        }
        assert done + Slab(origin, x, y + 1, nz) == before + Column(origin, x, y, nz);
      }
      assert Block(origin, x + 1, ny, nz) == done + Slab(origin, x, ny, nz);
    }
  }

  /** The body of the world loop: fills world `i` in place when it is a volume whose block type resolves. */
  method FillOne(bs: Engine.BaseSystem, i: nat, prototypes: seq<Entity>)
    requires bs.Valid() && i < |bs.worlds|
    modifies bs`worlds, bs`nextInstanceID, bs`issued
    ensures bs.Valid()
    ensures var e := FillWorld(old(bs.worlds[i]), prototypes, bs.colorLibrary, bs.hasInstance, old(bs.nextInstanceID));
      bs.worlds == old(bs.worlds)[i := e.0] && bs.nextInstanceID == e.1
  {
    var w := bs.worlds[i];
    if w.isVolume {
      var found := Engine.FindPrototypeIndex(w.fillBlockType, prototypes);
      if found.Some? {
        var color := FillColor(bs.colorLibrary, w.fillColor);
        var filled := FillVolume(bs, w.fillOrigin, Steps(w.fillDimensions.x), Steps(w.fillDimensions.y), Steps(w.fillDimensions.z),
                                 prototypes[found.value].prototypeID, color, w.instances);
        bs.worlds := bs.worlds[i := w.(instances := filled)];
      }
    }
  }

  /** One more world filled in place: the filled prefix grows by one and the rest is untouched. */
  lemma FillStep(ws: seq<Entity>, i: nat, before: seq<Entity>, nb: int, after: seq<Entity>, na: int,
                 protos: seq<Entity>, colors: map<string, Vec3>, hasInstance: bool, n0: int)
    requires i < |ws| && |before| == |ws|
    requires before[..i] == FillWorlds(ws[..i], protos, colors, hasInstance, n0).0 && before[i..] == ws[i..]
    requires nb == FillWorlds(ws[..i], protos, colors, hasInstance, n0).1
    requires var e := FillWorld(before[i], protos, colors, hasInstance, nb); after == before[i := e.0] && na == e.1
    ensures |after| == |ws|
    ensures after[..i + 1] == FillWorlds(ws[..i + 1], protos, colors, hasInstance, n0).0 && after[i + 1..] == ws[i + 1..]
    ensures na == FillWorlds(ws[..i + 1], protos, colors, hasInstance, n0).1
  {
    FillWorldsSnoc(ws[..i], ws[i], protos, colors, hasInstance, n0);
    assert ws[..i + 1] == ws[..i] + [ws[i]];
    assert before[i] == ws[i] by { assert before[i..][0] == ws[i..][0]; }
    assert after[..i + 1] == before[..i] + [after[i]];
    assert after[i + 1..] == before[i + 1..];
  }

  /**
   * ProcessFillCommands: without a level or a world context nothing
   * happens; otherwise every world of the level is replaced by its filled
   * form, in order, and the counter moves on past every ID handed out.
   */
  method ProcessFillCommands(bs: Engine.BaseSystem, prototypes: seq<Entity>)
    requires bs.Valid()
    modifies bs`worlds, bs`nextInstanceID, bs`issued
    ensures bs.Valid()
    ensures !bs.hasLevel || !bs.hasWorld ==>
      bs.worlds == old(bs.worlds) && bs.nextInstanceID == old(bs.nextInstanceID)
    ensures bs.hasLevel && bs.hasWorld ==>
      var r := FillWorlds(old(bs.worlds), prototypes, bs.colorLibrary, bs.hasInstance, old(bs.nextInstanceID));
      bs.worlds == r.0 && bs.nextInstanceID == r.1
  {
    if !bs.hasLevel || !bs.hasWorld {
      return;
    }
    ghost var ws := bs.worlds;
    ghost var n0 := bs.nextInstanceID;
    for i := 0 to |bs.worlds|
      invariant bs.Valid()
      invariant |bs.worlds| == |ws|
      invariant bs.worlds[..i] == FillWorlds(ws[..i], prototypes, bs.colorLibrary, bs.hasInstance, n0).0
      invariant bs.worlds[i..] == ws[i..]
      invariant bs.nextInstanceID == FillWorlds(ws[..i], prototypes, bs.colorLibrary, bs.hasInstance, n0).1
    {
      ghost var before, nb := bs.worlds, bs.nextInstanceID;
      FillOne(bs, i, prototypes);
      FillStep(ws, i, before, nb, bs.worlds, bs.nextInstanceID, prototypes, bs.colorLibrary, bs.hasInstance, n0);
    }
    assert ws[..|ws|] == ws;
    assert bs.worlds == bs.worlds[..|ws|];
  }
}
