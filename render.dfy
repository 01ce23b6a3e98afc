/**
 * Render batching: every rewrite sorts the world's instances into per-kind
 * lists, keeps branch blocks (which also carry a rotation) apart, collects
 * star positions, and issues one instanced draw per non-empty list. The GL
 * calls are abstracted as a sequence of draw records.
 *
 * Each instance is sent along a `Route`: into bucket i, into the branch list,
 * or nowhere. A bucket's contents are the instances routed to it, in list
 * order (`Gather`); the conservation lemmas are stated once over routes.
 */
module Render {
  import opened Common
  import opened Engine

  /** Where the batching loop puts one instance. */
  datatype Route = ToBucket(index: nat) | ToBranch | Skip

  /** The items whose route is `r`, in order. */
  function Gather<T>(routes: seq<Route>, items: seq<T>, r: Route): (g: seq<T>)
    requires |routes| == |items|
    ensures |g| == multiset(routes)[r]
  {
    if |routes| == 0 then []
    else
      var k := |routes| - 1;
      assert routes == routes[..k] + [routes[k]];
      Gather(routes[..k], items[..k], r) + (if routes[k] == r then [items[k]] else [])
  }

  lemma GatherSnoc<T>(routes: seq<Route>, items: seq<T>, x: Route, d: T, r: Route)
    requires |routes| == |items|
    ensures Gather(routes + [x], items + [d], r) == Gather(routes, items, r) + (if x == r then [d] else [])
  {
    assert (routes + [x])[..|routes|] == routes;
    assert (items + [d])[..|items|] == items;
  }

  /** The number of items routed to buckets 0 .. n-1. */
  function BucketTotal(m: multiset<Route>, n: nat): nat
  {
    if n == 0 then 0 else BucketTotal(m, n - 1) + m[ToBucket(n - 1)]
  }

  lemma {:induction false} BucketTotalEmpty(n: nat)
    ensures BucketTotal(multiset{}, n) == 0
  {
    if n > 0 {
      BucketTotalEmpty(n - 1);
    }
  }

  lemma {:induction false} BucketTotalAdd(m: multiset<Route>, x: Route, n: nat)
    ensures BucketTotal(m + multiset{x}, n) == BucketTotal(m, n) + (if x.ToBucket? && x.index < n then 1 else 0)
  {
    if n > 0 {
      BucketTotalAdd(m, x, n - 1);
    }
  }

  /**
   * Conservation: when every bucket index is below n, each instance is
   * counted exactly once among the buckets, the branch list and the skipped.
   */
  lemma {:induction false} RoutesConserved(routes: seq<Route>, n: nat)
    requires forall k :: 0 <= k < |routes| && routes[k].ToBucket? ==> routes[k].index < n
    ensures BucketTotal(multiset(routes), n) + multiset(routes)[ToBranch] + multiset(routes)[Skip] == |routes|
  {
    if |routes| > 0 {
      var k := |routes| - 1;
      var x := routes[k];
      assert routes == routes[..k] + [x];
      var mp := multiset(routes[..k]);
      assert multiset(routes) == mp + multiset{x};
      RoutesConserved(routes[..k], n);
      BucketTotalAdd(mp, x, n);
      assert (mp + multiset{x})[ToBranch] == mp[ToBranch] + (if x == ToBranch then 1 else 0);
      assert (mp + multiset{x})[Skip] == mp[Skip] + (if x == Skip then 1 else 0);
      assert x.ToBucket? ==> x.index < n;
    } else {
      BucketTotalEmpty(n);
    }
  }

  /** One issued draw: the star point cloud, or an instanced block draw for one slot. */
  datatype DrawCall = StarPoints(count: nat) | Instanced(slot: nat, count: nat)

  /** One instanced draw per slot with a non-empty list, in slot order. */
  function InstancedDraws(sizes: seq<nat>): seq<DrawCall>
  {
    if |sizes| == 0 then []
    else
      var k := |sizes| - 1;
      InstancedDraws(sizes[..k]) + (if sizes[k] > 0 then [Instanced(k, sizes[k])] else [])
  }

  function Sum(xs: seq<nat>): nat
  {
    if |xs| == 0 then 0 else Sum(xs[..|xs| - 1]) + xs[|xs| - 1]
  }

  function DrawnTotal(d: seq<DrawCall>): nat
  {
    if |d| == 0 then 0 else DrawnTotal(d[..|d| - 1]) + d[|d| - 1].count
  }

  lemma DrawnTotalAppend(d: seq<DrawCall>, e: seq<DrawCall>)
    ensures DrawnTotal(d + e) == DrawnTotal(d) + DrawnTotal(e)
    decreases |e|
  {
    if |e| > 0 {
      var k := |e| - 1;
      assert (d + e)[..|d| + k] == d + e[..k];
      assert (d + e)[|d| + k] == e[k];
      DrawnTotalAppend(d, e[..k]);
      assert DrawnTotal(d + e) == DrawnTotal(d + e[..k]) + e[k].count;
      assert DrawnTotal(e) == DrawnTotal(e[..k]) + e[k].count;
    } else {
      assert d + e == d;
    }
  }

  /**
   * The draw loop's records: every draw names a slot whose list is
   * non-empty and carries that list's size, slots strictly increase, and
   * every non-empty slot is drawn.
   */
  lemma {:induction false} InstancedDrawsShape(sizes: seq<nat>)
    ensures forall k :: 0 <= k < |InstancedDraws(sizes)| ==>
      var d := InstancedDraws(sizes)[k];
      d.Instanced? && d.slot < |sizes| && d.count == sizes[d.slot] && d.count > 0
    ensures forall j, k :: 0 <= j < k < |InstancedDraws(sizes)| ==>
      InstancedDraws(sizes)[j].slot < InstancedDraws(sizes)[k].slot
    ensures forall i :: 0 <= i < |sizes| && sizes[i] > 0 ==>
      exists k :: 0 <= k < |InstancedDraws(sizes)| && InstancedDraws(sizes)[k].slot == i
  {
    if |sizes| > 0 {
      var k := |sizes| - 1;
      var pre := sizes[..k];
      InstancedDrawsShape(pre);
      var dp := InstancedDraws(pre);
      var d := InstancedDraws(sizes);
      assert d == dp + (if sizes[k] > 0 then [Instanced(k, sizes[k])] else []);
      forall i | 0 <= i < |sizes| && sizes[i] > 0
        ensures exists q :: 0 <= q < |d| && d[q].slot == i
      {
        if i < k {
          assert pre[i] == sizes[i];
          var q :| 0 <= q < |dp| && dp[q].slot == i;
          assert d[q] == dp[q];
        } else {
          assert d[|dp|].slot == i;
        }
      }
    }
  }

  /** The draws account for every listed item: their counts add up to the list sizes. */
  lemma {:induction false} InstancedDrawsTotal(sizes: seq<nat>)
    ensures DrawnTotal(InstancedDraws(sizes)) == Sum(sizes)
  {
    if |sizes| > 0 {
      var k := |sizes| - 1;
      InstancedDrawsTotal(sizes[..k]);
      DrawnTotalAppend(InstancedDraws(sizes[..k]), if sizes[k] > 0 then [Instanced(k, sizes[k])] else []);
      assert DrawnTotal([Instanced(k, sizes[k])]) == sizes[k] by {
        assert [Instanced(k, sizes[k])][..0] == [];
      }
    }
  }

  /** The size the draw loop sees at slot i: the branch list at `branchSlot`, bucket i elsewhere. */
  function ListSizes<T>(buckets: seq<seq<T>>, branchCount: nat, branchSlot: nat): (r: seq<nat>)
    ensures |r| == |buckets|
  {
    seq(|buckets|, i requires 0 <= i < |buckets| => if i == branchSlot then branchCount else |buckets[i]|)
  }

  /** The same sizes read off the routes: the branch count at `branchSlot`, bucket counts elsewhere. */
  function SlotSizes(m: multiset<Route>, n: nat, branchSlot: nat): (r: seq<nat>)
    ensures |r| == n
    ensures forall i :: 0 <= i < n ==> r[i] == if i == branchSlot then m[ToBranch] else m[ToBucket(i)]
  {
    if n == 0 then []
    else SlotSizes(m, n - 1, branchSlot) + [if n - 1 == branchSlot then m[ToBranch] else m[ToBucket(n - 1)]]
  }

  lemma SumSnoc(xs: seq<nat>, x: nat)
    ensures Sum(xs + [x]) == Sum(xs) + x
  {
    assert (xs + [x])[..|xs|] == xs;
  }

  /** The sizes of the branch slot and the buckets, when the bucket sizes are `c` and the branch holds `b`. */
  function SlotList(c: seq<nat>, b: nat, branchSlot: nat): (r: seq<nat>)
    ensures |r| == |c|
  {
    seq(|c|, i requires 0 <= i < |c| => if i == branchSlot then b else c[i])
  }

  /** Putting the branch count in place of one bucket's count changes the total by their difference. */
  lemma {:induction false} SlotListSum(c: seq<nat>, b: nat, branchSlot: nat)
    ensures Sum(SlotList(c, b, branchSlot)) + (if branchSlot < |c| then c[branchSlot] else 0)
      == Sum(c) + (if branchSlot < |c| then b else 0)
    decreases |c|
  {
    if |c| > 0 {
      var n := |c| - 1;
      var c' := c[..n];
      SlotListSum(c', b, branchSlot);
      var r := SlotList(c, b, branchSlot);
      assert r[..n] == SlotList(c', b, branchSlot);
      if branchSlot < n {
        assert c'[branchSlot] == c[branchSlot];
      }
    }
  }

  /** The bucket counts of the routes, bucket by bucket. */
  function BucketCounts(m: multiset<Route>, n: nat): (r: seq<nat>)
    ensures |r| == n
  {
    seq(n, i requires 0 <= i < n => m[ToBucket(i)])
  }

  lemma {:induction false} BucketTotalIsSum(m: multiset<Route>, n: nat)
    ensures BucketTotal(m, n) == Sum(BucketCounts(m, n))
  {
    if n > 0 {
      BucketTotalIsSum(m, n - 1);
      assert BucketCounts(m, n)[..n - 1] == BucketCounts(m, n - 1);
    }
  }

  /** The slot sizes add up to the bucket total, with the branch count standing in for the branch slot's bucket. */
  lemma SlotSizesSum(m: multiset<Route>, n: nat, branchSlot: nat)
    ensures Sum(SlotSizes(m, n, branchSlot)) + (if branchSlot < n then m[ToBucket(branchSlot)] else 0)
      == BucketTotal(m, n) + (if branchSlot < n then m[ToBranch] else 0)
  {
    var c := BucketCounts(m, n);
    assert SlotSizes(m, n, branchSlot) == SlotList(c, m[ToBranch], branchSlot);
    SlotListSum(c, m[ToBranch], branchSlot);
    BucketTotalIsSum(m, n);
  }

  /**
   * The draw loop of every rewrite: for each slot in order, the branch list
   * at `branchSlot` and bucket i elsewhere; a draw only for a non-empty list.
   */
  method IssueDraws<T, U>(buckets: seq<seq<T>>, branch: seq<U>, branchSlot: nat) returns (draws: seq<DrawCall>)
    ensures draws == InstancedDraws(ListSizes(buckets, |branch|, branchSlot))
  {
    ghost var sizes := ListSizes(buckets, |branch|, branchSlot);
    draws := [];
    for i := 0 to |buckets|
      invariant draws == InstancedDraws(sizes[..i])
    {
      assert sizes[..i + 1][..i] == sizes[..i];
      if i == branchSlot {
        if |branch| > 0 {
          draws := draws + [Instanced(i, |branch|)];
        }
      } else {
        if |buckets[i]| > 0 {
          draws := draws + [Instanced(i, |buckets[i]|)];
        }
      }
    }
    assert sizes[..|buckets|] == sizes;
  }

  /** The positions of the instances whose prototype is a star, in order. */
  function StarsOf(protos: seq<Entity>, s: seq<EntityInstance>): (r: seq<Vec3>)
    ensures |r| <= |s|
  {
    if |s| == 0 then []
    else
      var x := s[|s| - 1];
      StarsOf(protos, s[..|s| - 1]) + (if 0 <= x.prototypeID < |protos| && protos[x.prototypeID].isStar then [x.position] else [])
  }

  lemma StarsOfSnoc(protos: seq<Entity>, s: seq<EntityInstance>, x: EntityInstance)
    ensures StarsOf(protos, s + [x])
      == StarsOf(protos, s) + (if 0 <= x.prototypeID < |protos| && protos[x.prototypeID].isStar then [x.position] else [])
  {
    assert (s + [x])[..|s|] == s;
  }

  /** Every star instance's position is collected, and only star positions are. */
  lemma {:induction false} StarsOfMembership(protos: seq<Entity>, s: seq<EntityInstance>)
    requires IndexesInto(s, protos)
    ensures forall k :: 0 <= k < |s| && protos[s[k].prototypeID].isStar ==> s[k].position in StarsOf(protos, s)
    ensures forall p :: p in StarsOf(protos, s) ==>
      exists k :: 0 <= k < |s| && protos[s[k].prototypeID].isStar && s[k].position == p
  {
    if |s| > 0 {
      var j := |s| - 1;
      var pre := s[..j];
      StarsOfMembership(protos, pre);
      StarsOfSnoc(protos, pre, s[j]);
      assert pre + [s[j]] == s;
      forall p | p in StarsOf(protos, s)
        ensures exists k :: 0 <= k < |s| && protos[s[k].prototypeID].isStar && s[k].position == p
      {
        if p in StarsOf(protos, pre) {
          var k :| 0 <= k < |pre| && protos[pre[k].prototypeID].isStar && pre[k].position == p;
          assert s[k] == pre[k];
        } else {
          assert protos[s[j].prototypeID].isStar && s[j].position == p;
        }
      }
      forall k | 0 <= k < |s| && protos[s[k].prototypeID].isStar
        ensures s[k].position in StarsOf(protos, s)
      {
        if k < j {
          assert pre[k] == s[k];
        }
      }
    }
  }

  /** The star-collecting loop over one world's instances. */
  method CollectStars(protos: seq<Entity>, s: seq<EntityInstance>) returns (stars: seq<Vec3>)
    requires IndexesInto(s, protos)
    ensures stars == StarsOf(protos, s)
  {
    stars := [];
    for k := 0 to |s|
      invariant stars == StarsOf(protos, s[..k])
    {
      StarsOfSnoc(protos, s[..k], s[k]);
      PrefixSnoc(s, k);
      if protos[s[k].prototypeID].isStar {
        stars := stars + [s[k].position];
      }
    }
    assert s[..|s|] == s;
  }

  /** The star draw of 12/, 13/ and 23/: issued only for a non-empty list. */
  function StarDraw(stars: seq<Vec3>): seq<DrawCall>
  {
    if |stars| == 0 then [] else [StarPoints(|stars|)]
  }

  // ---------------------------------------------------------------------------
  // Behaviour buckets (12/, 13/, 23/)
  // ---------------------------------------------------------------------------

  /** RenderBehavior, in enum order. */
  datatype Behavior = StaticDefault | AnimatedWater | AnimatedWireframe | StaticBranch | AnimatedTransparentWave

  const BehaviorCount: nat := 5

  function BehaviorIndex(b: Behavior): (i: nat)
    ensures i < BehaviorCount
    ensures b == StaticBranch <==> i == 3
  {
    match b
    case StaticDefault => 0
    case AnimatedWater => 1
    case AnimatedWireframe => 2
    case StaticBranch => 3
    case AnimatedTransparentWave => 4
  }

  /**
   * The behaviour if-chain: the first matching rule wins, names before
   * flags; a prototype matching no rule is STATIC_DEFAULT.
   */
  function Classify(proto: Entity): (b: Behavior)
    ensures proto.name == "Branch" ==> b == StaticBranch
    ensures proto.name == "Water" ==> b == AnimatedWater
    ensures proto.name == "TransparentWave" ==> b == AnimatedTransparentWave
    ensures b == StaticBranch ==> proto.name == "Branch"
    ensures b == AnimatedWater ==> proto.name == "Water"
    ensures b == AnimatedTransparentWave ==> proto.name == "TransparentWave"
    ensures b == AnimatedWireframe <==>
      proto.name != "Branch" && proto.name != "Water" && proto.name != "TransparentWave" && proto.hasWireframe && proto.isAnimated
  {
    if proto.name == "Branch" then StaticBranch
    else if proto.name == "Water" then AnimatedWater
    else if proto.name == "TransparentWave" then AnimatedTransparentWave
    else if proto.hasWireframe && proto.isAnimated then AnimatedWireframe
    else StaticDefault
  }

  /** Only renderable blocks are batched; branches go to their own list. */
  function BehaviorRoute(protos: seq<Entity>, x: EntityInstance): (r: Route)
    ensures r.ToBucket? ==> r.index < BehaviorCount && r.index != BehaviorIndex(StaticBranch)
  {
    if !(0 <= x.prototypeID < |protos|) then Skip
    else
      var proto := protos[x.prototypeID];
      if !(proto.isRenderable && proto.isBlock) then Skip
      else if Classify(proto) == StaticBranch then ToBranch
      else ToBucket(BehaviorIndex(Classify(proto)))
  }

  function BehaviorRoutes(protos: seq<Entity>, s: seq<EntityInstance>): seq<Route>
  {
    seq(|s|, k requires 0 <= k < |s| => BehaviorRoute(protos, s[k]))
  }

  /** InstanceData: position and colour. */
  datatype InstanceData = InstanceData(position: Vec3, color: Vec3)

  /** BranchInstanceData: position, rotation and colour. */
  datatype BranchInstanceData = BranchInstanceData(position: Vec3, rotation: real, color: Vec3)

  function InstanceDataOf(s: seq<EntityInstance>): seq<InstanceData>
  {
    seq(|s|, k requires 0 <= k < |s| => InstanceData(s[k].position, s[k].color))
  }

  function BranchDataOf(s: seq<EntityInstance>): seq<BranchInstanceData>
  {
    seq(|s|, k requires 0 <= k < |s| => BranchInstanceData(s[k].position, s[k].rotation, s[k].color))
  }

  lemma BehaviorSnoc(protos: seq<Entity>, s: seq<EntityInstance>, x: EntityInstance)
    ensures BehaviorRoutes(protos, s + [x]) == BehaviorRoutes(protos, s) + [BehaviorRoute(protos, x)]
    ensures InstanceDataOf(s + [x]) == InstanceDataOf(s) + [InstanceData(x.position, x.color)]
    ensures BranchDataOf(s + [x]) == BranchDataOf(s) + [BranchInstanceData(x.position, x.rotation, x.color)]
  {
  }

  /** The behaviour buckets of a list of instances, as the batching loop leaves them. */
  predicate BehaviorBatched(protos: seq<Entity>, s: seq<EntityInstance>, buckets: seq<seq<InstanceData>>, branch: seq<BranchInstanceData>)
  {
    |buckets| == BehaviorCount
    && (forall i :: 0 <= i < BehaviorCount ==> buckets[i] == Gather(BehaviorRoutes(protos, s), InstanceDataOf(s), ToBucket(i)))
    && branch == Gather(BehaviorRoutes(protos, s), BranchDataOf(s), ToBranch)
  }

  /** One step of the behaviour batching loop, shared by 12/, 13/ and 23/. */
  method BatchOne(protos: seq<Entity>, buckets: seq<seq<InstanceData>>, branch: seq<BranchInstanceData>, inst: EntityInstance,
                  ghost done: seq<EntityInstance>)
    returns (buckets': seq<seq<InstanceData>>, branch': seq<BranchInstanceData>)
    requires 0 <= inst.prototypeID < |protos|
    requires BehaviorBatched(protos, done, buckets, branch)
    ensures BehaviorBatched(protos, done + [inst], buckets', branch')
  {
    ghost var R := BehaviorRoutes(protos, done);
    ghost var r := BehaviorRoute(protos, inst);
    BehaviorSnoc(protos, done, inst);
    forall i | 0 <= i < BehaviorCount
      ensures Gather(R + [r], InstanceDataOf(done) + [InstanceData(inst.position, inst.color)], ToBucket(i))
        == Gather(R, InstanceDataOf(done), ToBucket(i)) + (if r == ToBucket(i) then [InstanceData(inst.position, inst.color)] else [])
    {
      GatherSnoc(R, InstanceDataOf(done), r, InstanceData(inst.position, inst.color), ToBucket(i));
    }
    GatherSnoc(R, BranchDataOf(done), r, BranchInstanceData(inst.position, inst.rotation, inst.color), ToBranch);
    buckets', branch' := buckets, branch;
    var proto := protos[inst.prototypeID];
    if proto.isRenderable && proto.isBlock {
      var behavior := Classify(proto);
      if behavior == StaticBranch {
        branch' := branch + [BranchInstanceData(inst.position, inst.rotation, inst.color)];
      } else {
        var b := BehaviorIndex(behavior);
        buckets' := buckets[b := buckets[b] + [InstanceData(inst.position, inst.color)]];
      }
    }
  }

  /** The batching loop of 12/ and 13/ over one world's instances. */
  method BatchByBehavior(protos: seq<Entity>, s: seq<EntityInstance>) returns (buckets: seq<seq<InstanceData>>, branch: seq<BranchInstanceData>)
    requires IndexesInto(s, protos)
    ensures BehaviorBatched(protos, s, buckets, branch)
  {
    buckets := seq(BehaviorCount, _ => []);
    branch := [];
    for k := 0 to |s|
      invariant BehaviorBatched(protos, s[..k], buckets, branch)
    {
      PrefixSnoc(s, k);
      buckets, branch := BatchOne(protos, buckets, branch, s[k], s[..k]);
    }
    assert s[..|s|] == s;
  }

  /** The draw sizes of the behaviour slots, read off the routes (slot 3 draws the branch list). */
  function BehaviorSizes(protos: seq<Entity>, s: seq<EntityInstance>): seq<nat>
  {
    SlotSizes(multiset(BehaviorRoutes(protos, s)), BehaviorCount, BehaviorIndex(StaticBranch))
  }

  lemma BehaviorDrawSizes(protos: seq<Entity>, s: seq<EntityInstance>, buckets: seq<seq<InstanceData>>, branch: seq<BranchInstanceData>)
    requires BehaviorBatched(protos, s, buckets, branch)
    ensures ListSizes(buckets, |branch|, BehaviorIndex(StaticBranch)) == BehaviorSizes(protos, s)
  {
  }

  /**
   * Every renderable block lands in exactly one list: the draw sizes add up
   * to the number of instances that are not skipped, and an instance is
   * skipped exactly when its prototype is not both renderable and a block.
   */
  lemma BehaviorConserved(protos: seq<Entity>, s: seq<EntityInstance>)
    requires IndexesInto(s, protos)
    ensures Sum(BehaviorSizes(protos, s)) + multiset(BehaviorRoutes(protos, s))[Skip] == |s|
    ensures forall k :: 0 <= k < |s| ==>
      (BehaviorRoutes(protos, s)[k] == Skip <==> !(protos[s[k].prototypeID].isRenderable && protos[s[k].prototypeID].isBlock))
  {
    var R := BehaviorRoutes(protos, s);
    RoutesConserved(R, BehaviorCount);
    SlotSizesSum(multiset(R), BehaviorCount, 3);
    assert multiset(R)[ToBucket(3)] == 0 by {
      assert ToBucket(3) !in R;
    }
  }

  /**
   * RenderScene's block part in 13/ (12/ is the same on a flat BaseSystem):
   * without an isWorld prototype nothing is drawn; otherwise the star draw
   * when there are stars, then one draw per non-empty behaviour list.
   */
  method RenderWorldBehaviors(protos: seq<Entity>) returns (calls: seq<DrawCall>)
    requires FirstWorld(protos).Some? ==> IndexesInto(protos[FirstWorld(protos).value].instances, protos)
    ensures FirstWorld(protos).None? ==> calls == []
    ensures FirstWorld(protos).Some? ==>
      var s := protos[FirstWorld(protos).value].instances;
      calls == StarDraw(StarsOf(protos, s)) + InstancedDraws(BehaviorSizes(protos, s))
  {
    var found := FindWorldIndex(protos);
    if found.None? {
      return [];
    }
    var s := protos[found.value].instances;
    var stars := CollectStars(protos, s);
    var buckets, branch := BatchByBehavior(protos, s);
    var draws := IssueDraws(buckets, branch, BehaviorIndex(StaticBranch));
    BehaviorDrawSizes(protos, s, buckets, branch);
    calls := (if |stars| == 0 then [] else [StarPoints(|stars|)]) + draws;
  }

  /** All instances of all worlds, world by world. */
  function Flatten(worlds: seq<Entity>): seq<EntityInstance>
  {
    if |worlds| == 0 then [] else Flatten(worlds[..|worlds| - 1]) + worlds[|worlds| - 1].instances
  }

  /** The inner loop of RenderScene of 23/: one world's instances, stars and batches collected in one walk. */
  method BatchWorldInstances(protos: seq<Entity>, s: seq<EntityInstance>, stars0: seq<Vec3>,
                             buckets0: seq<seq<InstanceData>>, branch0: seq<BranchInstanceData>,
                             ghost done0: seq<EntityInstance>)
    returns (stars: seq<Vec3>, buckets: seq<seq<InstanceData>>, branch: seq<BranchInstanceData>)
    requires IndexesInto(s, protos)
    requires stars0 == StarsOf(protos, done0) && BehaviorBatched(protos, done0, buckets0, branch0)
    ensures stars == StarsOf(protos, done0 + s) && BehaviorBatched(protos, done0 + s, buckets, branch)
  {
    stars, buckets, branch := stars0, buckets0, branch0;
    ghost var done := done0;
    for k := 0 to |s|
      invariant done == done0 + s[..k]
      invariant stars == StarsOf(protos, done)
      invariant BehaviorBatched(protos, done, buckets, branch)
    {
      stars, buckets, branch := CollectOne(protos, stars, buckets, branch, s[k], done);
      PrefixSnoc(s, k);
      done := done + [s[k]];
    }
    assert s[..|s|] == s;
  }

  /** One step of the walk of 23/: a star's position is collected, then the instance is batched. */
  method CollectOne(protos: seq<Entity>, stars: seq<Vec3>, buckets: seq<seq<InstanceData>>, branch: seq<BranchInstanceData>,
                    inst: EntityInstance, ghost done: seq<EntityInstance>)
    returns (stars': seq<Vec3>, buckets': seq<seq<InstanceData>>, branch': seq<BranchInstanceData>)
    requires 0 <= inst.prototypeID < |protos|
    requires stars == StarsOf(protos, done) && BehaviorBatched(protos, done, buckets, branch)
    ensures stars' == StarsOf(protos, done + [inst]) && BehaviorBatched(protos, done + [inst], buckets', branch')
  {
    StarsOfSnoc(protos, done, inst);
    stars' := stars;
    if protos[inst.prototypeID].isStar {
      stars' := stars + [inst.position];
    }
    buckets', branch' := BatchOne(protos, buckets, branch, inst, done);
  }

  /**
   * RenderScene of 23/: nothing but the screen clear without the renderer,
   * world, player or level context; otherwise instances of every world of
   * the level are batched, with stars collected in the same walk.
   */
  method RenderLevelScene(hasRenderer: bool, hasWorld: bool, hasPlayer: bool, hasLevel: bool,
                          worlds: seq<Entity>, protos: seq<Entity>) returns (calls: seq<DrawCall>)
    requires hasLevel ==> forall w :: 0 <= w < |worlds| ==> IndexesInto(worlds[w].instances, protos)
    ensures !(hasRenderer && hasWorld && hasPlayer && hasLevel) ==> calls == []
    ensures hasRenderer && hasWorld && hasPlayer && hasLevel ==>
      calls == StarDraw(StarsOf(protos, Flatten(worlds))) + InstancedDraws(BehaviorSizes(protos, Flatten(worlds)))
  {
    if !hasRenderer || !hasWorld || !hasPlayer || !hasLevel {
      return [];
    }
    var stars: seq<Vec3> := [];
    var buckets: seq<seq<InstanceData>> := seq(BehaviorCount, _ => []);
    var branch: seq<BranchInstanceData> := [];
    ghost var done: seq<EntityInstance> := [];
    for w := 0 to |worlds|
      invariant done == Flatten(worlds[..w])
      invariant stars == StarsOf(protos, done)
      invariant BehaviorBatched(protos, done, buckets, branch)
    {
      var s := worlds[w].instances;
      stars, buckets, branch := BatchWorldInstances(protos, s, stars, buckets, branch, done);
      done := done + s;
      assert worlds[..w + 1][..w] == worlds[..w];
    }
    assert worlds[..|worlds|] == worlds;
    var draws := IssueDraws(buckets, branch, BehaviorIndex(StaticBranch));
    BehaviorDrawSizes(protos, done, buckets, branch);
    calls := (if |stars| == 0 then [] else [StarPoints(|stars|)]) + draws;
  }

  // ---------------------------------------------------------------------------
  // Block-type buckets (5/, 7/, 8/, 10/, data_game.cpp)
  // ---------------------------------------------------------------------------

  /** The branch block type, drawn from its own list of (position, rotation). */
  const BranchType: nat := 14

  /** NUM_BLOCK_PROTOTYPES / NUM_BLOCK_TYPES of 5/ and data_game.cpp. */
  const NumBlockTypes: nat := 25

  /** A branch instance record, glm::vec4(position, rotation). */
  datatype BranchVec4 = BranchVec4(position: Vec3, rotation: real)

  /** Type 14 goes to the branch list, 0 <= type < n to its bucket, anything else nowhere. */
  function TypeRoute(key: int, n: nat): (r: Route)
    ensures r.ToBucket? ==> r.index < n && r.index != BranchType
  {
    if key == BranchType then ToBranch
    else if 0 <= key < n then ToBucket(key)
    else Skip
  }

  /** The route of an instance by its prototype's blockType; non-renderable prototypes are skipped. */
  function BlockTypeRoute(protos: seq<Entity>, x: EntityInstance, n: nat): Route
  {
    if 0 <= x.prototypeID < |protos| && protos[x.prototypeID].isRenderable then TypeRoute(protos[x.prototypeID].blockType, n)
    else Skip
  }

  function BlockTypeRoutes(protos: seq<Entity>, s: seq<EntityInstance>, n: nat): seq<Route>
  {
    seq(|s|, k requires 0 <= k < |s| => BlockTypeRoute(protos, s[k], n))
  }

  function PositionsOf(s: seq<EntityInstance>): seq<Vec3>
  {
    seq(|s|, k requires 0 <= k < |s| => s[k].position)
  }

  function Vec4sOf(s: seq<EntityInstance>): seq<BranchVec4>
  {
    seq(|s|, k requires 0 <= k < |s| => BranchVec4(s[k].position, s[k].rotation))
  }

  /** The type buckets of a list of instances under the routes `R`, as the batching loop leaves them. */
  predicate TypeBatched(R: seq<Route>, s: seq<EntityInstance>, n: nat, buckets: seq<seq<Vec3>>, branch: seq<BranchVec4>)
    requires |R| == |s|
  {
    |buckets| == n
    && (forall i :: 0 <= i < n ==> buckets[i] == Gather(R, PositionsOf(s), ToBucket(i)))
    && branch == Gather(R, Vec4sOf(s), ToBranch)
  }

  /** One step of a type batching loop: put `inst` where route `r` says. */
  method TypeBatchOne(ghost R: seq<Route>, ghost s: seq<EntityInstance>, n: nat, buckets: seq<seq<Vec3>>, branch: seq<BranchVec4>,
                      inst: EntityInstance, r: Route)
    returns (buckets': seq<seq<Vec3>>, branch': seq<BranchVec4>)
    requires |R| == |s| && TypeBatched(R, s, n, buckets, branch)
    requires r.ToBucket? ==> r.index < n
    ensures TypeBatched(R + [r], s + [inst], n, buckets', branch')
  {
    assert PositionsOf(s + [inst]) == PositionsOf(s) + [inst.position];
    assert Vec4sOf(s + [inst]) == Vec4sOf(s) + [BranchVec4(inst.position, inst.rotation)];
    forall i | 0 <= i < n
      ensures Gather(R + [r], PositionsOf(s) + [inst.position], ToBucket(i))
        == Gather(R, PositionsOf(s), ToBucket(i)) + (if r == ToBucket(i) then [inst.position] else [])
    {
      GatherSnoc(R, PositionsOf(s), r, inst.position, ToBucket(i));
    }
    GatherSnoc(R, Vec4sOf(s), r, BranchVec4(inst.position, inst.rotation), ToBranch);
    buckets', branch' := buckets, branch;
    match r
    case ToBranch =>
      branch' := branch + [BranchVec4(inst.position, inst.rotation)];
    case ToBucket(i) =>
      buckets' := buckets[i := buckets[i] + [inst.position]];
    case Skip =>
  }

  /**
   * The blockType batching loop of 7/, 8/ and 10/: renderable instances of
   * type 14 go to the branch list, 0 <= type < numBlockPrototypes to their
   * bucket, all others are dropped.
   */
  method BatchByBlockType(protos: seq<Entity>, s: seq<EntityInstance>, n: nat) returns (buckets: seq<seq<Vec3>>, branch: seq<BranchVec4>)
    requires IndexesInto(s, protos)
    ensures TypeBatched(BlockTypeRoutes(protos, s, n), s, n, buckets, branch)
  {
    ghost var R := BlockTypeRoutes(protos, s, n);
    buckets := seq(n, _ => []);
    branch := [];
    for k := 0 to |s|
      invariant TypeBatched(R[..k], s[..k], n, buckets, branch)
    {
      var inst := s[k];
      var proto := protos[inst.prototypeID];
      var r := Skip;
      if proto.isRenderable {
        if proto.blockType == BranchType {
          r := ToBranch;
        } else if proto.blockType >= 0 && proto.blockType < n {
          r := ToBucket(proto.blockType);
        }
      }
      assert r == R[k];
      PrefixSnoc(R, k);
      PrefixSnoc(s, k);
      buckets, branch := TypeBatchOne(R[..k], s[..k], n, buckets, branch, inst, r);
    }
    assert R[..|s|] == R && s[..|s|] == s;
  }

  /**
   * The batching loop of 5/: only negative types are dropped; any other
   * renderable non-branch type indexes its bucket with no upper bound, so
   * every such type must be below NUM_BLOCK_PROTOTYPES.
   */
  method BatchByBlockTypeUnchecked(protos: seq<Entity>, s: seq<EntityInstance>) returns (buckets: seq<seq<Vec3>>, branch: seq<BranchVec4>)
    requires IndexesInto(s, protos)
    requires forall k :: 0 <= k < |s| && protos[s[k].prototypeID].isRenderable ==> protos[s[k].prototypeID].blockType < NumBlockTypes
    ensures TypeBatched(BlockTypeRoutes(protos, s, NumBlockTypes), s, NumBlockTypes, buckets, branch)
  {
    ghost var R := BlockTypeRoutes(protos, s, NumBlockTypes);
    buckets := seq(NumBlockTypes, _ => []);
    branch := [];
    for k := 0 to |s|
      invariant TypeBatched(R[..k], s[..k], NumBlockTypes, buckets, branch)
    {
      var inst := s[k];
      var proto := protos[inst.prototypeID];
      var r := Skip;
      if proto.isRenderable {
        if proto.blockType == BranchType {
          r := ToBranch;
        } else if proto.blockType >= 0 {
          r := ToBucket(proto.blockType);
        }
      }
      assert r == R[k];
      PrefixSnoc(R, k);
      PrefixSnoc(s, k);
      buckets, branch := TypeBatchOne(R[..k], s[..k], NumBlockTypes, buckets, branch, inst, r);
    }
    assert R[..|s|] == R && s[..|s|] == s;
  }

  /** The draw sizes of the block-type slots, read off the routes (slot 14 draws the branch list). */
  function TypeSizes(R: seq<Route>, n: nat): seq<nat>
  {
    SlotSizes(multiset(R), n, BranchType)
  }

  lemma TypeDrawSizes(R: seq<Route>, s: seq<EntityInstance>, n: nat, buckets: seq<seq<Vec3>>, branch: seq<BranchVec4>)
    requires |R| == |s| && TypeBatched(R, s, n, buckets, branch)
    ensures ListSizes(buckets, |branch|, BranchType) == TypeSizes(R, n)
  {
  }

  /**
   * With more than 14 slots every batched instance is drawn exactly once:
   * the draw sizes plus the dropped instances make up the whole list.
   */
  lemma BlockTypeConserved(protos: seq<Entity>, s: seq<EntityInstance>, n: nat)
    requires BranchType < n
    ensures Sum(TypeSizes(BlockTypeRoutes(protos, s, n), n)) + multiset(BlockTypeRoutes(protos, s, n))[Skip] == |s|
  {
    var R := BlockTypeRoutes(protos, s, n);
    RoutesConserved(R, n);
    SlotSizesSum(multiset(R), n, BranchType);
    assert multiset(R)[ToBucket(BranchType)] == 0 by {
      assert ToBucket(BranchType) !in R;
    }
  }

  /**
   * With at most 14 slots (numBlockPrototypes is read from the procedures
   * file in 7/, 8/ and 10/) branch instances are batched but never drawn.
   */
  lemma ShortTableDropsBranches(R: seq<Route>, n: nat)
    requires n <= BranchType
    ensures forall d :: d in InstancedDraws(TypeSizes(R, n)) ==> d.Instanced? && d.slot != BranchType
  {
    InstancedDrawsShape(TypeSizes(R, n));
  }

  /**
   * RenderScene of 10/ (and RenderSystem::update of 7/ and 8/ after their
   * initialisation): nothing without an isWorld prototype; otherwise the
   * star draw, issued even for no stars, then one draw per non-empty
   * block-type list.
   */
  method RenderBlockTypes(protos: seq<Entity>, n: nat) returns (calls: seq<DrawCall>)
    requires FirstWorld(protos).Some? ==> IndexesInto(protos[FirstWorld(protos).value].instances, protos)
    ensures FirstWorld(protos).None? ==> calls == []
    ensures FirstWorld(protos).Some? ==>
      var s := protos[FirstWorld(protos).value].instances;
      calls == [StarPoints(|StarsOf(protos, s)|)] + InstancedDraws(TypeSizes(BlockTypeRoutes(protos, s, n), n))
  {
    var found := FindWorldIndex(protos);
    if found.None? {
      return [];
    }
    var s := protos[found.value].instances;
    var stars := CollectStars(protos, s);
    var buckets, branch := BatchByBlockType(protos, s, n);
    var draws := IssueDraws(buckets, branch, BranchType);
    TypeDrawSizes(BlockTypeRoutes(protos, s, n), s, n, buckets, branch);
    calls := [StarPoints(|stars|)] + draws;
  }

  /** RenderSystem::update of 5/: as 10/, with the fixed table size and the unchecked bucket index. */
  method RenderBlockTypesUnchecked(protos: seq<Entity>) returns (calls: seq<DrawCall>)
    requires FirstWorld(protos).Some? ==>
      var s := protos[FirstWorld(protos).value].instances;
      IndexesInto(s, protos)
      && forall k :: 0 <= k < |s| && protos[s[k].prototypeID].isRenderable ==> protos[s[k].prototypeID].blockType < NumBlockTypes
    ensures FirstWorld(protos).None? ==> calls == []
    ensures FirstWorld(protos).Some? ==>
      var s := protos[FirstWorld(protos).value].instances;
      calls == [StarPoints(|StarsOf(protos, s)|)] + InstancedDraws(TypeSizes(BlockTypeRoutes(protos, s, NumBlockTypes), NumBlockTypes))
  {
    var found := FindWorldIndex(protos);
    if found.None? {
      return [];
    }
    var s := protos[found.value].instances;
    var stars := CollectStars(protos, s);
    var buckets, branch := BatchByBlockTypeUnchecked(protos, s);
    var draws := IssueDraws(buckets, branch, BranchType);
    TypeDrawSizes(BlockTypeRoutes(protos, s, NumBlockTypes), s, NumBlockTypes, buckets, branch);
    calls := [StarPoints(|stars|)] + draws;
  }

  /**
   * The RenderSystem object of 7/ and 8/: GL resources are set up on the
   * first update only. `inits` counts the set-ups.
   */
  class RenderSystem {
    var isInitialized: bool
    ghost var inits: nat

    ghost predicate Valid()
      reads this
    {
      inits == if isInitialized then 1 else 0
    }

    constructor ()
      ensures Valid() && !isInitialized && inits == 0
    {
      isInitialized := false;
      inits := 0;
    }

    method Init()
      requires Valid() && !isInitialized
      modifies this
      ensures Valid() && isInitialized && inits == 1
    {
      inits := inits + 1;
      isInitialized := true;
    }

    /** update: initialise if this is the first call, then draw as RenderBlockTypes does. */
    method Update(protos: seq<Entity>, n: nat) returns (calls: seq<DrawCall>)
      requires Valid()
      requires FirstWorld(protos).Some? ==> IndexesInto(protos[FirstWorld(protos).value].instances, protos)
      modifies this
      ensures Valid() && isInitialized && inits == 1
      ensures old(isInitialized) ==> inits == old(inits)
      ensures FirstWorld(protos).None? ==> calls == []
      ensures FirstWorld(protos).Some? ==>
        var s := protos[FirstWorld(protos).value].instances;
        calls == [StarPoints(|StarsOf(protos, s)|)] + InstancedDraws(TypeSizes(BlockTypeRoutes(protos, s, n), n))
    {
      if !isInitialized {
        Init();
      }
      calls := RenderBlockTypes(protos, n);
    }
  }

  /**
   * The route of data_game.cpp, by the instance's own entityTypeID (held in
   * prototypeID): below 25 it is a block type, 25 and above a star.
   */
  function TypeIdRoutes(s: seq<EntityInstance>): seq<Route>
  {
    seq(|s|, k requires 0 <= k < |s| => TypeRoute(s[k].prototypeID, NumBlockTypes))
  }

  /**
   * RenderSystem::update of data_game.cpp: stars are the instances with a
   * type of 25 or more; block types below 25 are batched with only the upper
   * bound checked, so a negative type would index out of range.
   */
  method RenderTypeIds(s: seq<EntityInstance>) returns (calls: seq<DrawCall>, stars: seq<Vec3>)
    requires forall k :: 0 <= k < |s| ==> s[k].prototypeID >= 0
    ensures stars == Gather(TypeIdRoutes(s), PositionsOf(s), Skip)
    ensures calls == [StarPoints(|stars|)] + InstancedDraws(TypeSizes(TypeIdRoutes(s), NumBlockTypes))
  {
    stars := CollectTypeIdStars(s);
    var buckets, branch := BatchByTypeId(s);
    var draws := IssueDraws(buckets, branch, BranchType);
    TypeDrawSizes(TypeIdRoutes(s), s, NumBlockTypes, buckets, branch);
    calls := [StarPoints(|stars|)] + draws;
  }

  /** The star loop of data_game.cpp: positions of the instances whose type is 25 or more. */
  method CollectTypeIdStars(s: seq<EntityInstance>) returns (stars: seq<Vec3>)
    requires forall k :: 0 <= k < |s| ==> s[k].prototypeID >= 0
    ensures stars == Gather(TypeIdRoutes(s), PositionsOf(s), Skip)
  {
    ghost var R := TypeIdRoutes(s);
    ghost var P := PositionsOf(s);
    stars := [];
    for k := 0 to |s|
      invariant stars == Gather(R[..k], P[..k], Skip)
    {
      PrefixSnoc(R, k);
      PrefixSnoc(P, k);
      GatherSnoc(R[..k], P[..k], R[k], s[k].position, Skip);
      if s[k].prototypeID >= NumBlockTypes {
        stars := stars + [s[k].position];
      }
    }
    assert R[..|s|] == R && P[..|s|] == P;
  }

  /** The block loop of data_game.cpp: type 14 to the branch list, any other type below 25 to its bucket. */
  method BatchByTypeId(s: seq<EntityInstance>) returns (buckets: seq<seq<Vec3>>, branch: seq<BranchVec4>)
    requires forall k :: 0 <= k < |s| ==> s[k].prototypeID >= 0
    ensures TypeBatched(TypeIdRoutes(s), s, NumBlockTypes, buckets, branch)
  {
    ghost var R := TypeIdRoutes(s);
    buckets := seq(NumBlockTypes, _ => []);
    branch := [];
    for k := 0 to |s|
      invariant TypeBatched(R[..k], s[..k], NumBlockTypes, buckets, branch)
    {
      var inst := s[k];
      var r := Skip;
      if inst.prototypeID < NumBlockTypes {
        if inst.prototypeID == BranchType {
          r := ToBranch;
        } else {
          r := ToBucket(inst.prototypeID);
        }
      }
      assert r == R[k];
      PrefixSnoc(R, k);
      PrefixSnoc(s, k);
      buckets, branch := TypeBatchOne(R[..k], s[..k], NumBlockTypes, buckets, branch, inst, r);
    }
    assert R[..|s|] == R && s[..|s|] == s;
  }

  /** In data_game.cpp every instance is drawn exactly once: as a star or in one block draw. */
  lemma TypeIdConserved(s: seq<EntityInstance>)
    requires forall k :: 0 <= k < |s| ==> s[k].prototypeID >= 0
    ensures |Gather(TypeIdRoutes(s), PositionsOf(s), Skip)| + Sum(TypeSizes(TypeIdRoutes(s), NumBlockTypes)) == |s|
  {
    var R := TypeIdRoutes(s);
    RoutesConserved(R, NumBlockTypes);
    SlotSizesSum(multiset(R), NumBlockTypes, BranchType);
    assert multiset(R)[ToBucket(BranchType)] == 0 by {
      assert ToBucket(BranchType) !in R;
    }
  }
}
