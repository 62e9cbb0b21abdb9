/**
 * generate_tree of src/scene.c, the older builder: eight-sided segments,
 * a continuation count of 4 or 5 on the trunk and 2 or 3 above it, 0.8
 * times the branch chance per level, and a stop at `level == num_levels`.
 */
module SceneTree {
  import opened CTypes
  import opened Mesh
  import opened Noise
  import opened Trees

  /** Every segment of this builder has eight sides. */
  const SEGMENTS: nat := 8

  /** The trunk is 8 high; a branch is 2 plus half the ridge sample. */
  function SegmentHeight(s: Samples, path: Path, level: usize): real {
    if level == 0 then 8.0 else 2.0 + s.ridge(path) * 0.5
  }

  /** Segments of the last level taper to a point. */
  function TaperFactor(level: usize, numLevels: usize): real {
    if level == LastLevel(numLevels) then 0.0 else 0.9
  }

  /** Whether a node of this level and chance tries continuations at all. */
  predicate Branches(branchChance: real, level: usize, numLevels: usize) {
    level < LastLevel(numLevels) && branchChance > 0.2
  }

  /** 4 continuations plus 0 or 1 from a hash on the trunk, 2 + level % 2 above it, at most `max_branches`. */
  function ContinuationCount(s: Samples, path: Path, level: usize, maxBranches: usize): (n: usize)
    ensures n <= maxBranches
  {
    var n: usize := if level == 0 then (4 + FloatToUsize(s.variation(path) * 1.0 + 0.5)) % TWO_64 else 2 + level % 2;
    if n > maxBranches then maxBranches else n
  }

  /** The base radius of continuation `i`: the top radius times 0.85 + 0.1 hash2(29 i, 31 level). */
  function ContinuationRadius(hash: HashFn, topRadius: real, i: nat, level: usize, worldSeed: int32): real {
    topRadius * (0.85 + hash(Wrap32(i * 29), Wrap32(level * 31), worldSeed) * 0.1)
  }

  /**
   * The arguments every call of the recursion shares: the hash of the
   * continuation radii, the samples, `WORLD_SEED`, `max_branches` and
   * `num_levels`.
   */
  datatype Env = Env(hash: HashFn, s: Samples, worldSeed: int32, maxBranches: usize, numLevels: usize)

  /** What generate_tree returns and the cylinder calls it makes: nothing at `num_levels`, else its segment and its continuations. */
  function Grow(e: Env, path: Path, baseRadius: real, branchChance: real, level: usize): Outcome
    decreases TWO_64 - level, 3, 0
  {
    if level == e.numLevels then NOTHING
    else
      var topRadius := baseRadius * TaperFactor(level, e.numLevels);
      var own := Call(e.s.frame(path), baseRadius, topRadius, SegmentHeight(e.s, path, level), SEGMENTS);
      Combine(Single(SCENE_RULES, own), Offspring(e, path, topRadius, branchChance, level))
  }

  /** The continuations of a node: none at the last level or at a chance of at most 0.2. */
  function Offspring(e: Env, path: Path, topRadius: real, branchChance: real, level: usize): Outcome
    decreases TWO_64 - level, 2, 0
  {
    if Branches(branchChance, level, e.numLevels) then
      Continuations(e, path, topRadius, branchChance, level, 0, ContinuationCount(e.s, path, level, e.maxBranches))
    else NOTHING
  }

  /** Continuations `i` .. `n - 1` of the node at `path`, in loop order. */
  function Continuations(e: Env, path: Path, topRadius: real, branchChance: real, level: usize, i: nat, n: nat): Outcome
    requires level < LastLevel(e.numLevels)
    decreases TWO_64 - level, 1, n - i
  {
    if i >= n then NOTHING
    else Combine(Continuation(e, path, topRadius, branchChance, level, i),
                 Continuations(e, path, topRadius, branchChance, level, i + 1, n))
  }

  /** Continuation `i`: nothing when its roll exceeds the branch chance, else its subtree. */
  function Continuation(e: Env, path: Path, topRadius: real, branchChance: real, level: usize, i: nat): Outcome
    requires level < LastLevel(e.numLevels)
    decreases TWO_64 - level, 0, 0
  {
    if e.s.roll(path + [i]) > branchChance then NOTHING
    else Grow(e, path + [i], ContinuationRadius(e.hash, topRadius, i, level, e.worldSeed), branchChance * 0.8, level + 1)
  }

  /** The buffers gained exactly the slots of the calls in `o`, after the old ones. */
  ghost predicate Appended(model: Model, oldVertices: seq<Slot<Vertex>>, oldFaces: seq<Slot<Point>>, o: Outcome)
    reads model
  {
    model.vertices == oldVertices + VertexSlots(SCENE_RULES, o.calls) &&
    model.faces == oldFaces + FaceSlots(SCENE_RULES, o.calls)
  }

  /**
   * generate_tree, with hash2 as the hash of the continuation radii: it
   * returns the summed status of `Grow` and appends the slots of its calls.
   */
  method GenerateTree(model: Model?, s: Samples, worldSeed: int32, baseRadius: real, branchChance: real,
                      maxBranches: usize, level: usize, numLevels: usize) returns (ret: int)
    requires model != null ==> model.Valid()
    modifies model
    ensures model == null ==> ret == -1
    ensures model != null ==>
      var o := Grow(Env(Hash2, s, worldSeed, maxBranches, numLevels), [], baseRadius, branchChance, level);
      model.Valid() && ret == o.status && Appended(model, old(model.vertices), old(model.faces), o)
  {
    ret := BuildTree(model, Env(Hash2, s, worldSeed, maxBranches, numLevels), [], baseRadius, branchChance, level);
  }

  /** The recursion of generate_tree; `path` is this call's place in the tree. */
  method BuildTree(model: Model?, e: Env, path: Path, baseRadius: real, branchChance: real, level: usize) returns (ret: int)
    requires model != null ==> model.Valid()
    modifies model
    decreases TWO_64 - level, 3
    ensures model == null ==> ret == -1
    ensures model != null ==>
      var o := Grow(e, path, baseRadius, branchChance, level);
      model.Valid() && ret == o.status && Appended(model, old(model.vertices), old(model.faces), o)
  {
    if model == null {
      return -1;
    }
    if level == e.numLevels {
      return 0;
    }
    var trunkHeight := SegmentHeight(e.s, path, level);
    var topRadius := baseRadius * TaperFactor(level, e.numLevels);
    var own := Call(e.s.frame(path), baseRadius, topRadius, trunkHeight, SEGMENTS);
    ghost var v0, f0 := model.vertices, model.faces;
    ghost var off := Offspring(e, path, topRadius, branchChance, level);
    assert Grow(e, path, baseRadius, branchChance, level) == Combine(Single(SCENE_RULES, own), off);
    ret := AppendSegment(model, SCENE_RULES, own);
    var sum := BranchOut(model, e, path, topRadius, branchChance, level);
    VertexSlotsAppend(SCENE_RULES, [own], off.calls);
    FaceSlotsAppend(SCENE_RULES, [own], off.calls);
    AppendAssoc(v0, VertexSlots(SCENE_RULES, [own]), VertexSlots(SCENE_RULES, off.calls));
    AppendAssoc(f0, FaceSlots(SCENE_RULES, [own]), FaceSlots(SCENE_RULES, off.calls));
    ret := ret + sum;
  }

  /** The branching step of generate_tree: how many continuations to try, then the loop over them. */
  method BranchOut(model: Model, e: Env, path: Path, topRadius: real, branchChance: real, level: usize) returns (sum: int)
    requires model.Valid()
    modifies model
    decreases TWO_64 - level, 2
    ensures var o := Offspring(e, path, topRadius, branchChance, level);
      model.Valid() && sum == o.status && Appended(model, old(model.vertices), old(model.faces), o)
  {
    if level < LastLevel(e.numLevels) && branchChance > 0.2 {
      var continuations: usize;
      if level == 0 {
        continuations := (4 + FloatToUsize(e.s.variation(path) * 1.0 + 0.5)) % TWO_64;
      } else {
        continuations := 2 + level % 2;
      }
      if continuations > e.maxBranches {
        continuations := e.maxBranches;
      }
      assert continuations == ContinuationCount(e.s, path, level, e.maxBranches);
      sum := GrowContinuations(model, e, path, topRadius, branchChance, level, continuations);
    } else {
      sum := 0;
    }
  }

  /** The continuation loop of generate_tree: each continuation that passes its roll is grown in turn. */
  method GrowContinuations(model: Model, e: Env, path: Path, topRadius: real, branchChance: real, level: usize,
                           continuations: usize) returns (ret: int)
    requires model.Valid() && level < LastLevel(e.numLevels)
    modifies model
    decreases TWO_64 - level, 1
    ensures var o := Continuations(e, path, topRadius, branchChance, level, 0, continuations);
      model.Valid() && ret == o.status && Appended(model, old(model.vertices), old(model.faces), o)
  {
    ret := 0;
    var i: usize := 0;
    while i < continuations
      invariant i <= continuations && model.Valid()
      invariant var all := Continuations(e, path, topRadius, branchChance, level, 0, continuations);
        var rest := Continuations(e, path, topRadius, branchChance, level, i, continuations);
        ret + rest.status == all.status &&
        model.vertices + VertexSlots(SCENE_RULES, rest.calls) == old(model.vertices) + VertexSlots(SCENE_RULES, all.calls) &&
        model.faces + FaceSlots(SCENE_RULES, rest.calls) == old(model.faces) + FaceSlots(SCENE_RULES, all.calls)
    {
      ghost var v, f := model.vertices, model.faces;
      var r := GrowContinuation(model, e, path, topRadius, branchChance, level, i);
      ghost var child := Continuation(e, path, topRadius, branchChance, level, i);
      ghost var rest := Continuations(e, path, topRadius, branchChance, level, i + 1, continuations);
      VertexSlotsAppend(SCENE_RULES, child.calls, rest.calls);
      FaceSlotsAppend(SCENE_RULES, child.calls, rest.calls);
      AppendAssoc(v, VertexSlots(SCENE_RULES, child.calls), VertexSlots(SCENE_RULES, rest.calls));
      AppendAssoc(f, FaceSlots(SCENE_RULES, child.calls), FaceSlots(SCENE_RULES, rest.calls));
      ret := ret + r;
      i := i + 1;
    }
  }

  /** One pass of the continuation loop: roll for continuation `i` and grow it if the roll passes. */
  method GrowContinuation(model: Model, e: Env, path: Path, topRadius: real, branchChance: real, level: usize, i: usize)
    returns (ret: int)
    requires model.Valid() && level < LastLevel(e.numLevels)
    modifies model
    decreases TWO_64 - level, 0
    ensures var o := Continuation(e, path, topRadius, branchChance, level, i);
      model.Valid() && ret == o.status && Appended(model, old(model.vertices), old(model.faces), o)
  {
    var continuationRoll := e.s.roll(path + [i]);
    if continuationRoll > branchChance {
      ret := 0;
      assert Continuation(e, path, topRadius, branchChance, level, i) == NOTHING;
      assert VertexSlots(SCENE_RULES, []) == [] && FaceSlots(SCENE_RULES, []) == [];
    } else {
      var continuationRadius := ContinuationRadius(e.hash, topRadius, i, level, e.worldSeed);
      assert Continuation(e, path, topRadius, branchChance, level, i) == Grow(e, path + [i], continuationRadius, branchChance * 0.8, level + 1);
      ret := BuildTree(model, e, path + [i], continuationRadius, branchChance * 0.8, level + 1);
    }
  }

  /** Every segment has eight sides, and a height above 0 where the ridge samples exceed -4. */
  ghost predicate AllShaped(calls: seq<Call>, tall: bool) {
    forall k :: 0 <= k < |calls| ==> calls[k].segments == SEGMENTS && (tall ==> calls[k].height > 0.0)
  }

  /** A height the builder gives a segment: 8 on the trunk, or 2 plus half of some ridge sample. */
  ghost predicate SegmentHeightOf(s: Samples, h: real) {
    h == 8.0 || exists p: Path :: h == 2.0 + s.ridge(p) * 0.5
  }

  /** Every segment's height is one the builder gives. */
  ghost predicate AllHeights(calls: seq<Call>, s: Samples) {
    forall k :: 0 <= k < |calls| ==> SegmentHeightOf(s, calls[k].height)
  }

  /** No segment has a negative radius. */
  ghost predicate AllUpright(calls: seq<Call>) {
    forall k :: 0 <= k < |calls| ==> calls[k].bottomRadius >= 0.0 && calls[k].topRadius >= 0.0
  }

  /** Every ridge sample exceeds -4, so every branch is more than 0 high. */
  ghost predicate RidgeAbove(s: Samples) {
    forall p :: s.ridge(p) > -4.0
  }

  /**
   * What holds of every (sub)tree: its status is the sum of its cylinder
   * statuses, its segments have eight sides and a height of 8 or 2 plus
   * half a ridge sample (more than 0 under `RidgeAbove`), and, when
   * `upright`, no radius is negative.
   */
  ghost predicate Sound(e: Env, o: Outcome, upright: bool) {
    o.status == StatusSum(SCENE_RULES, o.calls) &&
    AllShaped(o.calls, RidgeAbove(e.s)) &&
    AllHeights(o.calls, e.s) &&
    (upright ==> AllUpright(o.calls))
  }

  /** A continuation's base radius keeps the sign of the top radius when the hash lies in (-1, 1]. */
  lemma ContinuationRadiusSign(hash: HashFn, topRadius: real, i: nat, level: usize, worldSeed: int32)
    requires topRadius >= 0.0 && HashInRange(hash)
    ensures ContinuationRadius(hash, topRadius, i, level, worldSeed) >= 0.0
  {
    var h := hash(Wrap32(i * 29), Wrap32(level * 31), worldSeed);
    assert -1.0 < h;
    MulNonneg(topRadius, 0.85 + h * 0.1);
  }

  lemma {:induction false} GrowSound(e: Env, path: Path, baseRadius: real, branchChance: real, level: usize)
    decreases TWO_64 - level, 3, 0
    ensures Sound(e, Grow(e, path, baseRadius, branchChance, level), baseRadius >= 0.0 && HashInRange(e.hash))
    ensures |Grow(e, path, baseRadius, branchChance, level).calls| <= Capacity(e.maxBranches, Depth(level, e.numLevels))
  {
    if level != e.numLevels {
      var topRadius := baseRadius * TaperFactor(level, e.numLevels);
      var own := Call(e.s.frame(path), baseRadius, topRadius, SegmentHeight(e.s, path, level), SEGMENTS);
      var off := Offspring(e, path, topRadius, branchChance, level);
      assert Grow(e, path, baseRadius, branchChance, level) == Combine(Single(SCENE_RULES, own), off);
      if baseRadius >= 0.0 {
        MulNonneg(baseRadius, TaperFactor(level, e.numLevels));
      }
      if level != 0 {
        assert own.height == 2.0 + e.s.ridge(path) * 0.5;
      }
      assert SegmentHeightOf(e.s, own.height);
      OffspringSound(e, path, topRadius, branchChance, level);
      HeightsAppend(e.s, [own], off.calls);
      StatusSumAppend(SCENE_RULES, [own], off.calls);
      assert [own][1..] == [];
    }
  }

  lemma HeightsAppend(s: Samples, a: seq<Call>, b: seq<Call>)
    requires AllHeights(a, s) && AllHeights(b, s)
    ensures AllHeights(a + b, s)
  {
    forall k | 0 <= k < |a + b|
      ensures SegmentHeightOf(s, (a + b)[k].height)
    {
      if k < |a| {
        assert (a + b)[k] == a[k];
      } else {
        assert (a + b)[k] == b[k - |a|];
      }
    }
  }

  lemma {:induction false} OffspringSound(e: Env, path: Path, topRadius: real, branchChance: real, level: usize)
    decreases TWO_64 - level, 2, 0
    ensures Sound(e, Offspring(e, path, topRadius, branchChance, level), topRadius >= 0.0 && HashInRange(e.hash))
    ensures level < LastLevel(e.numLevels) ==>
      |Offspring(e, path, topRadius, branchChance, level).calls| + 1 <= Capacity(e.maxBranches, Depth(level, e.numLevels))
    ensures level >= LastLevel(e.numLevels) ==> Offspring(e, path, topRadius, branchChance, level) == NOTHING
  {
    if Branches(branchChance, level, e.numLevels) {
      var n := ContinuationCount(e.s, path, level, e.maxBranches);
      ContinuationsSound(e, path, topRadius, branchChance, level, 0, n);
      DepthStep(level, e.numLevels);
      MulMono(n, e.maxBranches, Capacity(e.maxBranches, Depth(level + 1, e.numLevels)));
    }
  }

  lemma {:induction false} ContinuationsSound(e: Env, path: Path, topRadius: real, branchChance: real, level: usize,
                                              i: nat, n: nat)
    requires level < LastLevel(e.numLevels)
    decreases TWO_64 - level, 1, n - i
    ensures Sound(e, Continuations(e, path, topRadius, branchChance, level, i, n), topRadius >= 0.0 && HashInRange(e.hash))
    ensures |Continuations(e, path, topRadius, branchChance, level, i, n).calls|
         <= (if i < n then n - i else 0) * Capacity(e.maxBranches, Depth(level + 1, e.numLevels))
  {
    if i < n {
      var child := Continuation(e, path, topRadius, branchChance, level, i);
      var rest := Continuations(e, path, topRadius, branchChance, level, i + 1, n);
      ContinuationSound(e, path, topRadius, branchChance, level, i);
      ContinuationsSound(e, path, topRadius, branchChance, level, i + 1, n);
      HeightsAppend(e.s, child.calls, rest.calls);
      StatusSumAppend(SCENE_RULES, child.calls, rest.calls);
      MulSucc(n - (i + 1), Capacity(e.maxBranches, Depth(level + 1, e.numLevels)));
    }
  }

  lemma {:induction false} ContinuationSound(e: Env, path: Path, topRadius: real, branchChance: real, level: usize, i: nat)
    requires level < LastLevel(e.numLevels)
    decreases TWO_64 - level, 0, 0
    ensures Sound(e, Continuation(e, path, topRadius, branchChance, level, i), topRadius >= 0.0 && HashInRange(e.hash))
    ensures |Continuation(e, path, topRadius, branchChance, level, i).calls| <= Capacity(e.maxBranches, Depth(level + 1, e.numLevels))
  {
    if e.s.roll(path + [i]) <= branchChance {
      if topRadius >= 0.0 && HashInRange(e.hash) {
        ContinuationRadiusSign(e.hash, topRadius, i, level, e.worldSeed);
      }
      DepthStep(level, e.numLevels);
      GrowSound(e, path + [i], ContinuationRadius(e.hash, topRadius, i, level, e.worldSeed), branchChance * 0.8, level + 1);
    }
  }

  /**
   * With a non-negative base radius, a hash in (-1, 1] and ridge samples
   * above -4 no cylinder call fails: the tree returns 0.
   */
  lemma TreeSucceeds(e: Env, path: Path, baseRadius: real, branchChance: real, level: usize)
    requires baseRadius >= 0.0 && HashInRange(e.hash) && RidgeAbove(e.s)
    ensures Grow(e, path, baseRadius, branchChance, level).status == 0
  {
    var o := Grow(e, path, baseRadius, branchChance, level);
    GrowSound(e, path, baseRadius, branchChance, level);
    StatusCounts(SCENE_RULES, o.calls);
  }

  /** generate_tree itself: hash2 lies in (-1, 1], so a root of radius at least 0 succeeds where the ridge exceeds -4. */
  lemma GenerateTreeSucceeds(s: Samples, worldSeed: int32, baseRadius: real, branchChance: real,
                             maxBranches: usize, level: usize, numLevels: usize)
    requires baseRadius >= 0.0 && RidgeAbove(s)
    ensures Grow(Env(Hash2, s, worldSeed, maxBranches, numLevels), [], baseRadius, branchChance, level).status == 0
  {
    TreeSucceeds(Env(Hash2, s, worldSeed, maxBranches, numLevels), [], baseRadius, branchChance, level);
  }

  /** The part of `GrowSound` the slot counts need: summed statuses, eight sides, at most `Capacity` calls. */
  lemma GrowShape(e: Env, path: Path, baseRadius: real, branchChance: real, level: usize)
    ensures var o := Grow(e, path, baseRadius, branchChance, level);
      o.status == StatusSum(SCENE_RULES, o.calls) &&
      (forall k :: 0 <= k < |o.calls| ==> o.calls[k].segments == SEGMENTS) &&
      |o.calls| <= Capacity(e.maxBranches, Depth(level, e.numLevels))
  {
    GrowSound(e, path, baseRadius, branchChance, level);
  }

  /**
   * Any tree appends 84 vertex slots and 28 face slots per cylinder that
   * builds, returns minus the number of failed calls, and calls the
   * builder at most `Capacity` times; when it returns 0 every call built.
   */
  lemma TreeSlotCounts(e: Env, path: Path, baseRadius: real, branchChance: real, level: usize)
    ensures var o := Grow(e, path, baseRadius, branchChance, level);
      |VertexSlots(SCENE_RULES, o.calls)| == BuiltCount(SCENE_RULES, o.calls) * 84 &&
      |FaceSlots(SCENE_RULES, o.calls)| == BuiltCount(SCENE_RULES, o.calls) * 28 &&
      -|o.calls| <= o.status <= 0 &&
      (o.status == 0 ==> BuiltCount(SCENE_RULES, o.calls) == |o.calls|) &&
      |o.calls| <= Capacity(e.maxBranches, Depth(level, e.numLevels))
  {
    var o := Grow(e, path, baseRadius, branchChance, level);
    GrowShape(e, path, baseRadius, branchChance, level);
    StatusCounts(SCENE_RULES, o.calls);
    if o.status == 0 {
      AcceptedBuild(SCENE_RULES, o.calls);
    }
    VertexSlotCount(SCENE_RULES, o.calls, SEGMENTS);
    FaceSlotCount(SCENE_RULES, o.calls, SEGMENTS);
  }

  /**
   * At the last level a segment tapers to a point: its one cylinder call has
   * a top radius of 0, so no top cap is drawn and nothing grows above it.
   * The 18 vertex slots and 6 face slots counted for the top cap (the last
   * ones of the call's region) stay unwritten.
   */
  lemma PointedTop(e: Env, path: Path, baseRadius: real, branchChance: real, level: usize)
    requires level == LastLevel(e.numLevels) && level != e.numLevels
    ensures var o := Grow(e, path, baseRadius, branchChance, level);
      |o.calls| == 1 && o.calls[0].topRadius == 0.0 && !DrawsCap(SCENE_RULES, o.calls[0].topRadius)
    ensures var c := Grow(e, path, baseRadius, branchChance, level).calls[0];
      CallBuilds(SCENE_RULES, c) ==>
        |VertexSlots(SCENE_RULES, [c])| == 84 && |FaceSlots(SCENE_RULES, [c])| == 28 &&
        (forall j :: 66 <= j < 84 ==> VertexSlots(SCENE_RULES, [c])[j] == Garbage) &&
        (forall j :: 22 <= j < 28 ==> FaceSlots(SCENE_RULES, [c])[j] == Garbage)
  {
    var o := Grow(e, path, baseRadius, branchChance, level);
    var own := Call(e.s.frame(path), baseRadius, 0.0, SegmentHeight(e.s, path, level), SEGMENTS);
    OffspringSound(e, path, 0.0, branchChance, level);
    assert o == Combine(Single(SCENE_RULES, own), NOTHING);
    var c := o.calls[0];
    assert c == own;
    if CallBuilds(SCENE_RULES, c) {
      var f := c.frame;
      var vs := CylinderVertices(f, SCENE_RULES, baseRadius, 0.0, SEGMENTS);
      var fs := CylinderFaces(f, SCENE_RULES, baseRadius, 0.0, SEGMENTS);
      assert vs == SideBlock(f, SEGMENTS) + CapPart(f, false, DrawsCap(SCENE_RULES, baseRadius), SEGMENTS);
      assert fs == SideFaces(f, SEGMENTS) + CapPartFaces(f, false, DrawsCap(SCENE_RULES, baseRadius), SEGMENTS);
      assert |vs| <= 66 && |fs| <= 22;
      CylinderSizes(f, SCENE_RULES, baseRadius, 0.0, SEGMENTS);
      assert VertexSlots(SCENE_RULES, [c]) == Region(vs, 84) by {
        assert [c][1..] == [];
      }
      assert FaceSlots(SCENE_RULES, [c]) == Region(fs, 28) by {
        assert [c][1..] == [];
      }
      forall j | 66 <= j < 84
        ensures VertexSlots(SCENE_RULES, [c])[j] == Garbage
      {
        BlankAt<Vertex>(84 - |vs|, j - |vs|);
      }
      forall j | 22 <= j < 28
        ensures FaceSlots(SCENE_RULES, [c])[j] == Garbage
      {
        BlankAt<Point>(28 - |fs|, j - |fs|);
      }
    }
  }
}
