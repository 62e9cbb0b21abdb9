/**
 * generate_tree of src/proc_gen.c: a recursive builder that appends one
 * cylinder per segment to a shared model and then tries up to
 * `max_branches` children from the segment's top, each one level deeper
 * with 0.7 times the branch chance.
 */
module ProcGenTree {
  import opened CTypes
  import opened Mesh
  import opened Noise
  import opened Trees

  /** A trunk segment at level 0, a pointed top at the last level, a mid section otherwise. */
  function SegmentHeight(s: Samples, path: Path, level: usize, numLevels: usize): real {
    if level == 0 then 8.0
    else if level == LastLevel(numLevels) then Max(0.3, s.ridge(path) * 1.2)
    else Max(0.5, s.ridge(path) * 3.5)
  }

  function TaperFactor(level: usize, numLevels: usize): real {
    if level != 0 && level == LastLevel(numLevels) then 0.01 else 0.85
  }

  /** Whether a node of this level and chance tries children at all. */
  predicate Branches(branchChance: real, level: usize, numLevels: usize) {
    level < LastLevel(numLevels) && branchChance > 0.2
  }

  /** 4 children on the trunk, 2 above, plus 0..2 from a hash, at most `max_branches`. */
  function BranchCount(s: Samples, path: Path, level: usize, maxBranches: usize): (n: usize)
    ensures n <= maxBranches
  {
    var base: usize := if level == 0 then 4 else 2;
    var extra := FloatToUsize(s.variation(path) * 2.0 + 0.5);
    var n := (base + extra) % TWO_64;
    if n > maxBranches then maxBranches else n
  }

  /** The trunk rolls against a raised chance, capped at 0.95. */
  function EffectiveChance(level: usize, branchChance: real): real {
    if level == 0 then Min(0.95, branchChance + 0.15) else branchChance
  }

  /** The base radius of child `i`: the parent's top radius times 0.75 + 0.3 hash2(29 i, 31 level). */
  function ChildRadius(hash: HashFn, topRadius: real, i: nat, level: usize, seed: int32): real {
    topRadius * (0.75 + hash(Wrap32(i * 29), Wrap32(level * 31), seed) * 0.3)
  }

  /**
   * The arguments every call of the recursion shares: the hash of the
   * branch radii, the samples, the world seed, `max_branches`,
   * `num_levels` and `num_side_faces`.
   */
  datatype Env = Env(hash: HashFn, s: Samples, seed: int32, maxBranches: usize, numLevels: usize, numSideFaces: usize)

  /** What generate_tree returns and the cylinder calls it makes: its own segment, then its offspring. */
  function Grow(e: Env, path: Path, baseRadius: real, branchChance: real, level: usize): Outcome
    decreases TWO_64 - level, 3, 0
  {
    if e.numSideFaces < 3 then Outcome(-1, [])
    else
      var topRadius := baseRadius * TaperFactor(level, e.numLevels);
      var own := Call(e.s.frame(path), baseRadius, topRadius, SegmentHeight(e.s, path, level, e.numLevels), e.numSideFaces);
      Combine(Single(PROC_GEN_RULES, own), Offspring(e, path, topRadius, branchChance, level))
  }

  /** The children a node grows from its top: none at the last level or at a chance of at most 0.2. */
  function Offspring(e: Env, path: Path, topRadius: real, branchChance: real, level: usize): Outcome
    decreases TWO_64 - level, 2, 0
  {
    if Branches(branchChance, level, e.numLevels) then
      Children(e, path, topRadius, branchChance, level, 0, BranchCount(e.s, path, level, e.maxBranches))
    else NOTHING
  }

  /** Children `i` .. `n - 1` of the node at `path`, in the order the loop builds them. */
  function Children(e: Env, path: Path, topRadius: real, branchChance: real, level: usize, i: nat, n: nat): Outcome
    requires level < LastLevel(e.numLevels)
    decreases TWO_64 - level, 1, n - i
  {
    if i >= n then NOTHING
    else Combine(Child(e, path, topRadius, branchChance, level, i), Children(e, path, topRadius, branchChance, level, i + 1, n))
  }

  /** Child `i` of the node at `path`: nothing when its roll exceeds the chance, else its subtree. */
  function Child(e: Env, path: Path, topRadius: real, branchChance: real, level: usize, i: nat): Outcome
    requires level < LastLevel(e.numLevels)
    decreases TWO_64 - level, 0, 0
  {
    if e.s.roll(path + [i]) > EffectiveChance(level, branchChance) then NOTHING
    else Grow(e, path + [i], ChildRadius(e.hash, topRadius, i, level, e.seed), branchChance * 0.7, level + 1)
  }

  /** The buffers gained exactly the slots of the calls in `o`, after the old ones. */
  ghost predicate Appended(model: Model, oldVertices: seq<Slot<Vertex>>, oldFaces: seq<Slot<Point>>, o: Outcome)
    reads model
  {
    model.vertices == oldVertices + VertexSlots(PROC_GEN_RULES, o.calls) &&
    model.faces == oldFaces + FaceSlots(PROC_GEN_RULES, o.calls)
  }

  /**
   * generate_tree, with hash2 as the hash of the branch radii: it returns
   * the summed status of `Grow` and appends the slots of its cylinder calls.
   */
  method GenerateTree(model: Model?, s: Samples, seed: int32, baseRadius: real, branchChance: real, level: usize,
                      maxBranches: usize, numLevels: usize, numSideFaces: usize) returns (ret: int)
    requires model != null ==> model.Valid()
    modifies model
    ensures model == null ==> ret == -1
    ensures model != null ==>
      var o := Grow(Env(Hash2, s, seed, maxBranches, numLevels, numSideFaces), [], baseRadius, branchChance, level);
      model.Valid() && ret == o.status && Appended(model, old(model.vertices), old(model.faces), o)
  {
    ret := BuildTree(model, Env(Hash2, s, seed, maxBranches, numLevels, numSideFaces), [], baseRadius, branchChance, level);
  }

  /** The recursion of generate_tree; `path` is this call's place in the tree. */
  method BuildTree(model: Model?, e: Env, path: Path, baseRadius: real, branchChance: real, level: usize) returns (ret: int)
    requires model != null ==> model.Valid()
    modifies model
    decreases TWO_64 - level, 3
    ensures model == null ==> ret == -1
    ensures model != null ==>
      var o := Grow(e, path, baseRadius, branchChance, level);
      model.Valid() && ret == o.status && Appended(model, old(model.vertices), old(model.faces), o)
  {
    if model == null || e.numSideFaces < 3 {
      return -1;
    }
    var segmentHeight := SegmentHeight(e.s, path, level, e.numLevels);
    var topRadius := baseRadius * TaperFactor(level, e.numLevels);
    var own := Call(e.s.frame(path), baseRadius, topRadius, segmentHeight, e.numSideFaces);
    ghost var v0, f0 := model.vertices, model.faces;
    ghost var off := Offspring(e, path, topRadius, branchChance, level);
    assert Grow(e, path, baseRadius, branchChance, level) == Combine(Single(PROC_GEN_RULES, own), off);
    ret := AppendSegment(model, PROC_GEN_RULES, own);
    var sum := BranchOut(model, e, path, topRadius, branchChance, level);
    VertexSlotsAppend(PROC_GEN_RULES, [own], off.calls);
    FaceSlotsAppend(PROC_GEN_RULES, [own], off.calls);
    AppendAssoc(v0, VertexSlots(PROC_GEN_RULES, [own]), VertexSlots(PROC_GEN_RULES, off.calls));
    AppendAssoc(f0, FaceSlots(PROC_GEN_RULES, [own]), FaceSlots(PROC_GEN_RULES, off.calls));
    ret := ret + sum;
  }

  /** The branching step of generate_tree: how many children to try, then the loop over them. */
  method BranchOut(model: Model, e: Env, path: Path, topRadius: real, branchChance: real, level: usize) returns (sum: int)
    requires model.Valid()
    modifies model
    decreases TWO_64 - level, 2
    ensures var o := Offspring(e, path, topRadius, branchChance, level);
      model.Valid() && sum == o.status && Appended(model, old(model.vertices), old(model.faces), o)
  {
    if level < LastLevel(e.numLevels) && branchChance > 0.2 {
      var baseBranches: usize := if level == 0 then 4 else 2;
      var extraBranches := FloatToUsize(e.s.variation(path) * 2.0 + 0.5);
      var numBranches: usize := (baseBranches + extraBranches) % TWO_64;
      if numBranches > e.maxBranches {
        numBranches := e.maxBranches;
      }
      assert numBranches == BranchCount(e.s, path, level, e.maxBranches);
      sum := GrowChildren(model, e, path, topRadius, branchChance, level, numBranches);
    } else {
      sum := 0;
    }
  }

  /** The branch loop of generate_tree: each child that passes its roll is grown in turn. */
  method GrowChildren(model: Model, e: Env, path: Path, topRadius: real, branchChance: real, level: usize, numBranches: usize)
    returns (ret: int)
    requires model.Valid() && level < LastLevel(e.numLevels)
    modifies model
    decreases TWO_64 - level, 1
    ensures var o := Children(e, path, topRadius, branchChance, level, 0, numBranches);
      model.Valid() && ret == o.status && Appended(model, old(model.vertices), old(model.faces), o)
  {
    ret := 0;
    var i: usize := 0;
    while i < numBranches
      invariant i <= numBranches && model.Valid()
      invariant var all := Children(e, path, topRadius, branchChance, level, 0, numBranches);
        var rest := Children(e, path, topRadius, branchChance, level, i, numBranches);
        ret + rest.status == all.status &&
        model.vertices + VertexSlots(PROC_GEN_RULES, rest.calls) == old(model.vertices) + VertexSlots(PROC_GEN_RULES, all.calls) &&
        model.faces + FaceSlots(PROC_GEN_RULES, rest.calls) == old(model.faces) + FaceSlots(PROC_GEN_RULES, all.calls)
    {
      ghost var v, f := model.vertices, model.faces;
      var r := GrowChild(model, e, path, topRadius, branchChance, level, i);
      ghost var child := Child(e, path, topRadius, branchChance, level, i);
      ghost var rest := Children(e, path, topRadius, branchChance, level, i + 1, numBranches);
      VertexSlotsAppend(PROC_GEN_RULES, child.calls, rest.calls);
      FaceSlotsAppend(PROC_GEN_RULES, child.calls, rest.calls);
      AppendAssoc(v, VertexSlots(PROC_GEN_RULES, child.calls), VertexSlots(PROC_GEN_RULES, rest.calls));
      AppendAssoc(f, FaceSlots(PROC_GEN_RULES, child.calls), FaceSlots(PROC_GEN_RULES, rest.calls));
      ret := ret + r;
      i := i + 1;
    }
  }

  /** One pass of the branch loop: roll for child `i` and grow it if the roll passes. */
  method GrowChild(model: Model, e: Env, path: Path, topRadius: real, branchChance: real, level: usize, i: usize)
    returns (ret: int)
    requires model.Valid() && level < LastLevel(e.numLevels)
    modifies model
    decreases TWO_64 - level, 0
    ensures var o := Child(e, path, topRadius, branchChance, level, i);
      model.Valid() && ret == o.status && Appended(model, old(model.vertices), old(model.faces), o)
  {
    var branchRoll := e.s.roll(path + [i]);
    var effectiveChance := EffectiveChance(level, branchChance);
    if branchRoll > effectiveChance {
      ret := 0;
      assert Child(e, path, topRadius, branchChance, level, i) == NOTHING;
      assert VertexSlots(PROC_GEN_RULES, []) == [] && FaceSlots(PROC_GEN_RULES, []) == [];
    } else {
      var growthBaseRadius := ChildRadius(e.hash, topRadius, i, level, e.seed);
      assert Child(e, path, topRadius, branchChance, level, i) == Grow(e, path + [i], growthBaseRadius, branchChance * 0.7, level + 1);
      ret := BuildTree(model, e, path + [i], growthBaseRadius, branchChance * 0.7, level + 1);
    }
  }

  /** Every segment has `num_side_faces` sides and is at least 0.3 high. */
  ghost predicate AllShaped(calls: seq<Call>, sides: nat) {
    forall k :: 0 <= k < |calls| ==> calls[k].segments == sides && calls[k].height >= 0.3
  }

  /** No segment has a negative radius. */
  ghost predicate AllUpright(calls: seq<Call>) {
    forall k :: 0 <= k < |calls| ==> calls[k].bottomRadius >= 0.0 && calls[k].topRadius >= 0.0
  }

  /**
   * What holds of every (sub)tree: its status is the sum of its cylinder
   * statuses (once the side count passes the check), its segments share the
   * side count and the 0.3 least height, and, when `upright`, no radius is
   * negative.
   */
  ghost predicate Sound(e: Env, o: Outcome, upright: bool) {
    (e.numSideFaces >= 3 ==> o.status == StatusSum(PROC_GEN_RULES, o.calls)) &&
    AllShaped(o.calls, e.numSideFaces) &&
    (upright ==> AllUpright(o.calls))
  }

  lemma SegmentHeightBound(s: Samples, path: Path, level: usize, numLevels: usize)
    ensures SegmentHeight(s, path, level, numLevels) >= 0.3
  {
  }

  /** A child's base radius keeps the sign of the parent's top radius when the hash lies in (-1, 1]. */
  lemma ChildRadiusSign(hash: HashFn, topRadius: real, i: nat, level: usize, seed: int32)
    requires topRadius >= 0.0 && HashInRange(hash)
    ensures ChildRadius(hash, topRadius, i, level, seed) >= 0.0
  {
    var h := hash(Wrap32(i * 29), Wrap32(level * 31), seed);
    assert -1.0 < h;
    MulNonneg(topRadius, 0.75 + h * 0.3);
  }

  lemma {:induction false} GrowSound(e: Env, path: Path, baseRadius: real, branchChance: real, level: usize)
    decreases TWO_64 - level, 3, 0
    ensures Sound(e, Grow(e, path, baseRadius, branchChance, level), baseRadius >= 0.0 && HashInRange(e.hash))
    ensures |Grow(e, path, baseRadius, branchChance, level).calls| <= Capacity(e.maxBranches, Depth(level, e.numLevels))
    ensures e.numSideFaces < 3 ==> Grow(e, path, baseRadius, branchChance, level) == Outcome(-1, [])
  {
    if e.numSideFaces >= 3 {
      var topRadius := baseRadius * TaperFactor(level, e.numLevels);
      var own := Call(e.s.frame(path), baseRadius, topRadius, SegmentHeight(e.s, path, level, e.numLevels), e.numSideFaces);
      var off := Offspring(e, path, topRadius, branchChance, level);
      assert Grow(e, path, baseRadius, branchChance, level) == Combine(Single(PROC_GEN_RULES, own), off);
      SegmentHeightBound(e.s, path, level, e.numLevels);
      if baseRadius >= 0.0 {
        MulNonneg(baseRadius, TaperFactor(level, e.numLevels));
      }
      OffspringSound(e, path, topRadius, branchChance, level);
      StatusSumAppend(PROC_GEN_RULES, [own], off.calls);
      assert [own][1..] == [];
    }
  }

  lemma {:induction false} OffspringSound(e: Env, path: Path, topRadius: real, branchChance: real, level: usize)
    decreases TWO_64 - level, 2, 0
    ensures Sound(e, Offspring(e, path, topRadius, branchChance, level), topRadius >= 0.0 && HashInRange(e.hash))
    ensures level < LastLevel(e.numLevels) ==>
      |Offspring(e, path, topRadius, branchChance, level).calls| + 1 <= Capacity(e.maxBranches, Depth(level, e.numLevels))
    ensures level >= LastLevel(e.numLevels) ==> Offspring(e, path, topRadius, branchChance, level) == NOTHING
  {
    if Branches(branchChance, level, e.numLevels) {
      var n := BranchCount(e.s, path, level, e.maxBranches);
      ChildrenSound(e, path, topRadius, branchChance, level, 0, n);
      DepthStep(level, e.numLevels);
      MulMono(n, e.maxBranches, Capacity(e.maxBranches, Depth(level + 1, e.numLevels)));
    }
  }

  lemma {:induction false} ChildrenSound(e: Env, path: Path, topRadius: real, branchChance: real, level: usize, i: nat, n: nat)
    requires level < LastLevel(e.numLevels)
    decreases TWO_64 - level, 1, n - i
    ensures Sound(e, Children(e, path, topRadius, branchChance, level, i, n), topRadius >= 0.0 && HashInRange(e.hash))
    ensures |Children(e, path, topRadius, branchChance, level, i, n).calls|
         <= (if i < n then n - i else 0) * Capacity(e.maxBranches, Depth(level + 1, e.numLevels))
  {
    if i < n {
      var child := Child(e, path, topRadius, branchChance, level, i);
      var rest := Children(e, path, topRadius, branchChance, level, i + 1, n);
      ChildSound(e, path, topRadius, branchChance, level, i);
      ChildrenSound(e, path, topRadius, branchChance, level, i + 1, n);
      StatusSumAppend(PROC_GEN_RULES, child.calls, rest.calls);
      MulSucc(n - (i + 1), Capacity(e.maxBranches, Depth(level + 1, e.numLevels)));
    }
  }

  lemma {:induction false} ChildSound(e: Env, path: Path, topRadius: real, branchChance: real, level: usize, i: nat)
    requires level < LastLevel(e.numLevels)
    decreases TWO_64 - level, 0, 0
    ensures Sound(e, Child(e, path, topRadius, branchChance, level, i), topRadius >= 0.0 && HashInRange(e.hash))
    ensures |Child(e, path, topRadius, branchChance, level, i).calls| <= Capacity(e.maxBranches, Depth(level + 1, e.numLevels))
  {
    if e.s.roll(path + [i]) <= EffectiveChance(level, branchChance) {
      if topRadius >= 0.0 && HashInRange(e.hash) {
        ChildRadiusSign(e.hash, topRadius, i, level, e.seed);
      }
      DepthStep(level, e.numLevels);
      GrowSound(e, path + [i], ChildRadius(e.hash, topRadius, i, level, e.seed), branchChance * 0.7, level + 1);
    }
  }

  /**
   * With three sides every cylinder call fails its segment check (the
   * builder wants four): the tree returns minus its number of calls and
   * leaves both buffers as they were.
   */
  lemma ThreeSidedTreeFails(e: Env, path: Path, baseRadius: real, branchChance: real, level: usize)
    requires e.numSideFaces == 3
    ensures var o := Grow(e, path, baseRadius, branchChance, level);
      o.status == -|o.calls| && VertexSlots(PROC_GEN_RULES, o.calls) == [] && FaceSlots(PROC_GEN_RULES, o.calls) == []
  {
    var o := Grow(e, path, baseRadius, branchChance, level);
    GrowSound(e, path, baseRadius, branchChance, level);
    StatusCounts(PROC_GEN_RULES, o.calls);
    VertexSlotCount(PROC_GEN_RULES, o.calls, 3);
    FaceSlotCount(PROC_GEN_RULES, o.calls, 3);
  }

  /**
   * With at least four sides, a non-negative base radius and a hash in
   * (-1, 1], no cylinder call fails: the tree returns 0.
   */
  lemma TreeSucceeds(e: Env, path: Path, baseRadius: real, branchChance: real, level: usize)
    requires e.numSideFaces >= 4 && baseRadius >= 0.0 && HashInRange(e.hash)
    ensures Grow(e, path, baseRadius, branchChance, level).status == 0
  {
    var o := Grow(e, path, baseRadius, branchChance, level);
    GrowSound(e, path, baseRadius, branchChance, level);
    StatusCounts(PROC_GEN_RULES, o.calls);
  }

  /** generate_tree itself: hash2 lies in (-1, 1], so a root of radius at least 0 with four sides succeeds. */
  lemma GenerateTreeSucceeds(s: Samples, seed: int32, baseRadius: real, branchChance: real, level: usize,
                             maxBranches: usize, numLevels: usize, numSideFaces: usize)
    requires numSideFaces >= 4 && baseRadius >= 0.0
    ensures Grow(Env(Hash2, s, seed, maxBranches, numLevels, numSideFaces), [], baseRadius, branchChance, level).status == 0
  {
    TreeSucceeds(Env(Hash2, s, seed, maxBranches, numLevels, numSideFaces), [], baseRadius, branchChance, level);
  }

  /**
   * A tree with `n` sides per segment appends 12 n - 12 vertex slots and
   * 4 n - 4 face slots for each cylinder that builds, and calls the
   * builder at most `Capacity` times.
   */
  lemma TreeSlotCounts(e: Env, path: Path, baseRadius: real, branchChance: real, level: usize)
    ensures var o := Grow(e, path, baseRadius, branchChance, level);
      |VertexSlots(PROC_GEN_RULES, o.calls)| == BuiltCount(PROC_GEN_RULES, o.calls) * (12 * e.numSideFaces - 12) &&
      |FaceSlots(PROC_GEN_RULES, o.calls)| == BuiltCount(PROC_GEN_RULES, o.calls) * (4 * e.numSideFaces - 4) &&
      BuiltCount(PROC_GEN_RULES, o.calls) <= |o.calls| <= Capacity(e.maxBranches, Depth(level, e.numLevels))
  {
    var o := Grow(e, path, baseRadius, branchChance, level);
    GrowSound(e, path, baseRadius, branchChance, level);
    VertexSlotCount(PROC_GEN_RULES, o.calls, e.numSideFaces);
    FaceSlotCount(PROC_GEN_RULES, o.calls, e.numSideFaces);
  }
}
