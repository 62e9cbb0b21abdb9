/**
 * What the two recursive tree builders share: the place of a segment in
 * the tree, the samples the recursion reads at that place, the outcome of
 * a (sub)tree — the status it returns and the cylinder calls it makes, in
 * order — and the slots those calls append to the model's two buffers.
 *
 * Every position, angle and direction the builders compute is a
 * deterministic function of the root call's arguments and of the path of
 * loop indices leading to a segment. The values that depend on that
 * float geometry (`sinf`/`cosf`/`float3_normalize` and the hashes and
 * ridge samples taken at computed positions) are therefore given as
 * functions of the path.
 */
module Trees {
  import opened CTypes
  import opened Mesh

  /** The loop indices from the root call down to a segment. */
  type Path = seq<nat>

  /**
   * The samples read at each place: the ridge noise that sets a segment's
   * height, the hash that sets how many children a node tries, the hash
   * rolled for the child at a path, and the geometry of the cylinder.
   */
  datatype Samples = Samples(ridge: Path -> real, variation: Path -> real, roll: Path -> real, frame: Path -> Frame)

  /** The arguments of one generate_tree_cylinder call. */
  datatype Call = Call(frame: Frame, bottomRadius: real, topRadius: real, height: real, segments: nat)

  /** What a (sub)tree returns and the cylinder calls it makes, in order. */
  datatype Outcome = Outcome(status: int, calls: seq<Call>)

  const NOTHING: Outcome := Outcome(0, [])

  /** One result after the other: statuses add, calls concatenate. */
  function Combine(a: Outcome, b: Outcome): Outcome {
    Outcome(a.status + b.status, a.calls + b.calls)
  }

  /** The status generate_tree_cylinder returns for a call on a present model. */
  function CallStatus(rules: Rules, c: Call): int {
    CylinderStatus(rules, true, c.bottomRadius, c.topRadius, c.height, c.segments)
  }

  predicate CallRejected(rules: Rules, c: Call) {
    Rejects(rules, true, c.bottomRadius, c.topRadius, c.height, c.segments)
  }

  predicate CallBuilds(rules: Rules, c: Call) {
    Builds(rules, true, c.bottomRadius, c.topRadius, c.height, c.segments)
  }

  /** A single cylinder call on a present model. */
  function Single(rules: Rules, c: Call): Outcome {
    Outcome(CallStatus(rules, c), [c])
  }

  /** The slots a grown buffer gains: the written block, then the unwritten rest. */
  function Region<T>(block: seq<T>, total: nat): (r: seq<Slot<T>>)
    requires |block| <= total
    ensures |r| == total
  {
    Fill(block) + Blank(total - |block|)
  }

  /** The vertex slots one call appends: none unless it builds. */
  function CallVertices(rules: CylinderRules, c: Call): seq<Slot<Vertex>> {
    if CallBuilds(rules, c) then
      CylinderSizes(c.frame, rules, c.bottomRadius, c.topRadius, c.segments);
      Region(CylinderVertices(c.frame, rules, c.bottomRadius, c.topRadius, c.segments), VertexCount(c.segments))
    else []
  }

  /** The face slots one call appends: none unless it builds. */
  function CallFaces(rules: CylinderRules, c: Call): seq<Slot<Point>> {
    if CallBuilds(rules, c) then
      CylinderSizes(c.frame, rules, c.bottomRadius, c.topRadius, c.segments);
      Region(CylinderFaces(c.frame, rules, c.bottomRadius, c.topRadius, c.segments), FaceCount(c.segments))
    else []
  }

  /** The vertex slots a sequence of calls appends, in call order. */
  function VertexSlots(rules: CylinderRules, calls: seq<Call>): seq<Slot<Vertex>> {
    if |calls| == 0 then [] else CallVertices(rules, calls[0]) + VertexSlots(rules, calls[1..])
  }

  /** The face slots a sequence of calls appends, in call order. */
  function FaceSlots(rules: CylinderRules, calls: seq<Call>): seq<Slot<Point>> {
    if |calls| == 0 then [] else CallFaces(rules, calls[0]) + FaceSlots(rules, calls[1..])
  }

  /** The statuses of a sequence of calls, summed. */
  function StatusSum(rules: Rules, calls: seq<Call>): int {
    if |calls| == 0 then 0 else CallStatus(rules, calls[0]) + StatusSum(rules, calls[1..])
  }

  /** How many of the calls grow the buffers. */
  function BuiltCount(rules: Rules, calls: seq<Call>): (n: nat)
    ensures n <= |calls|
  {
    if |calls| == 0 then 0 else (if CallBuilds(rules, calls[0]) then 1 else 0) + BuiltCount(rules, calls[1..])
  }

  lemma {:induction false} VertexSlotsAppend(rules: CylinderRules, a: seq<Call>, b: seq<Call>)
    ensures VertexSlots(rules, a + b) == VertexSlots(rules, a) + VertexSlots(rules, b)
  {
    if |a| > 0 {
      assert (a + b)[0] == a[0] && (a + b)[1..] == a[1..] + b;
      VertexSlotsAppend(rules, a[1..], b);
      AppendAssoc(CallVertices(rules, a[0]), VertexSlots(rules, a[1..]), VertexSlots(rules, b));
    } else {
      assert a + b == b;
    }
  }

  lemma {:induction false} FaceSlotsAppend(rules: CylinderRules, a: seq<Call>, b: seq<Call>)
    ensures FaceSlots(rules, a + b) == FaceSlots(rules, a) + FaceSlots(rules, b)
  {
    if |a| > 0 {
      assert (a + b)[0] == a[0] && (a + b)[1..] == a[1..] + b;
      FaceSlotsAppend(rules, a[1..], b);
      AppendAssoc(CallFaces(rules, a[0]), FaceSlots(rules, a[1..]), FaceSlots(rules, b));
    } else {
      assert a + b == b;
    }
  }

  lemma {:induction false} StatusSumAppend(rules: Rules, a: seq<Call>, b: seq<Call>)
    ensures StatusSum(rules, a + b) == StatusSum(rules, a) + StatusSum(rules, b)
  {
    if |a| > 0 {
      assert (a + b)[0] == a[0] && (a + b)[1..] == a[1..] + b;
      StatusSumAppend(rules, a[1..], b);
    } else {
      assert a + b == b;
    }
  }

  /** A call that builds appends 12 s - 12 vertex slots and 4 s - 4 face slots; one that does not, none. */
  lemma CallSlotCounts(rules: CylinderRules, c: Call)
    ensures |CallVertices(rules, c)| == (if CallBuilds(rules, c) then 12 * c.segments - 12 else 0)
    ensures |CallFaces(rules, c)| == (if CallBuilds(rules, c) then 4 * c.segments - 4 else 0)
  {
    if CallBuilds(rules, c) {
      CylinderSizes(c.frame, rules, c.bottomRadius, c.topRadius, c.segments);
    }
  }

  /** Calls that all use `s` segments append 12 s - 12 vertex slots for each call that builds. */
  lemma {:induction false} VertexSlotCount(rules: CylinderRules, calls: seq<Call>, s: nat)
    requires forall k :: 0 <= k < |calls| ==> calls[k].segments == s
    ensures |VertexSlots(rules, calls)| == BuiltCount(rules, calls) * (12 * s - 12)
  {
    if |calls| > 0 {
      CallSlotCounts(rules, calls[0]);
      assert forall k :: 0 <= k < |calls[1..]| ==> calls[1..][k] == calls[k + 1];
      VertexSlotCount(rules, calls[1..], s);
      MulSucc(BuiltCount(rules, calls[1..]), 12 * s - 12);
    }
  }

  /** Calls that all use `s` segments append 4 s - 4 face slots for each call that builds. */
  lemma {:induction false} FaceSlotCount(rules: CylinderRules, calls: seq<Call>, s: nat)
    requires forall k :: 0 <= k < |calls| ==> calls[k].segments == s
    ensures |FaceSlots(rules, calls)| == BuiltCount(rules, calls) * (4 * s - 4)
  {
    if |calls| > 0 {
      CallSlotCounts(rules, calls[0]);
      assert forall k :: 0 <= k < |calls[1..]| ==> calls[1..][k] == calls[k + 1];
      FaceSlotCount(rules, calls[1..], s);
      MulSucc(BuiltCount(rules, calls[1..]), 4 * s - 4);
    }
  }

  /** Three vertex slots per face slot, over any sequence of calls. */
  lemma {:induction false} SlotRatio(rules: CylinderRules, calls: seq<Call>)
    ensures |VertexSlots(rules, calls)| == 3 * |FaceSlots(rules, calls)|
  {
    if |calls| > 0 {
      CallSlotCounts(rules, calls[0]);
      SlotRatio(rules, calls[1..]);
    }
  }

  /**
   * The status sum is minus the number of rejected calls: 0 exactly when
   * no call is rejected, minus the number of calls exactly when all are.
   */
  lemma {:induction false} StatusCounts(rules: Rules, calls: seq<Call>)
    ensures -|calls| <= StatusSum(rules, calls) <= 0
    ensures StatusSum(rules, calls) == 0 <==> forall k :: 0 <= k < |calls| ==> !CallRejected(rules, calls[k])
    ensures StatusSum(rules, calls) == -|calls| <==> forall k :: 0 <= k < |calls| ==> CallRejected(rules, calls[k])
    ensures StatusSum(rules, calls) == -|calls| ==> BuiltCount(rules, calls) == 0
  {
    if |calls| > 0 {
      StatusCounts(rules, calls[1..]);
      assert forall k :: 1 <= k < |calls| ==> calls[k] == calls[1..][k - 1];
    }
  }

  /** Under rules without a degenerate case, calls whose statuses sum to 0 all build. */
  lemma {:induction false} AcceptedBuild(rules: Rules, calls: seq<Call>)
    requires rules.degenerateBelow.None? && StatusSum(rules, calls) == 0
    ensures BuiltCount(rules, calls) == |calls|
  {
    if |calls| > 0 {
      StatusCounts(rules, calls[1..]);
      AcceptedBuild(rules, calls[1..]);
    }
  }

  /** `num_levels - 1` in `usize`: it wraps to the largest value when `num_levels` is 0. */
  function LastLevel(numLevels: usize): (r: usize)
    ensures numLevels > 0 ==> r == numLevels - 1
    ensures numLevels == 0 ==> r == TWO_64 - 1
  {
    (numLevels - 1) % TWO_64
  }

  /**
   * `(usize)` of a float: truncation toward zero. The model clamps values
   * C leaves undefined (at or below -1, at or above 2^64) to the nearest end.
   */
  function FloatToUsize(r: real): (n: usize)
    ensures 0.0 <= r < TWO_64 as real ==> n == r.Floor
    ensures r < 1.0 ==> n == 0
  {
    var t := Trunc(r);
    if t < 0 then 0 else if t >= TWO_64 then TWO_64 - 1 else t
  }

  /** How many levels below `level` a tree may still grow: none at or past the last level. */
  function Depth(level: usize, numLevels: usize): nat {
    if level < LastLevel(numLevels) then LastLevel(numLevels) - level else 0
  }

  /** A child is one level shallower than the room its parent had. */
  lemma DepthStep(level: usize, numLevels: usize)
    requires level < LastLevel(numLevels)
    ensures level + 1 < TWO_64 && Depth(level + 1, numLevels) == Depth(level, numLevels) - 1
  {
  }

  /**
   * A bound on the calls of a tree at most `depth` levels below the root
   * in which each node has at most `fanout` children.
   */
  function Capacity(fanout: nat, depth: nat): (c: nat)
    ensures c >= 1
  {
    if depth == 0 then 1 else 1 + fanout * Capacity(fanout, depth - 1)
  }

  lemma MulMono(a: nat, b: nat, c: nat)
    requires a <= b
    ensures a * c <= b * c
  {
  }

  lemma MulSucc(k: nat, c: int)
    ensures (k + 1) * c == c + k * c
  {
  }

  /** A call of generate_tree_cylinder on a present model, as one tree segment. */
  method AppendSegment(model: Model, rules: CylinderRules, c: Call) returns (status: int)
    requires model.Valid() && c.segments < TWO_64
    modifies model
    ensures model.Valid()
    ensures status == CallStatus(rules, c)
    ensures model.vertices == old(model.vertices) + VertexSlots(rules, [c])
    ensures model.faces == old(model.faces) + FaceSlots(rules, [c])
  {
    ghost var v0, f0 := model.vertices, model.faces;
    status := GenerateTreeCylinder(model, rules, c.frame, c.bottomRadius, c.topRadius, c.height, c.segments);
    if CallBuilds(rules, c) {
      ghost var vs := CylinderVertices(c.frame, rules, c.bottomRadius, c.topRadius, c.segments);
      ghost var fs := CylinderFaces(c.frame, rules, c.bottomRadius, c.topRadius, c.segments);
      AppendAssoc(v0, Fill(vs), Blank<Vertex>(VertexCount(c.segments) - |vs|));
      AppendAssoc(f0, Fill(fs), Blank<Point>(FaceCount(c.segments) - |fs|));
    }
    assert [c][1..] == [];
    assert VertexSlots(rules, [c]) == CallVertices(rules, c) + [];
    assert FaceSlots(rules, [c]) == CallFaces(rules, c) + [];
  }
}
