/**
 * The mesh a tree is built into (the `model_t` of the shader-works library,
 * as far as src/proc_gen.c and src/scene.c use it) and the cylinder builder
 * `generate_tree_cylinder`, which grows the model's two buffers with
 * `realloc` and fills the new slots through running indices.
 *
 * A slot the builder counted but never wrote is `Garbage`: `realloc` leaves
 * the grown part of a buffer uninitialised. The float geometry of a
 * cylinder (the ring corners from `cosf`/`sinf`, the normals from
 * `float3_normalize`/`float3_cross`) is a `Frame` of opaque values.
 */
module Mesh {
  import opened CTypes

  datatype Point = Point(x: real, y: real, z: real)

  /** vertex_data_t as the builders fill it: a position and a normal. */
  datatype Vertex = Vertex(position: Point, normal: Point)

  /** One element of a buffer: unwritten since it was allocated, or written. */
  datatype Slot<T> = Garbage | Written(value: T)

  /** The slots holding `block`, in order. */
  function Fill<T>(block: seq<T>): (r: seq<Slot<T>>)
    ensures |r| == |block|
  {
    if |block| == 0 then [] else [Written(block[0])] + Fill(block[1..])
  }

  lemma {:induction false} FillAt<T>(block: seq<T>, j: nat)
    requires j < |block|
    ensures Fill(block)[j] == Written(block[j])
  {
    if j > 0 {
      FillAt(block[1..], j - 1);
    }
  }

  /** `n` freshly allocated, unwritten slots. */
  function Blank<T>(n: nat): (r: seq<Slot<T>>)
    ensures |r| == n
  {
    if n == 0 then [] else [Garbage] + Blank(n - 1)
  }

  lemma {:induction false} BlankAt<T>(n: nat, j: nat)
    requires j < n
    ensures Blank<T>(n)[j] == Garbage
  {
    if j > 0 {
      BlankAt<T>(n - 1, j - 1);
    }
  }

  /**
   * A buffer grown to `|pre| + total` slots whose new part holds `block`
   * followed by slots not yet written.
   */
  function Layout<T>(pre: seq<Slot<T>>, block: seq<T>, total: nat): seq<Slot<T>>
    requires |block| <= total
  {
    pre + Fill(block) + Blank(total - |block|)
  }

  /** Writing the first blank slot after `block` extends the block by one. */
  lemma WriteNext<T>(pre: seq<Slot<T>>, block: seq<T>, total: nat, v: T)
    requires |block| < total
    ensures Layout(pre, block, total)[|pre| + |block| := Written(v)] == Layout(pre, block + [v], total)
  {
    var lhs := Layout(pre, block, total)[|pre| + |block| := Written(v)];
    var rhs := Layout(pre, block + [v], total);
    assert |lhs| == |rhs|;
    forall j | 0 <= j < |lhs| ensures lhs[j] == rhs[j] {
      if j < |pre| {
      } else if j < |pre| + |block| {
        assert lhs[j] == Fill(block)[j - |pre|];
        assert rhs[j] == Fill(block + [v])[j - |pre|];
        FillAt(block, j - |pre|);
        FillAt(block + [v], j - |pre|);
      } else if j == |pre| + |block| {
        FillAt(block + [v], j - |pre|);
      } else {
        assert lhs[j] == Blank<T>(total - |block|)[j - |pre| - |block|];
        assert rhs[j] == Blank<T>(total - |block| - 1)[j - |pre| - |block| - 1];
        BlankAt<T>(total - |block|, j - |pre| - |block|);
        BlankAt<T>(total - |block| - 1, j - |pre| - |block| - 1);
      }
    }
  }

  /**
   * model_t: the vertex buffer and the face-normal buffer with their
   * counts. The tree builders keep each buffer exactly as long as its count.
   */
  class Model {
    var vertices: seq<Slot<Vertex>>
    var faces: seq<Slot<Point>>
    var numVertices: nat
    var numFaces: nat

    ghost predicate Valid()
      reads this
    {
      |vertices| == numVertices && |faces| == numFaces
    }

    /** An empty model. */
    constructor ()
      ensures Valid() && vertices == [] && faces == []
    {
      vertices, faces := [], [];
      numVertices, numFaces := 0, 0;
    }

    /** `vertex_data[vertex_idx++] = v`, the index being the first blank slot after `block`. */
    method EmitVertex(ghost pre: seq<Slot<Vertex>>, ghost block: seq<Vertex>, ghost total: nat, idx: nat, v: Vertex)
      returns (next: nat)
      requires |block| < total && vertices == Layout(pre, block, total) && idx == |pre| + |block|
      modifies this
      ensures vertices == Layout(pre, block + [v], total) && next == idx + 1
      ensures faces == old(faces) && numVertices == old(numVertices) && numFaces == old(numFaces)
    {
      WriteNext(pre, block, total, v);
      vertices := vertices[idx := Written(v)];
      next := idx + 1;
    }

    /** Three such stores: one triangle. */
    method EmitTriangle(ghost pre: seq<Slot<Vertex>>, ghost block: seq<Vertex>, ghost total: nat, idx: nat,
                        a: Vertex, b: Vertex, c: Vertex)
      returns (next: nat)
      requires |block| + 3 <= total && vertices == Layout(pre, block, total) && idx == |pre| + |block|
      modifies this
      ensures vertices == Layout(pre, block + [a, b, c], total) && next == idx + 3
      ensures faces == old(faces) && numVertices == old(numVertices) && numFaces == old(numFaces)
    {
      next := EmitVertex(pre, block, total, idx, a);
      next := EmitVertex(pre, block + [a], total, next, b);
      next := EmitVertex(pre, block + [a] + [b], total, next, c);
      assert block + [a] + [b] + [c] == block + [a, b, c];
    }

    /** `face_normals[face_idx++] = normal`, the index being the first blank slot after `block`. */
    method EmitFace(ghost pre: seq<Slot<Point>>, ghost block: seq<Point>, ghost total: nat, idx: nat, normal: Point)
      returns (next: nat)
      requires |block| < total && faces == Layout(pre, block, total) && idx == |pre| + |block|
      modifies this
      ensures faces == Layout(pre, block + [normal], total) && next == idx + 1
      ensures vertices == old(vertices) && numVertices == old(numVertices) && numFaces == old(numFaces)
    {
      WriteNext(pre, block, total, normal);
      faces := faces[idx := Written(normal)];
      next := idx + 1;
    }
  }

  /**
   * The geometry of one cylinder: `corner(top, k)` is the k-th point of the
   * bottom (`top == false`) or top ring, `sideNormal(i)` the normal of side
   * segment i, `axis` the normalised direction from bottom to top centre.
   */
  datatype Frame = Frame(corner: (bool, nat) -> Point, sideNormal: nat -> Point, axis: Point)

  function Neg(p: Point): Point {
    Point(-p.x, -p.y, -p.z)
  }

  /**
   * The constants that tell the two builders apart: the least segment
   * count, the height a cylinder must exceed, the radius below which both
   * rings make the cylinder degenerate (proc_gen only), and the radius a
   * ring must exceed to get a cap.
   */
  datatype Rules = Rules(minSegments: nat, minHeight: real, degenerateBelow: Option<real>, capAbove: real)

  /** Both builders demand at least three segments, so `segments - 2` never wraps. */
  type CylinderRules = r: Rules | r.minSegments >= 3 witness Rules(3, 0.0, None, 0.0)

  /** generate_tree_cylinder of src/proc_gen.c. */
  const PROC_GEN_RULES: CylinderRules := Rules(4, 0.001, Some(0.0001), 0.0001)

  /** generate_tree_cylinder of src/scene.c. */
  const SCENE_RULES: CylinderRules := Rules(3, 0.0, None, 0.0)

  /** The parameter check: a null model, too few segments, a negative radius or a too-low height. */
  predicate Rejects(rules: Rules, present: bool, bottomRadius: real, topRadius: real, height: real, segments: nat) {
    !present || segments < rules.minSegments || bottomRadius < 0.0 || topRadius < 0.0 || height <= rules.minHeight
  }

  /** Both radii below the degenerate threshold: nothing to draw. */
  predicate Degenerate(rules: Rules, bottomRadius: real, topRadius: real) {
    rules.degenerateBelow.Some? && bottomRadius < rules.degenerateBelow.value && topRadius < rules.degenerateBelow.value
  }

  predicate Builds(rules: Rules, present: bool, bottomRadius: real, topRadius: real, height: real, segments: nat) {
    !Rejects(rules, present, bottomRadius, topRadius, height, segments) && !Degenerate(rules, bottomRadius, topRadius)
  }

  /** Whether a ring of this radius gets its cap fan. */
  predicate DrawsCap(rules: Rules, radius: real) {
    radius > rules.capAbove
  }

  /** The status generate_tree_cylinder returns. */
  function CylinderStatus(rules: Rules, present: bool, bottomRadius: real, topRadius: real, height: real, segments: nat): int {
    if Rejects(rules, present, bottomRadius, topRadius, height, segments) then -1 else 0
  }

  /** The vertices the builder counts for a cylinder: 6 per side segment and 3 per cap triangle. */
  function VertexCount(segments: nat): nat
    requires segments >= 2
  {
    segments * 6 + (segments - 2) * 3 + (segments - 2) * 3
  }

  /** The faces the builder counts: 2 per side segment and 1 per cap triangle. */
  function FaceCount(segments: nat): nat
    requires segments >= 2
  {
    segments * 2 + (segments - 2) + (segments - 2)
  }

  /** The two triangles of side segment i: (b_i, b_i+1, t_i) and (b_i+1, t_i+1, t_i). */
  function Quad(frame: Frame, i: nat): seq<Vertex> {
    var n := frame.sideNormal(i);
    [Vertex(frame.corner(false, i), n), Vertex(frame.corner(false, i + 1), n), Vertex(frame.corner(true, i), n)]
    + [Vertex(frame.corner(false, i + 1), n), Vertex(frame.corner(true, i + 1), n), Vertex(frame.corner(true, i), n)]
  }

  /** The vertices of side segments 0 .. n-1. */
  function SideBlock(frame: Frame, n: nat): (vs: seq<Vertex>)
    ensures |vs| == 6 * n
  {
    if n == 0 then [] else SideBlock(frame, n - 1) + Quad(frame, n - 1)
  }

  /** The face normals of side segments 0 .. n-1: each segment's normal twice. */
  function SideFaces(frame: Frame, n: nat): (fs: seq<Point>)
    ensures |fs| == 2 * n
  {
    if n == 0 then [] else SideFaces(frame, n - 1) + [frame.sideNormal(n - 1), frame.sideNormal(n - 1)]
  }

  /** The normal of a cap: down the axis at the bottom, up it at the top. */
  function CapNormal(frame: Frame, top: bool): Point {
    if top then frame.axis else Neg(frame.axis)
  }

  /**
   * Cap triangle i, a fan around ring corner 0: (c_0, c_i, c_i+1) at the
   * bottom and, with the winding reversed, (c_0, c_i+1, c_i) at the top.
   */
  function CapTriangle(frame: Frame, top: bool, i: nat): seq<Vertex> {
    var n := CapNormal(frame, top);
    if top then [Vertex(frame.corner(true, 0), n), Vertex(frame.corner(true, i + 1), n), Vertex(frame.corner(true, i), n)]
    else [Vertex(frame.corner(false, 0), n), Vertex(frame.corner(false, i), n), Vertex(frame.corner(false, i + 1), n)]
  }

  /** The vertices of cap triangles 1 .. n. */
  function CapBlock(frame: Frame, top: bool, n: nat): (vs: seq<Vertex>)
    ensures |vs| == 3 * n
  {
    if n == 0 then [] else CapBlock(frame, top, n - 1) + CapTriangle(frame, top, n)
  }

  /** The face normals of cap triangles 1 .. n. */
  function CapFaces(frame: Frame, top: bool, n: nat): (fs: seq<Point>)
    ensures |fs| == n
  {
    if n == 0 then [] else CapFaces(frame, top, n - 1) + [CapNormal(frame, top)]
  }

  /** The vertices of one cap loop: the whole fan when the ring gets a cap, nothing otherwise. */
  function CapPart(frame: Frame, top: bool, draw: bool, segments: nat): seq<Vertex>
    requires segments >= 2
  {
    if draw then CapBlock(frame, top, segments - 2) else []
  }

  function CapPartFaces(frame: Frame, top: bool, draw: bool, segments: nat): seq<Point>
    requires segments >= 2
  {
    if draw then CapFaces(frame, top, segments - 2) else []
  }

  /** Every vertex the builder writes for one cylinder, in buffer order. */
  function CylinderVertices(frame: Frame, rules: Rules, bottomRadius: real, topRadius: real, segments: nat): seq<Vertex>
    requires segments >= 2
  {
    SideBlock(frame, segments)
    + CapPart(frame, false, DrawsCap(rules, bottomRadius), segments)
    + CapPart(frame, true, DrawsCap(rules, topRadius), segments)
  }

  /** Every face normal the builder writes for one cylinder, in buffer order. */
  function CylinderFaces(frame: Frame, rules: Rules, bottomRadius: real, topRadius: real, segments: nat): seq<Point>
    requires segments >= 2
  {
    SideFaces(frame, segments)
    + CapPartFaces(frame, false, DrawsCap(rules, bottomRadius), segments)
    + CapPartFaces(frame, true, DrawsCap(rules, topRadius), segments)
  }

  /**
   * The vertex and face counts the builder adds: the written blocks
   * followed by the slots of skipped caps, which stay unwritten.
   */
  lemma CylinderSizes(frame: Frame, rules: Rules, bottomRadius: real, topRadius: real, segments: nat)
    requires segments >= 2
    ensures VertexCount(segments) == 12 * segments - 12 && FaceCount(segments) == 4 * segments - 4
    ensures VertexCount(segments) == 3 * FaceCount(segments)
    ensures |CylinderVertices(frame, rules, bottomRadius, topRadius, segments)| <= VertexCount(segments)
    ensures |CylinderFaces(frame, rules, bottomRadius, topRadius, segments)| <= FaceCount(segments)
    ensures |CylinderVertices(frame, rules, bottomRadius, topRadius, segments)|
         == 3 * |CylinderFaces(frame, rules, bottomRadius, topRadius, segments)|
    ensures |CylinderVertices(frame, rules, bottomRadius, topRadius, segments)| == VertexCount(segments)
        <==> segments == 2 || (DrawsCap(rules, bottomRadius) && DrawsCap(rules, topRadius))
  {
  }
  /** Vertex j carries the normal of face j / 3, as the triangle lists of the buffers require. */
  ghost predicate NormalsAgree(vs: seq<Vertex>, fs: seq<Point>) {
    |vs| == 3 * |fs| && forall j :: 0 <= j < |vs| ==> vs[j].normal == fs[j / 3]
  }

  lemma AgreeAppend(vs1: seq<Vertex>, fs1: seq<Point>, vs2: seq<Vertex>, fs2: seq<Point>)
    requires NormalsAgree(vs1, fs1) && NormalsAgree(vs2, fs2)
    ensures NormalsAgree(vs1 + vs2, fs1 + fs2)
  {
    var vs, fs := vs1 + vs2, fs1 + fs2;
    forall j | 0 <= j < |vs| ensures vs[j].normal == fs[j / 3] {
      if j >= |vs1| {
        var k := j - |vs1|;
        assert k / 3 + |fs1| == j / 3;
        assert vs[j] == vs2[k];
      }
    }
  }

  lemma {:induction false} SideNormalsAgree(frame: Frame, n: nat)
    ensures NormalsAgree(SideBlock(frame, n), SideFaces(frame, n))
  {
    if n > 0 {
      SideNormalsAgree(frame, n - 1);
      var nm := frame.sideNormal(n - 1);
      assert NormalsAgree(Quad(frame, n - 1), [nm, nm]);
      AgreeAppend(SideBlock(frame, n - 1), SideFaces(frame, n - 1), Quad(frame, n - 1), [nm, nm]);
    }
  }

  lemma {:induction false} CapNormalsAgree(frame: Frame, top: bool, n: nat)
    ensures NormalsAgree(CapBlock(frame, top, n), CapFaces(frame, top, n))
  {
    if n > 0 {
      CapNormalsAgree(frame, top, n - 1);
      assert NormalsAgree(CapTriangle(frame, top, n), [CapNormal(frame, top)]);
      AgreeAppend(CapBlock(frame, top, n - 1), CapFaces(frame, top, n - 1), CapTriangle(frame, top, n), [CapNormal(frame, top)]);
    }
  }

  /** Every written vertex of a cylinder has the normal of the face it belongs to. */
  lemma CylinderNormalsAgree(frame: Frame, rules: Rules, bottomRadius: real, topRadius: real, segments: nat)
    requires segments >= 2
    ensures NormalsAgree(CylinderVertices(frame, rules, bottomRadius, topRadius, segments),
                         CylinderFaces(frame, rules, bottomRadius, topRadius, segments))
  {
    var m := segments - 2;
    SideNormalsAgree(frame, segments);
    CapNormalsAgree(frame, false, m);
    CapNormalsAgree(frame, true, m);
    var bv := CapPart(frame, false, DrawsCap(rules, bottomRadius), segments);
    var bf := CapPartFaces(frame, false, DrawsCap(rules, bottomRadius), segments);
    var tv := CapPart(frame, true, DrawsCap(rules, topRadius), segments);
    var tf := CapPartFaces(frame, true, DrawsCap(rules, topRadius), segments);
    AgreeAppend(SideBlock(frame, segments), SideFaces(frame, segments), bv, bf);
    AgreeAppend(SideBlock(frame, segments) + bv, SideFaces(frame, segments) + bf, tv, tf);
  }
  /**
   * generate_tree_cylinder: after the parameter check (and, under the
   * proc_gen rules, the degenerate exit) both buffers grow by the full
   * counts; the side segments are written, then the bottom cap fan if the
   * bottom ring is wide enough, then the top cap fan likewise, each at the
   * next free index. The counts do not depend on which caps were drawn, so
   * a skipped cap leaves unwritten slots at the end of the new region.
   */
  method GenerateTreeCylinder(model: Model?, rules: CylinderRules, frame: Frame, bottomRadius: real, topRadius: real,
                              height: real, segments: usize) returns (status: int)
    requires model != null ==> model.Valid()
    modifies model
    ensures status == CylinderStatus(rules, model != null, bottomRadius, topRadius, height, segments)
    ensures model != null ==> model.Valid()
    ensures model != null && !Builds(rules, true, bottomRadius, topRadius, height, segments) ==>
      model.vertices == old(model.vertices) && model.faces == old(model.faces)
    ensures model != null && Builds(rules, true, bottomRadius, topRadius, height, segments) ==>
      segments >= 2 &&
      |CylinderVertices(frame, rules, bottomRadius, topRadius, segments)| <= VertexCount(segments) &&
      |CylinderFaces(frame, rules, bottomRadius, topRadius, segments)| <= FaceCount(segments) &&
      model.vertices == Layout(old(model.vertices), CylinderVertices(frame, rules, bottomRadius, topRadius, segments),
                               VertexCount(segments)) &&
      model.faces == Layout(old(model.faces), CylinderFaces(frame, rules, bottomRadius, topRadius, segments),
                            FaceCount(segments))
  {
    if model == null || segments < rules.minSegments || bottomRadius < 0.0 || topRadius < 0.0 || height <= rules.minHeight {
      return -1;
    }
    if rules.degenerateBelow.Some? && bottomRadius < rules.degenerateBelow.value && topRadius < rules.degenerateBelow.value {
      return 0;
    }
    AppendCylinder(model, rules, frame, bottomRadius, topRadius, segments);
    return 0;
  }

  /** The part of generate_tree_cylinder past its early returns: grow both buffers and fill them. */
  method AppendCylinder(model: Model, rules: CylinderRules, frame: Frame, bottomRadius: real, topRadius: real, segments: nat)
    requires model.Valid() && segments >= rules.minSegments
    modifies model
    ensures model.Valid()
    ensures |CylinderVertices(frame, rules, bottomRadius, topRadius, segments)| <= VertexCount(segments)
    ensures |CylinderFaces(frame, rules, bottomRadius, topRadius, segments)| <= FaceCount(segments)
    ensures model.vertices == Layout(old(model.vertices), CylinderVertices(frame, rules, bottomRadius, topRadius, segments),
                                     VertexCount(segments))
    ensures model.faces == Layout(old(model.faces), CylinderFaces(frame, rules, bottomRadius, topRadius, segments),
                                  FaceCount(segments))
  {
    var sideVertices: nat := segments * 6;
    var bottomCapVertices: nat := (segments - 2) * 3;
    var topCapVertices: nat := (segments - 2) * 3;
    var newVertices: nat := sideVertices + bottomCapVertices + topCapVertices;
    var newFaces: nat := segments * 2 + (segments - 2) + (segments - 2);
    CylinderSizes(frame, rules, bottomRadius, topRadius, segments);
    var oldVertices := model.numVertices;
    var oldFaces := model.numFaces;
    ghost var startV := model.vertices;
    ghost var startF := model.faces;
    // realloc: the old contents followed by unwritten slots
    model.vertices := model.vertices + Blank(newVertices);
    model.faces := model.faces + Blank(newFaces);
    assert model.vertices == Layout(startV, [], newVertices);
    assert model.faces == Layout(startF, [], newFaces);
    FillCylinder(model, rules, frame, bottomRadius, topRadius, segments, startV, startF, oldVertices, oldFaces);
    model.numVertices := oldVertices + newVertices;
    model.numFaces := oldFaces + newFaces;
  }

  /** The three write loops of generate_tree_cylinder, over buffers already grown by the full counts. */
  method FillCylinder(model: Model, rules: CylinderRules, frame: Frame, bottomRadius: real, topRadius: real, segments: nat,
                      ghost startV: seq<Slot<Vertex>>, ghost startF: seq<Slot<Point>>, vertexStart: nat, faceStart: nat)
    requires segments >= 2 && vertexStart == |startV| && faceStart == |startF|
    requires model.vertices == Layout(startV, [], VertexCount(segments))
    requires model.faces == Layout(startF, [], FaceCount(segments))
    modifies model
    ensures |CylinderVertices(frame, rules, bottomRadius, topRadius, segments)| <= VertexCount(segments)
    ensures |CylinderFaces(frame, rules, bottomRadius, topRadius, segments)| <= FaceCount(segments)
    ensures model.vertices == Layout(startV, CylinderVertices(frame, rules, bottomRadius, topRadius, segments), VertexCount(segments))
    ensures model.faces == Layout(startF, CylinderFaces(frame, rules, bottomRadius, topRadius, segments), FaceCount(segments))
    ensures model.numVertices == old(model.numVertices) && model.numFaces == old(model.numFaces)
  {
    CylinderSizes(frame, rules, bottomRadius, topRadius, segments);
    var vertexIdx := vertexStart;
    var faceIdx := faceStart;

    // side faces
    vertexIdx, faceIdx := SideLoop(model, frame, segments, startV, startF, VertexCount(segments), FaceCount(segments), vertexIdx, faceIdx);
    ghost var side, sideF := SideBlock(frame, segments), SideFaces(frame, segments);

    // bottom cap
    vertexIdx, faceIdx := CapFan(model, frame, false, bottomRadius > rules.capAbove, segments, startV, side, startF, sideF,
                                 VertexCount(segments), FaceCount(segments), vertexIdx, faceIdx);
    ghost var bottom := CapPart(frame, false, DrawsCap(rules, bottomRadius), segments);
    ghost var bottomF := CapPartFaces(frame, false, DrawsCap(rules, bottomRadius), segments);

    // top cap
    vertexIdx, faceIdx := CapFan(model, frame, true, topRadius > rules.capAbove, segments, startV, side + bottom,
                                 startF, sideF + bottomF, VertexCount(segments), FaceCount(segments), vertexIdx, faceIdx);
    assert model.vertices == Layout(startV, CylinderVertices(frame, rules, bottomRadius, topRadius, segments), VertexCount(segments));
    assert model.faces == Layout(startF, CylinderFaces(frame, rules, bottomRadius, topRadius, segments), FaceCount(segments));

  }

  /** The side loop of generate_tree_cylinder: segments 0 .. segments-1, two triangles and two face normals each. */
  method SideLoop(model: Model, frame: Frame, segments: nat,
                  ghost startV: seq<Slot<Vertex>>, ghost startF: seq<Slot<Point>>,
                  newVertices: nat, newFaces: nat, vertexIdx0: nat, faceIdx0: nat)
    returns (vertexIdx: nat, faceIdx: nat)
    requires 6 * segments <= newVertices && 2 * segments <= newFaces
    requires vertexIdx0 == |startV| && faceIdx0 == |startF|
    requires model.vertices == Layout(startV, [], newVertices)
    requires model.faces == Layout(startF, [], newFaces)
    modifies model
    ensures vertexIdx == vertexIdx0 + 6 * segments && faceIdx == faceIdx0 + 2 * segments
    ensures model.vertices == Layout(startV, SideBlock(frame, segments), newVertices)
    ensures model.faces == Layout(startF, SideFaces(frame, segments), newFaces)
    ensures model.numVertices == old(model.numVertices) && model.numFaces == old(model.numFaces)
  {
    vertexIdx, faceIdx := vertexIdx0, faceIdx0;
    var i := 0;
    while i < segments
      invariant 0 <= i <= segments
      invariant vertexIdx == vertexIdx0 + 6 * i && faceIdx == faceIdx0 + 2 * i
      invariant model.vertices == Layout(startV, SideBlock(frame, i), newVertices)
      invariant model.faces == Layout(startF, SideFaces(frame, i), newFaces)
      invariant model.numVertices == old(model.numVertices) && model.numFaces == old(model.numFaces)
    {
      vertexIdx, faceIdx := SideStep(model, frame, i, startV, startF, newVertices, newFaces, vertexIdx, faceIdx);
      i := i + 1;
    }
  }

  /** One iteration of the side loop: the two triangles of segment i and their two face normals. */
  method SideStep(model: Model, frame: Frame, i: nat,
                  ghost startV: seq<Slot<Vertex>>, ghost startF: seq<Slot<Point>>,
                  newVertices: nat, newFaces: nat, vertexIdx0: nat, faceIdx0: nat)
    returns (vertexIdx: nat, faceIdx: nat)
    requires 6 * (i + 1) <= newVertices && 2 * (i + 1) <= newFaces
    requires vertexIdx0 == |startV| + 6 * i && faceIdx0 == |startF| + 2 * i
    requires model.vertices == Layout(startV, SideBlock(frame, i), newVertices)
    requires model.faces == Layout(startF, SideFaces(frame, i), newFaces)
    modifies model
    ensures vertexIdx == vertexIdx0 + 6 && faceIdx == faceIdx0 + 2
    ensures model.vertices == Layout(startV, SideBlock(frame, i + 1), newVertices)
    ensures model.faces == Layout(startF, SideFaces(frame, i + 1), newFaces)
    ensures model.numVertices == old(model.numVertices) && model.numFaces == old(model.numFaces)
  {
    var normal := frame.sideNormal(i);
    var bottom1, bottom2 := Vertex(frame.corner(false, i), normal), Vertex(frame.corner(false, i + 1), normal);
    var top1, top2 := Vertex(frame.corner(true, i), normal), Vertex(frame.corner(true, i + 1), normal);
    ghost var vs := SideBlock(frame, i);
    vertexIdx := model.EmitTriangle(startV, vs, newVertices, vertexIdx0, bottom1, bottom2, top1);
    vertexIdx := model.EmitTriangle(startV, vs + [bottom1, bottom2, top1], newVertices, vertexIdx, bottom2, top2, top1);
    AppendAssoc(vs, [bottom1, bottom2, top1], [bottom2, top2, top1]);
    ghost var fs := SideFaces(frame, i);
    faceIdx := model.EmitFace(startF, fs, newFaces, faceIdx0, normal);
    faceIdx := model.EmitFace(startF, fs + [normal], newFaces, faceIdx, normal);
    assert fs + [normal] + [normal] == SideFaces(frame, i + 1);
  }

  /**
   * One cap block of generate_tree_cylinder: when `draw` holds, the loop
   * over triangles 1 .. segments-2 of the fan, one face normal each,
   * written after `block`; otherwise nothing.
   */
  method CapFan(model: Model, frame: Frame, top: bool, draw: bool, segments: nat,
                ghost startV: seq<Slot<Vertex>>, ghost block: seq<Vertex>,
                ghost startF: seq<Slot<Point>>, ghost blockF: seq<Point>,
                newVertices: nat, newFaces: nat, vertexIdx0: nat, faceIdx0: nat)
    returns (vertexIdx: nat, faceIdx: nat)
    requires segments >= 2
    requires |block| + 3 * (segments - 2) <= newVertices && |blockF| + (segments - 2) <= newFaces
    requires vertexIdx0 == |startV| + |block| && faceIdx0 == |startF| + |blockF|
    requires model.vertices == Layout(startV, block, newVertices)
    requires model.faces == Layout(startF, blockF, newFaces)
    modifies model
    ensures vertexIdx == vertexIdx0 + |CapPart(frame, top, draw, segments)|
    ensures faceIdx == faceIdx0 + |CapPartFaces(frame, top, draw, segments)|
    ensures model.vertices == Layout(startV, block + CapPart(frame, top, draw, segments), newVertices)
    ensures model.faces == Layout(startF, blockF + CapPartFaces(frame, top, draw, segments), newFaces)
    ensures model.numVertices == old(model.numVertices) && model.numFaces == old(model.numFaces)
  {
    vertexIdx, faceIdx := vertexIdx0, faceIdx0;
    if !draw {
      assert block + [] == block && blockF + [] == blockF;
      return;
    }
    assert block + CapBlock(frame, top, 0) == block && blockF + CapFaces(frame, top, 0) == blockF;
    var i := 1;
    while i < segments - 1
      invariant 1 <= i <= segments - 1
      invariant vertexIdx == vertexIdx0 + 3 * (i - 1) && faceIdx == faceIdx0 + (i - 1)
      invariant model.vertices == Layout(startV, block + CapBlock(frame, top, i - 1), newVertices)
      invariant model.faces == Layout(startF, blockF + CapFaces(frame, top, i - 1), newFaces)
      invariant model.numVertices == old(model.numVertices) && model.numFaces == old(model.numFaces)
    {
      vertexIdx, faceIdx := CapStep(model, frame, top, i, startV, block, startF, blockF,
                                    newVertices, newFaces, vertexIdx, faceIdx);
      i := i + 1;
    }
  }

  /** One iteration of a cap loop: cap triangle i and its face normal. */
  method CapStep(model: Model, frame: Frame, top: bool, i: nat,
                 ghost startV: seq<Slot<Vertex>>, ghost block: seq<Vertex>,
                 ghost startF: seq<Slot<Point>>, ghost blockF: seq<Point>,
                 newVertices: nat, newFaces: nat, vertexIdx0: nat, faceIdx0: nat)
    returns (vertexIdx: nat, faceIdx: nat)
    requires i >= 1
    requires |block| + 3 * i <= newVertices && |blockF| + i <= newFaces
    requires vertexIdx0 == |startV| + |block| + 3 * (i - 1) && faceIdx0 == |startF| + |blockF| + (i - 1)
    requires model.vertices == Layout(startV, block + CapBlock(frame, top, i - 1), newVertices)
    requires model.faces == Layout(startF, blockF + CapFaces(frame, top, i - 1), newFaces)
    modifies model
    ensures vertexIdx == vertexIdx0 + 3 && faceIdx == faceIdx0 + 1
    ensures model.vertices == Layout(startV, block + CapBlock(frame, top, i), newVertices)
    ensures model.faces == Layout(startF, blockF + CapFaces(frame, top, i), newFaces)
    ensures model.numVertices == old(model.numVertices) && model.numFaces == old(model.numFaces)
  {
    var normal := CapNormal(frame, top);
    var v0, v1, v2 := Vertex(frame.corner(top, 0), normal), Vertex(frame.corner(top, i), normal), Vertex(frame.corner(top, i + 1), normal);
    ghost var vs := block + CapBlock(frame, top, i - 1);
    if top {
      // reversed winding
      vertexIdx := model.EmitTriangle(startV, vs, newVertices, vertexIdx0, v0, v2, v1);
    } else {
      vertexIdx := model.EmitTriangle(startV, vs, newVertices, vertexIdx0, v0, v1, v2);
    }
    AppendAssoc(block, CapBlock(frame, top, i - 1), CapTriangle(frame, top, i));
    ghost var fs := blockF + CapFaces(frame, top, i - 1);
    faceIdx := model.EmitFace(startF, fs, newFaces, faceIdx0, normal);
    AppendAssoc(blockF, CapFaces(frame, top, i - 1), [normal]);
  }

  lemma AppendAssoc<T>(a: seq<T>, b: seq<T>, c: seq<T>)
    ensures a + b + c == a + (b + c)
  {
  }
}
