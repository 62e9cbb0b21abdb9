/**
 * generate_ground_plane of src/proc_gen.c: after generate_plane of the
 * shader-works library has laid out a flat grid of triangles (three
 * vertices per face), it lifts every vertex onto the terrain, recomputes
 * each face normal from its lifted triangle, and gives every vertex the
 * normal of its face.
 */
module GroundPlane {
  import opened CTypes
  import opened Mesh
  import opened Noise

  /** float3_sub. */
  function Sub(a: Point, b: Point): Point {
    Point(a.x - b.x, a.y - b.y, a.z - b.z)
  }

  /** float3_cross. */
  function Cross(a: Point, b: Point): Point {
    Point(a.y * b.z - a.z * b.y, a.z * b.x - a.x * b.z, a.x * b.y - a.y * b.x)
  }

  /** float3_normalize, whose float square root the model leaves open. */
  type NormalizeFn = Point -> Point

  /** Every slot of the buffer holds a value: generate_plane wrote them all. */
  ghost predicate AllWritten<T>(slots: seq<Slot<T>>) {
    forall k :: 0 <= k < |slots| ==> slots[k].Written?
  }

  /** The slot with its vertex moved to the terrain height at its x and z. */
  function Lift(slot: Slot<Vertex>, height: HeightFn): (r: Slot<Vertex>)
    ensures r.Written? == slot.Written?
  {
    match slot
    case Garbage => Garbage
    case Written(v) => Written(Vertex(Point(v.position.x, height(v.position.x, v.position.z), v.position.z), v.normal))
  }

  /** The buffer after the first loop. */
  function Lifted(vertices: seq<Slot<Vertex>>, height: HeightFn): (r: seq<Slot<Vertex>>)
    ensures |r| == |vertices|
    ensures AllWritten(vertices) ==> AllWritten(r)
  {
    seq(|vertices|, k requires 0 <= k < |vertices| => Lift(vertices[k], height))
  }

  /** The normal of face `j`: the normalised cross product of its second and first edge. */
  function FaceNormal(vertices: seq<Slot<Vertex>>, j: nat, normalize: NormalizeFn): Point
    requires 3 * j + 2 < |vertices| && AllWritten(vertices)
  {
    var v0 := vertices[3 * j].value.position;
    var v1 := vertices[3 * j + 1].value.position;
    var v2 := vertices[3 * j + 2].value.position;
    normalize(Cross(Sub(v2, v0), Sub(v1, v0)))
  }

  /** The face buffer after the second loop. */
  function PlaneFaces(vertices: seq<Slot<Vertex>>, height: HeightFn, normalize: NormalizeFn): (r: seq<Slot<Point>>)
    requires AllWritten(vertices) && |vertices| % 3 == 0
    ensures |r| == |vertices| / 3
  {
    var lifted := Lifted(vertices, height);
    seq(|vertices| / 3, j requires 0 <= j < |vertices| / 3 => Written(FaceNormal(lifted, j, normalize)))
  }

  /** The vertex buffer after the third loop: lifted, each with the normal of face `k / 3`. */
  function PlaneVertices(vertices: seq<Slot<Vertex>>, height: HeightFn, normalize: NormalizeFn): (r: seq<Slot<Vertex>>)
    requires AllWritten(vertices) && |vertices| % 3 == 0
    ensures |r| == |vertices|
  {
    var lifted := Lifted(vertices, height);
    seq(|vertices|, k requires 0 <= k < |vertices| =>
      Written(Vertex(lifted[k].value.position, FaceNormal(lifted, k / 3, normalize))))
  }

  /** The first loop of generate_ground_plane: every vertex moves to the terrain height at its x and z. */
  method LiftVertices(model: Model, height: HeightFn)
    requires model.Valid() && AllWritten(model.vertices)
    modifies model
    ensures model.Valid() && model.numVertices == old(model.numVertices) && model.numFaces == old(model.numFaces)
    ensures model.vertices == Lifted(old(model.vertices), height) && model.faces == old(model.faces)
  {
    var i := 0;
    while i < model.numVertices
      invariant i <= model.numVertices && model.Valid()
      invariant model.numVertices == old(model.numVertices) && model.numFaces == old(model.numFaces)
      invariant model.faces == old(model.faces)
      invariant forall k :: 0 <= k < i ==> model.vertices[k] == Lift(old(model.vertices)[k], height)
      invariant forall k :: i <= k < model.numVertices ==> model.vertices[k] == old(model.vertices)[k]
    {
      var v := model.vertices[i].value;
      var p := Point(v.position.x, height(v.position.x, v.position.z), v.position.z);
      model.vertices := model.vertices[i := Written(Vertex(p, v.normal))];
      i := i + 1;
    }
  }

  /** The second loop: each face normal from the current positions of its three vertices. */
  method ComputeFaceNormals(model: Model, normalize: NormalizeFn)
    requires model.Valid() && AllWritten(model.vertices) && model.numVertices == 3 * model.numFaces
    modifies model
    ensures model.Valid() && model.numVertices == old(model.numVertices) && model.numFaces == old(model.numFaces)
    ensures model.vertices == old(model.vertices)
    ensures forall j :: 0 <= j < model.numFaces ==> model.faces[j] == Written(FaceNormal(model.vertices, j, normalize))
  {
    var i := 0;
    while i < model.numFaces
      invariant i <= model.numFaces && model.Valid() && model.vertices == old(model.vertices)
      invariant model.numVertices == old(model.numVertices) && model.numFaces == old(model.numFaces)
      invariant forall j :: 0 <= j < i ==> model.faces[j] == Written(FaceNormal(model.vertices, j, normalize))
    {
      var baseIdx := i * 3;
      var v0 := model.vertices[baseIdx].value.position;
      var v1 := model.vertices[baseIdx + 1].value.position;
      var v2 := model.vertices[baseIdx + 2].value.position;
      var edge1 := Sub(v1, v0);
      var edge2 := Sub(v2, v0);
      model.faces := model.faces[i := Written(normalize(Cross(edge2, edge1)))];
      i := i + 1;
    }
  }

  /** The third loop: every vertex takes the normal of face `i / 3`. */
  method ShareNormals(model: Model)
    requires model.Valid() && AllWritten(model.vertices) && AllWritten(model.faces)
    requires model.numVertices == 3 * model.numFaces
    modifies model
    ensures model.Valid() && model.numVertices == old(model.numVertices) && model.numFaces == old(model.numFaces)
    ensures model.faces == old(model.faces)
    ensures forall k :: 0 <= k < model.numVertices ==>
      model.vertices[k] == Written(Vertex(old(model.vertices)[k].value.position, model.faces[k / 3].value))
  {
    var i := 0;
    while i < model.numVertices
      invariant i <= model.numVertices && model.Valid() && model.faces == old(model.faces)
      invariant model.numVertices == old(model.numVertices) && model.numFaces == old(model.numFaces)
      invariant forall k :: 0 <= k < i ==>
        model.vertices[k] == Written(Vertex(old(model.vertices)[k].value.position, model.faces[k / 3].value))
      invariant forall k :: i <= k < model.numVertices ==> model.vertices[k] == old(model.vertices)[k]
    {
      var v := model.vertices[i].value;
      model.vertices := model.vertices[i := Written(Vertex(v.position, model.faces[i / 3].value))];
      i := i + 1;
    }
  }

  /**
   * The three loops of generate_ground_plane over a model whose buffers
   * generate_plane filled, three vertices per face; `height` is the
   * terrain and `normalize` float3_normalize.
   */
  method Relief(model: Model, height: HeightFn, normalize: NormalizeFn)
    requires model.Valid() && AllWritten(model.vertices) && model.numVertices == 3 * model.numFaces
    modifies model
    ensures model.Valid() && model.numVertices == old(model.numVertices) && model.numFaces == old(model.numFaces)
    ensures model.vertices == PlaneVertices(old(model.vertices), height, normalize)
    ensures model.faces == PlaneFaces(old(model.vertices), height, normalize)
  {
    ghost var original := model.vertices;
    LiftVertices(model, height);
    ComputeFaceNormals(model, normalize);
    assert model.faces == PlaneFaces(original, height, normalize);
    ShareNormals(model);
    assert model.vertices == PlaneVertices(original, height, normalize);
  }

  /**
   * generate_ground_plane after generate_plane: the terrain is terrainHeight
   * with the configured seed, which that function adds to itself.
   */
  method GenerateGroundPlane(model: Model, seed: int32, pow: (real, real) -> real, normalize: NormalizeFn)
    requires model.Valid() && AllWritten(model.vertices) && model.numVertices == 3 * model.numFaces
    modifies model
    ensures model.Valid() && model.numVertices == old(model.numVertices) && model.numFaces == old(model.numFaces)
    ensures model.vertices == PlaneVertices(old(model.vertices), (x, z) => TerrainHeight(x, z, seed, seed, pow), normalize)
    ensures model.faces == PlaneFaces(old(model.vertices), (x, z) => TerrainHeight(x, z, seed, seed, pow), normalize)
  {
    Relief(model, (x, z) => TerrainHeight(x, z, seed, seed, pow), normalize);
  }

  /** Every vertex keeps its x and z and sits at the terrain height there. */
  lemma OnTerrain(vertices: seq<Slot<Vertex>>, height: HeightFn, normalize: NormalizeFn, k: nat)
    requires AllWritten(vertices) && |vertices| % 3 == 0 && k < |vertices|
    ensures var p := PlaneVertices(vertices, height, normalize)[k].value.position;
      var q := vertices[k].value.position;
      p.x == q.x && p.z == q.z && p.y == height(q.x, q.z)
  {
  }

  /** On terrainHeight no vertex of the ground lies below the lake level 0. */
  lemma AboveLakeLevel(vertices: seq<Slot<Vertex>>, seed: int32, pow: (real, real) -> real, normalize: NormalizeFn, k: nat)
    requires AllWritten(vertices) && |vertices| % 3 == 0 && k < |vertices|
    ensures PlaneVertices(vertices, (x, z) => TerrainHeight(x, z, seed, seed, pow), normalize)[k].value.position.y >= LAKE_LEVEL
  {
    OnTerrain(vertices, (x, z) => TerrainHeight(x, z, seed, seed, pow), normalize, k);
  }

  /** The three vertices of face `j` all carry the normal stored for face `j`. */
  lemma NormalsShared(vertices: seq<Slot<Vertex>>, height: HeightFn, normalize: NormalizeFn, j: nat, c: nat)
    requires AllWritten(vertices) && |vertices| % 3 == 0 && 3 * j < |vertices| && c < 3
    ensures PlaneVertices(vertices, height, normalize)[3 * j + c].value.normal
         == PlaneFaces(vertices, height, normalize)[j].value
  {
    assert (3 * j + c) / 3 == j;
  }

  /** Running the loops again changes nothing: positions depend only on x and z, normals only on positions. */
  lemma Idempotent(vertices: seq<Slot<Vertex>>, height: HeightFn, normalize: NormalizeFn)
    requires AllWritten(vertices) && |vertices| % 3 == 0
    ensures var once := PlaneVertices(vertices, height, normalize);
      PlaneVertices(once, height, normalize) == once &&
      PlaneFaces(once, height, normalize) == PlaneFaces(vertices, height, normalize)
  {
    var once := PlaneVertices(vertices, height, normalize);
    var lifted := Lifted(vertices, height);
    var relifted := Lifted(once, height);
    forall k | 0 <= k < |vertices|
      ensures relifted[k].value.position == lifted[k].value.position
    {
      var q := lifted[k].value.position;
      assert once[k].value.position == q;
      assert q.y == height(q.x, q.z);
    }
    forall j | 0 <= j < |vertices| / 3
      ensures FaceNormal(relifted, j, normalize) == FaceNormal(lifted, j, normalize)
    {
      assert relifted[3 * j].value.position == lifted[3 * j].value.position;
      assert relifted[3 * j + 1].value.position == lifted[3 * j + 1].value.position;
      assert relifted[3 * j + 2].value.position == lifted[3 * j + 2].value.position;
    }
    assert PlaneFaces(once, height, normalize) == PlaneFaces(vertices, height, normalize);
    forall k | 0 <= k < |vertices|
      ensures PlaneVertices(once, height, normalize)[k] == once[k]
    {
      assert k / 3 < |vertices| / 3;
    }
  }
}
