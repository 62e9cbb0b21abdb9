# tundra core, modelled in Dafny

tundra is a small C voxel-style terrain renderer. This project models the
parts of it that can be reasoned about, and proves properties of that model:

- **The chunk store** (`ChunkMap`, chunk_map.dfy). This is the hash table of
  loaded terrain chunks in src/util/chunk_map.c. It has a fixed number of
  buckets. Each bucket holds a singly linked chain of nodes, keyed by the
  chunk's integer coordinates (x, z), and a counter tracks the live nodes.
  - `ChunkTable` is a class. Its `buckets` array holds one `seq<Node>` per
    bucket, in chain order from the head. It becomes `null` after
    `free_chunk_map`.
  - Relinking a chain in place is modelled by reassigning that bucket.
  - Releasing a node means `delete_model` on its meshes plus `free`. It is
    modelled by appending the node's chunk to the ghost log `released`.
  - The class invariant says three things: the counter equals the total chain
    length, every node sits in the bucket its key hashes to, and every node
    is flagged loaded.
  - src/chunk_map.c is a copy of src/util/chunk_map.c. It differs only by two
    `(void)` casts, which shift its lines by one or two. It also has a
    `CHUNK_HASH_TEST` driver `main`, which is modelled by the driver methods
    at the end of the module.
- **The game-mode state machine** (`StateMachine`, state_machine.dfy).
  src/util/state.c (prefixed `fsm_`) and src/state.c (unprefixed names)
  have identical bodies. One class, `Machine`, models both.
  - A callback slot is modelled by which of its four callbacks are set.
  - Every callback invocation, with its state index and arguments, is
    appended to the ghost `trace`. That makes the order of calls provable.
- **Noise and terrain height** (`Noise`, noise.dfy): hash2, smoothstep,
  lerp, noise2D, fbm, ridgeNoise, terrainHeight and
  get_interpolated_terrain_height of src/proc_gen.c.
  - hash2's signed overflow is modelled as 32-bit wrap-around, written out explicitly (wrap-around assumed: C leaves it undefined).
  - src/scene.c has textually identical hash2, lerp and smoothstep. They are
    the same functions here.
- **Mesh building** (`Mesh`, mesh.dfy, and `Trees`, trees.dfy).
  - The vertex and face buffers of `model_t` are sequences of slots. A slot
    is `Written(v)`, or `Garbage` for memory `realloc` added that was never
    written.
  - generate_tree_cylinder exists in two versions, src/proc_gen.c and
    src/scene.c. They are one method, parametrised by the constants that
    tell them apart (`PROC_GEN_RULES`, `SCENE_RULES`).
- **Tree generation**: generate_tree of src/proc_gen.c (`ProcGenTree`,
  proc_gen_tree.dfy) and the older one of src/scene.c (`SceneTree`,
  scene_tree.dfy).
  - Each tree has a specification function, `Grow`. Given a node's place in
    the tree (its `path` of child indices), it returns the summed status and
    the list of cylinder calls, in call order.
  - The recursive methods are proved to return that status and to append
    exactly the slots of those calls.
  - Every geometric quantity the recursion needs is a sample indexed by the
    path (`Samples`). That covers position, angle, the ridge-noise height,
    the branch rolls, the cylinder frame and the normals, all of which come
    from floats, trigonometry and normalisation.
- **The ground plane** (`GroundPlane`, ground_plane.dfy): the three loops
  of generate_ground_plane. They lift each vertex onto the terrain,
  recompute each face normal, and give each vertex its face's normal.
- **Configuration** (`Config`, config.dfy): load_config, load_world_config
  and free_config of src/util/config.c.
  - The file and the JSON parser are abstracted. The parsed config.json is
    a record of optional sections of optional items, where each item is a
    string, a number or something else.
  - The globals `g_config` and `g_world_config` are the fields of the
    class `Settings`.

Floats are modelled as exact reals. `int`, `unsigned` and `size_t` are
bounded subsets of `int` (c_types.dfy). Wrap-around is written out where the
code relies on it: the hash products, `(unsigned)` casts, and `num_levels - 1`
when `num_levels` is 0. Two things are parameters of the model: `powf`, and
`float3_normalize`, whose square root Dafny cannot model exactly.

The model follows the code where it is surprising: a skipped cap still
counts its slots. The vertex and face counts generate_tree_cylinder adds
always cover both caps, even when a ring's radius is too small for its cap
to be drawn, and those slots stay unwritten (`Garbage`).

## Model

| member | source | states |
|---|---|---|
| ChunkMap.BucketIndex | src/util/chunk_map.c:5-7 | With 32-bit wrapping products, the xor, and the conversion to size_t, the index is below the bucket count for every key. |
| ChunkMap.FirstMatch | src/util/chunk_map.c:130-135 | The result is None exactly when no node of the chain has the key. Otherwise it is the position of the first node that has it. |
| ChunkMap.Find | src/util/chunk_map.c:130-137 | What chunk_lookup's walk of one chain finds: the node at the first key match, or nothing. |
| ChunkMap.RemoveFirst | src/util/chunk_map.c:77-92 | The chain remove_chunk's walk leaves: the first node with the key unlinked, the chain unchanged when there is none. |
| ChunkMap.Survivors | src/util/chunk_map.c:101-120 | The nodes of a chain remove_chunk_if keeps: those failing the predicate, in their order. |
| ChunkMap.Doomed | src/util/chunk_map.c:104-113 | The chunks of a chain remove_chunk_if frees: those satisfying the predicate, in chain order. |
| ChunkMap.Selected | src/util/chunk_map.c:160-167 | The chunks query_chunk_map collects from a chain: the loaded ones the predicate accepts, in chain order. |
| ChunkMap.ChunkTable.Init | src/util/chunk_map.c:26-33 | A fresh table has the requested number of buckets, all empty, a count of 0, and satisfies the invariant. |
| ChunkMap.ChunkTable.Insert | src/util/chunk_map.c:54-69 | Only the key's bucket changes: a loaded node is put at its head, with no duplicate check. The count grows by 1, nothing is released, and the invariant holds. |
| ChunkMap.ChunkTable.Lookup | src/util/chunk_map.c:124-138 | The result is the first node of the key's chain with that key. If found, it is in the table and has the key. None comes back exactly when no node of the whole table has the key. |
| ChunkMap.ChunkTable.IsChunkLoaded | src/util/chunk_map.c:140-143 | True exactly when some node in the table has the key. |
| ChunkMap.ChunkTable.Remove | src/util/chunk_map.c:71-93 | The key's bucket loses its first node with the key, and no other node. If one was found, the count drops by 1 and that chunk is released. Otherwise nothing changes. The invariant holds. |
| ChunkMap.ChunkTable.Unlink | src/util/chunk_map.c:78-87 | The found branch: it unlinks node k, which is the first match, from its chain, releases its chunk and decrements the count. |
| ChunkMap.ChunkTable.RemoveIf | src/util/chunk_map.c:95-122 | Every bucket becomes its nodes that fail the predicate, in their old order. The removed chunks are released in bucket-then-chain order. The count drops by their number, and the invariant holds. |
| ChunkMap.ChunkTable.SweepBuckets | src/util/chunk_map.c:98-121 | The outer loop of remove_chunk_if: after it, every bucket is swept. The release log and the count account for every removal. |
| ChunkMap.ChunkTable.SweepNext | src/util/chunk_map.c:99-120 | One pass of the outer loop: it sweeps bucket i and extends the release log by that bucket's removed chunks. |
| ChunkMap.SweepChain | src/util/chunk_map.c:101-120 | The inner loop walks past removed nodes. It keeps exactly the survivors, in order, and counts the removals: the chain length minus the survivors. |
| ChunkMap.ChunkTable.Query | src/util/chunk_map.c:155-169 | The count is the number of loaded nodes that satisfy the predicate. The buffer's first count entries are their chunks in bucket-then-chain order, and the rest of the buffer is untouched. |
| ChunkMap.CollectChain | src/util/chunk_map.c:160-167 | One chain of query_chunk_map: it appends the chain's selected chunks after the ones already collected. |
| ChunkMap.ChunkTable.GetAllChunks | src/util/chunk_map.c:146-153 | It yields every chunk of the table in bucket-then-chain order. The count equals the table's live-node counter, and the buffer past the count is left as it was. |
| ChunkMap.ChunkTable.Free | src/util/chunk_map.c:35-52 | Afterwards the buckets are null and the count is 0. Every chunk that was in the table is released, bucket by bucket. |
| ChunkMap.ChunkTable.ReleaseBuckets | src/util/chunk_map.c:38-47 | The loop over the buckets releases the chains in bucket order. |
| ChunkMap.ChunkTable.ReleaseChain | src/util/chunk_map.c:9-24 | Freeing a chain releases its chunks in chain order. |
| ChunkMap.KeyLivesInItsBucket | src/chunk_map.c:54-69 | In a table satisfying the invariant, a node with key (x, z) lies in bucket BucketIndex(x, z), so every keyed operation needs to visit only that bucket. |
| ChunkMap.FindMeaning | src/chunk_map.c:126-140 | Searching the key's bucket gives the same answer as searching the whole table: a node with the key, or None exactly when no node has it. |
| ChunkMap.FoundAt | src/chunk_map.c:79-89 | When node k is the first match of its chain, the search finds node k, and removing the first match removes exactly node k. |
| ChunkMap.UnlinkFirst | src/chunk_map.c:71-94 | Unlinking the first match keeps every node in its bucket and loaded, and shortens the table by one node. |
| ChunkMap.RemoveIfPreservesShape | src/chunk_map.c:96-124 | Filtering each bucket keeps every survivor in its own bucket and loaded. |
| ChunkMap.SurvivorsSubset | src/util/chunk_map.c:104-118 | No survivor of remove_chunk_if satisfies the predicate, and every survivor was in the chain. |
| ChunkMap.SurvivorsDoomedLength | src/util/chunk_map.c:101-120 | Survivors plus removed nodes add up to the chain length. |
| ChunkMap.FlattenSurvivors | src/util/chunk_map.c:98-121 | The swept table, read bucket by bucket, is the old table minus exactly the removed nodes. |
| ChunkMap.SelectedAllLoaded | src/util/chunk_map.c:146-149 | With a loaded table and the always-true predicate, the query selects every chunk. |
| ChunkMap.InsertIntoEmpty | src/chunk_map.c:179-186 | Inserting into the empty table leaves exactly one node, loaded, in the key's bucket. |
| ChunkMap.RemoveOnlyChunk | src/chunk_map.c:195 | Removing the only chunk leaves the table empty. |
| ChunkMap.InsertThenLookup | src/chunk_map.c:186-188 | Right after insert_chunk, chunk_lookup of the same key returns the new node, even when an older node with that key is still there. |
| ChunkMap.HashTestScenario | src/chunk_map.c:174-203 | The driver: the first lookup finds (69, 420), get_all_chunks counts 1, and the lookup after remove_chunk finds nothing. |
| StateMachine.ChangeEvents | src/util/state.c:68-76 | A valid change fires the old state's exit, when set, strictly before the new state's enter, when set, and nothing else. A self-transition fires both. |
| StateMachine.Transitions | src/util/state.c:64-77 | The callbacks a run of successful fsm_change_state calls fires: each change's events, in call order. |
| StateMachine.TransitionsAlternate | src/state.c:58-71 | With every enter and exit set, k changes fire 2k callbacks, alternating the exit of the state left and the enter of the target. |
| StateMachine.TransitionsInRange | src/state.c:64-70 | Successive valid changes only ever call callbacks of states in range. |
| StateMachine.TransitionsBalanced | src/util/state.c:64-77 | With every enter and exit set, exits and enters are equal in number to the changes. |
| StateMachine.Machine.Init | src/util/state.c:6-17 | Both indices take the default state, unchecked against num_states. Every slot is empty, there is no game state, size 0, and nothing is called. |
| StateMachine.Machine.Start | src/util/state.c:20-30 | Enter is called and 1 returned exactly when the index, read as unsigned, is in range and enter is set. Otherwise -1 is returned and nothing is called. |
| StateMachine.Machine.Free | src/util/state.c:33-42 | Afterwards there is no table, num_states is 0 and there is no game state of size 0. The indices are kept. |
| StateMachine.Machine.SetStateInterface | src/util/state.c:45-52 | A NULL interface or an out-of-range slot returns -1 and leaves the table unchanged. Otherwise only that slot is replaced, and 1 is returned. |
| StateMachine.Machine.UpdateInternalState | src/util/state.c:55-61 | A NULL pointer returns -1 with no change. Otherwise the pointer and size are stored, and 1 is returned. |
| StateMachine.Machine.ChangeState | src/util/state.c:64-77 | An out-of-range target returns -1 and changes neither the state nor the trace. A valid one returns 1, moves to the target, and fires ChangeEvents. |
| StateMachine.Machine.ChangeTwice | src/util/state.c:64-77 | Two successful fsm_change_state calls in a row, to a and then b, both return 1, end in b, and add exactly the callbacks Transitions gives for the run [a, b] to the trace. |
| StateMachine.Machine.GetState | src/util/state.c:80-84 | It returns the current index. |
| StateMachine.Machine.TickState | src/util/state.c:87-92 | It fires the current state's tick with dt when set, and otherwise fires nothing. |
| StateMachine.Machine.RenderState | src/util/state.c:95-102 | It returns the render callback's result when set, and otherwise 0 without a call. |
| Noise.HashBits | src/scene.c:24-28 | The masked integer of hash2, after 32-bit wrap-around, lies in [0, 2^31). |
| Noise.Hash2 | src/proc_gen.c:25-29 | hash2 lies in (-1, 1]. It is a function of (x, y, seed) alone. |
| Noise.Smoothstep | src/proc_gen.c:10-12 | smoothstep is the cubic t * t * (3 - 2t); src/scene.c:19-21 is the same function. |
| Noise.Lerp | src/proc_gen.c:20-22 | lerp moves from a towards b by the fraction t; src/scene.c:14-16 is the same function. |
| Noise.SmoothstepEnds | src/proc_gen.c:10-12 | smoothstep(0) = 0 and smoothstep(1) = 1. |
| Noise.SmoothstepUnit | src/scene.c:19-21 | smoothstep maps [0, 1] into [0, 1]. |
| Noise.SmoothstepSymmetric | src/proc_gen.c:11 | smoothstep(1 - t) = 1 - smoothstep(t). |
| Noise.LerpEnds | src/proc_gen.c:20-22 | lerp(a, b, 0) = a and lerp(a, b, 1) = b. |
| Noise.LerpBetween | src/scene.c:14-16 | For t in [0, 1], lerp stays between a and b. |
| Noise.FloorToInt | src/proc_gen.c:34-35 | On the range of int, `(int)floorf(v)` is the floor of v. |
| Noise.ValueNoise | src/proc_gen.c:32-52 | noise2D over any hash: the floor cell of (x, y), the hashes of its four corners, blended by the smoothstepped fractional parts. |
| Noise.Noise2D | src/proc_gen.c:32-52 | noise2D is that value noise over hash2. |
| Noise.NoiseRange | src/proc_gen.c:32-52 | For coordinates whose cell fits in an int, noise2D lies in (-1, 1]. |
| Noise.NoiseAtLattice | src/proc_gen.c:43-51 | At integer coordinates, noise2D is hash2 of that corner. |
| Noise.FbmOf | src/proc_gen.c:55-70 | fbm over any base noise: the octave sum, with halving amplitudes, doubling frequencies and seed + i, divided by the sum of the amplitudes. |
| Noise.Fbm | src/proc_gen.c:55-70 | fbm is that sum over noise2D. |
| Noise.AccumulateOctaves | src/proc_gen.c:55-70 | The octave loop computes the fbm sum of halving amplitudes and doubling frequencies, divided by the summed amplitudes. |
| Noise.ComputeFbm | src/proc_gen.c:55-70 | fbm over noise2D equals its specification Fbm. |
| Noise.FbmRange | src/proc_gen.c:61-69 | When every octave's cell fits in an int, fbm lies in [-1, 1]. |
| Noise.RidgeOf | src/proc_gen.c:73-76 | ridgeNoise over any base noise: one minus the magnitude of a four-octave fbm. |
| Noise.Ridge | src/proc_gen.c:73-76 | ridgeNoise is that over noise2D. |
| Noise.RidgeRange | src/proc_gen.c:73-76 | Under the same condition, ridgeNoise lies in [0, 1]. |
| Noise.RawHeightOf | src/proc_gen.c:79-109 | terrainHeight before the clamp: the three hill layers and the 8 shift, plus the warped ridge mountains raised to 1.5 and the smoothstepped mask, with the seeds world seed + seed + k. |
| Noise.TerrainHeight | src/proc_gen.c:79-113 | terrainHeight is the clamped height over noise2D. |
| Noise.TerrainHeightOf | src/proc_gen.c:79-113 | The height is never below the lake level 0. It is the blended raw height whenever that is at least 0, and the lake level otherwise. |
| Noise.Sample | src/proc_gen.c:119-144 | The bilinear interpolation on a grid of size 1 of a height field at the corners of the floor cell of (x, z). |
| Noise.InterpolatedHeight | src/proc_gen.c:115-145 | get_interpolated_terrain_height is that interpolation of terrainHeight, called with the world seed as its seed. |
| Noise.InterpolatedAtLattice | src/proc_gen.c:115-145 | At integer (x, z), the interpolated height is terrainHeight at that corner. |
| Noise.InterpolatedAboveLake | src/proc_gen.c:136-144 | Between lattice points, for coordinates whose cell fits in an `int`, the interpolated height also stays at or above the lake level. |
| Mesh.Rejects | src/proc_gen.c:149 | The parameter check: a NULL model, too few segments (4 here, 3 at src/scene.c:197), a negative radius, or a height at or below the minimum. |
| Mesh.Degenerate | src/proc_gen.c:152 | Both radii below 0.0001, which only src/proc_gen.c checks. |
| Mesh.DrawsCap | src/proc_gen.c:240 | A ring gets its cap fan when its radius exceeds 0.0001 (0 at src/scene.c:285 and 320). |
| Mesh.CylinderStatus | src/proc_gen.c:149-152 | The status is -1 when the check rejects, 0 otherwise, the degenerate exit included. |
| Mesh.Builds | src/proc_gen.c:149-152 | A call grows the buffers exactly when the check passes and the degenerate exit is not taken. |
| Mesh.VertexCount | src/proc_gen.c:155-158 | The vertices a call counts: 6 per side segment plus 3 per triangle of each cap, drawn or not (the same at src/scene.c:200-203). |
| Mesh.FaceCount | src/proc_gen.c:159 | The faces a call counts: 2 per side segment plus one per triangle of each cap (the same at src/scene.c:204). |
| Mesh.CylinderVertices | src/proc_gen.c:183-308 | The vertices the builder writes for one cylinder, in buffer order: the side quads, then each drawn cap fan, the top one reversed. |
| Mesh.CylinderFaces | src/proc_gen.c:183-308 | The face normals the builder writes, in buffer order: each side normal twice, then one cap normal per drawn fan triangle. |
| Mesh.CylinderSizes | src/proc_gen.c:155-159 | The counts are 12n - 12 vertices and 4n - 4 faces, three vertices per face. The written blocks never exceed them, and they fill the counts exactly when both caps are drawn. |
| Mesh.CylinderNormalsAgree | src/proc_gen.c:183-309 | In the written blocks, every vertex carries the normal of its face, vertex j belonging to face j / 3. |
| Mesh.GenerateTreeCylinder | src/proc_gen.c:148-314 | It returns -1 and leaves the model unchanged for a NULL model, too few segments, a negative radius or a too-low height. It returns 0 unchanged for a degenerate cylinder. Otherwise both buffers gain the counted region: the sides, then each drawn cap, then unwritten slots. |
| Mesh.AppendCylinder | src/proc_gen.c:155-172 | The realloc'd region has exactly the counted size, filled as the cylinder's blocks followed by unwritten slots. |
| Mesh.FillCylinder | src/proc_gen.c:174-309 | The writes are the side block, then the bottom fan if drawn, then the top fan if drawn, each at the next free index. |
| Mesh.SideLoop | src/proc_gen.c:183-238 | The side loop writes 6 vertices and 2 faces per segment. |
| Mesh.SideStep | src/proc_gen.c:184-236 | One side segment: two triangles and their two normals. |
| Mesh.CapFan | src/proc_gen.c:240-272 | A cap is n - 2 triangles when its radius is above the threshold, and nothing otherwise. |
| Mesh.CapStep | src/proc_gen.c:242-271 | One cap triangle and its normal at the next indices. |
| Mesh.Model.EmitVertex | src/proc_gen.c:226 | A vertex written at the next free index extends the written block of the region. |
| Mesh.Model.EmitFace | src/proc_gen.c:235-236 | A face normal written at the next free index extends the written block of the region. |
| Mesh.Model.EmitTriangle | src/proc_gen.c:266-268 | Three vertices written at the next free indices extend the written block of the region. |
| Trees.AppendSegment | src/proc_gen.c:352 | One cylinder call: its status comes back, and both buffers gain exactly that call's slots. |
| Trees.CallSlotCounts | src/scene.c:200-204 | A call that builds adds 12n - 12 vertex slots and 4n - 4 face slots. A call that does not build adds none. |
| Trees.VertexSlotCount | src/proc_gen.c:155-158 | Calls with n sides add 12n - 12 vertex slots per built call. |
| Trees.FaceSlotCount | src/proc_gen.c:159 | Calls with n sides add 4n - 4 face slots per built call. |
| Trees.SlotRatio | src/proc_gen.c:310-311 | For any sequence of calls, the vertex slots are three times the face slots. |
| Trees.StatusCounts | src/proc_gen.c:149-152 | The summed status lies between minus the number of calls and 0. It is 0 exactly when no call was rejected, and minus the number exactly when every call was. |
| Trees.AcceptedBuild | src/scene.c:197 | Without a degenerate exit, a summed status of 0 means every call built. |
| Trees.LastLevel | src/proc_gen.c:334 | `num_levels - 1` in size_t: one less than the count, or 2^64 - 1 when the count is 0. |
| Trees.FloatToUsize | src/proc_gen.c:358 | The `(usize)` cast truncates a non-negative float, and gives 0 below 1. |
| Trees.DepthStep | src/proc_gen.c:354-424 | Recursing to `level + 1` below the last level cannot overflow, and lowers the remaining depth by one. |
| ProcGenTree.SegmentHeight | src/proc_gen.c:329-341 | 8 on the trunk, max(0.3, 1.2 ridge) at the last level, max(0.5, 3.5 ridge) in the middle. |
| ProcGenTree.TaperFactor | src/proc_gen.c:319-343 | 0.01 at the last level unless it is the trunk, 0.85 otherwise. |
| ProcGenTree.EffectiveChance | src/proc_gen.c:369 | The trunk rolls against min(0.95, chance + 0.15), other levels against the chance itself. |
| ProcGenTree.ChildRadius | src/proc_gen.c:373-374 | Child i starts at the top radius times 0.75 + 0.3 hash2(29 i, 31 level). |
| ProcGenTree.Branches | src/proc_gen.c:354 | A node tries children exactly when its level is below num_levels - 1 and its chance exceeds 0.2. |
| ProcGenTree.Grow | src/proc_gen.c:316-429 | What generate_tree returns and the cylinder calls it makes: -1 and none below 3 sides, else its own segment, then its offspring. |
| ProcGenTree.Offspring | src/proc_gen.c:354-426 | The children of a node: none at or past the last level or at a chance of at most 0.2, else BranchCount of them. |
| ProcGenTree.Children | src/proc_gen.c:362-425 | Children i to n - 1, in loop order, statuses added. |
| ProcGenTree.Child | src/proc_gen.c:365-424 | Child i: nothing when its roll exceeds the effective chance, else its subtree one level deeper at 0.7 times the chance. |
| ProcGenTree.BranchCount | src/proc_gen.c:356-360 | The number of branches tried never exceeds max_branches. |
| ProcGenTree.SegmentHeightBound | src/proc_gen.c:329-341 | Every segment is at least 0.3 high. |
| ProcGenTree.ChildRadiusSign | src/proc_gen.c:372-374 | A child's base radius is non-negative when the parent's top radius is and the hash lies in (-1, 1]. |
| ProcGenTree.GenerateTree | src/proc_gen.c:316-429 | NULL returns -1. Otherwise the status is that of Grow, and both buffers gain exactly the slots of Grow's cylinder calls, in order. |
| ProcGenTree.BuildTree | src/proc_gen.c:327-352 | One node: own segment first, then its children. Status and slots are those of Grow for that node's path. |
| ProcGenTree.BranchOut | src/proc_gen.c:354-360 | Children are tried only below the last level and above a chance of 0.2, at most max_branches of them. |
| ProcGenTree.GrowChildren | src/proc_gen.c:362-425 | The loop sums the children's statuses and appends their slots in loop order. |
| ProcGenTree.GrowChild | src/proc_gen.c:365-424 | A child is skipped when its roll exceeds the effective chance. Otherwise it recurses at `level + 1` with 0.7 times the chance. |
| ProcGenTree.GrowSound | src/proc_gen.c:316-429 | Once num_side_faces is at least 3, the tree's status is the sum of its cylinder statuses, and every call has num_side_faces sides and height at least 0.3. With fewer sides the tree returns -1 and makes no call (src/proc_gen.c:327-328). With a non-negative root radius and a hash in (-1, 1], no radius is negative. The number of calls is bounded by the fan-out over the remaining depth. |
| ProcGenTree.OffspringSound | src/proc_gen.c:354-426 | The same for a node's offspring; at or past the last level there are none. |
| ProcGenTree.ChildrenSound | src/proc_gen.c:362-425 | The same for children i to n - 1; at most n - i subtrees of the next level. |
| ProcGenTree.ChildSound | src/proc_gen.c:369-424 | The same for one child: nothing, or a subtree of the next level. |
| ProcGenTree.ThreeSidedTreeFails | src/proc_gen.c:149 | With 3 sides every cylinder call is rejected, since it asks for at least 4. The tree returns minus its number of calls and writes nothing. |
| ProcGenTree.TreeSucceeds | src/proc_gen.c:327-424 | With at least 4 sides, a non-negative radius and a hash in (-1, 1], the tree returns 0. |
| ProcGenTree.GenerateTreeSucceeds | src/proc_gen.c:372-374 | The same with hash2 itself. |
| ProcGenTree.TreeSlotCounts | src/proc_gen.c:155-159 | Each built call of an n-sided tree adds 12n - 12 vertex and 4n - 4 face slots, and there are at most Capacity calls. |
| SceneTree.SegmentHeight | src/scene.c:100 | 8 on the trunk, 2 plus half the ridge sample above it. |
| SceneTree.TaperFactor | src/scene.c:102-105 | 0 at the last level, 0.9 otherwise. |
| SceneTree.ContinuationRadius | src/scene.c:164 | Continuation i starts at the top radius times 0.85 + 0.1 hash2(29 i, 31 level). |
| SceneTree.Branches | src/scene.c:152 | A node tries continuations exactly when its level is below num_levels - 1 and its chance exceeds 0.2. |
| SceneTree.Grow | src/scene.c:90-193 | What generate_tree returns and the cylinder calls it makes: nothing at `level == num_levels`, else its 8-sided segment, then its continuations. |
| SceneTree.Offspring | src/scene.c:152-190 | The continuations of a node: none at or past the last level or at a chance of at most 0.2. |
| SceneTree.Continuations | src/scene.c:158-189 | Continuations i to n - 1, in loop order, statuses added. |
| SceneTree.Continuation | src/scene.c:160-188 | Continuation i: nothing when its roll exceeds the chance, else its subtree one level deeper at 0.8 times the chance. |
| SceneTree.ContinuationCount | src/scene.c:155-156 | The number of continuations tried never exceeds max_branches. |
| SceneTree.ContinuationRadiusSign | src/scene.c:164 | A continuation's radius is non-negative when the top radius is and the hash lies in (-1, 1]. |
| SceneTree.GenerateTree | src/scene.c:90-193 | NULL returns -1. Otherwise the status and slots are those of Grow: nothing at `level == num_levels`, else the 8-sided segment, then its continuations. |
| SceneTree.BuildTree | src/scene.c:91-144 | A NULL model returns -1, and `level == num_levels` returns 0 with no change. Otherwise it does its own segment, then its continuations. |
| SceneTree.BranchOut | src/scene.c:152-156 | Continuations are tried only below the last level and above a chance of 0.2, at most max_branches of them. |
| SceneTree.GrowContinuations | src/scene.c:158-189 | The loop sums the continuations' statuses and appends their slots in loop order. |
| SceneTree.GrowContinuation | src/scene.c:160-188 | A continuation is skipped when its roll exceeds the chance. Otherwise it recurses at `level + 1` with 0.8 times the chance. |
| SceneTree.GrowSound | src/scene.c:90-193 | Each tree's status is the sum of its cylinder statuses. Every call has 8 sides and a height of 8 or of 2 plus half some ridge sample, which is more than 0 when every ridge sample exceeds -4. When the root radius is non-negative and the hash lies in (-1, 1], no radius of any call is negative. The number of calls is at most Capacity(max_branches, depth). |
| SceneTree.OffspringSound | src/scene.c:152-190 | A node's continuations, taken together: their status is the sum of their cylinder statuses, every call has 8 sides and a height of 8 or of 2 plus half some ridge sample (more than 0 when every ridge sample exceeds -4), and no radius is negative when the top radius is non-negative and the hash lies in (-1, 1]. Below the last level they make at most Capacity - 1 calls; at or past it there are none. |
| SceneTree.ContinuationsSound | src/scene.c:158-189 | Continuations i to n - 1 of the loop: the status is the sum of their cylinder statuses, every call has 8 sides and a height of 8 or of 2 plus half some ridge sample (more than 0 when every ridge sample exceeds -4), and no radius is negative when the top radius is non-negative and the hash lies in (-1, 1]. They make at most n - i times the next level's Capacity calls. |
| SceneTree.ContinuationSound | src/scene.c:160-188 | Continuation i: nothing when its roll exceeds the chance, else a subtree whose status is the sum of its cylinder statuses, every call with 8 sides and a height of 8 or of 2 plus half some ridge sample (more than 0 when every ridge sample exceeds -4), no radius negative when the top radius is non-negative and the hash lies in (-1, 1], and at most the next level's Capacity calls. |
| SceneTree.TreeSucceeds | src/scene.c:144 | With a non-negative radius, a hash in (-1, 1] and ridge samples above -4, every call passes the check, so the tree returns 0. |
| SceneTree.GenerateTreeSucceeds | src/scene.c:164 | The same with hash2 itself. |
| SceneTree.TreeSlotCounts | src/scene.c:200-204 | 84 vertex and 28 face slots per built call. The status lies between minus the number of calls and 0, and a status of 0 means every call built. Calls are bounded by Capacity. |
| SceneTree.PointedTop | src/scene.c:103-106 | At the last level the one cylinder call has top radius 0, so no top cap is drawn (the guard at src/scene.c:320) and nothing grows above it. When it builds, its 18 top-cap vertex slots and 6 face slots stay unwritten. |
| GroundPlane.PlaneVertices | src/proc_gen.c:435-456 | The vertex buffer after the loops: each vertex lifted to the height at its x and z, carrying the normal of face k / 3. |
| GroundPlane.PlaneFaces | src/proc_gen.c:435-451 | The face buffer after the loops: face j is the normalised cross product of the lifted triangle's edges. |
| GroundPlane.FaceNormal | src/proc_gen.c:442-450 | Face j's normal: the normalised cross product of the edges v2 - v0 and v1 - v0 of vertices 3j, 3j + 1 and 3j + 2. |
| GroundPlane.LiftVertices | src/proc_gen.c:435-438 | Every vertex moves to the terrain height at its x and z; nothing else changes. |
| GroundPlane.ComputeFaceNormals | src/proc_gen.c:441-451 | Face i gets the normalised cross product of its triangle's second and first edge. |
| GroundPlane.ShareNormals | src/proc_gen.c:454-456 | Vertex k gets the normal of face k / 3. |
| GroundPlane.Relief | src/proc_gen.c:435-456 | The three loops together give the relief of PlaneVertices and PlaneFaces. |
| GroundPlane.GenerateGroundPlane | src/proc_gen.c:431-457 | The same, on terrainHeight with the world seed. |
| GroundPlane.OnTerrain | src/proc_gen.c:436-437 | Each vertex keeps its x and z and sits at the terrain height there. |
| GroundPlane.AboveLakeLevel | src/proc_gen.c:437 | No ground vertex lies below the lake level 0. |
| GroundPlane.NormalsShared | src/proc_gen.c:454-456 | The three vertices of face j carry the normal stored for face j. |
| GroundPlane.Idempotent | src/proc_gen.c:434-456 | Running the three loops a second time changes neither buffer. |
| Config.CString | src/util/config.c:31-32 | The C string of a buffer is its prefix before the first NUL. |
| Config.TitleText | src/util/config.c:74-75 | The title buffer always holds title_size characters, the last one NUL. |
| Config.CopyTitle | src/util/config.c:31-32 | The strncpy into the title buffer writes the C string of the source cut to title_size - 1 characters, then NUL padding and the final NUL. Bytes past title_size are untouched. |
| Config.TitleRoundTrip | src/util/config.c:73-76 | Read back as a C string, the title buffer is the selected title cut to title_size - 1 characters. |
| Config.WindowFrom | src/util/config.c:27-79 | Width, height and scale: 200, 125 and 8, each replaced, through the `(unsigned int)` cast, by its window item when that is a number. |
| Config.TitleFrom | src/util/config.c:31-76 | The title selected: the window's title when it is a string, else "Tundra". |
| Config.UnsignedSetting | src/util/config.c:77-79 | A window setting: the item's number through the `(unsigned int)` cast when the item is a number, else the default. |
| Config.IntSetting | src/util/config.c:108-111 | A world setting: the item's number when the item is a number, else the default. |
| Config.DocumentAfter | src/util/config.c:34-63 | g_config after load_config: unchanged when the file is missing or its buffer cannot be allocated, NULL when it does not parse, the parsed document otherwise. |
| Config.Settings.LoadConfig | src/util/config.c:24-86 | The defaults are written first. A missing or unreadable file returns -1 with them. An unparsable file returns -1 with them and clears g_config. Otherwise it returns 0, and only numbers override width, height and scale, and only a string overrides the title. |
| Config.WindowDefaultsOnFailure | src/util/config.c:27-38 | When the file is not parsed, the window is 200 x 125 at scale 8, titled "Tundra". |
| Config.NegativeWindowSetting | src/util/config.c:77-79 | A negative number reaches the caller as 2^32 plus it, through the `(unsigned int)` cast. |
| Config.Settings.LoadWorldConfig | src/util/config.c:88-125 | It returns 0. The world configuration is the defaults, overridden by numeric items, plus the derived fields. |
| Config.Derive | src/util/config.c:118-122 | The world configuration with its derived fields: half the chunk size truncated, and (2r + 1)^2 chunks with 32-bit wrap-around. |
| Config.WorldFrom | src/util/config.c:88-122 | g_world_config after load_world_config: the defaults, each replaced by its world item when that is a number, then derived. |
| Config.WorldDefaults | src/util/config.c:19-22 | Without a world section: seed 2, chunk size 32 (half 16), 4 segments, radius 1, and 9 chunks. |
| Config.WorldOverrides | src/util/config.c:101-111 | Each world field takes its item's number exactly when that item is a number, and keeps its default otherwise. |
| Config.DerivedFields | src/util/config.c:120-122 | The half chunk size is the chunk size over 2, truncated. For radii up to 23169, max_chunks is (2r + 1)^2, odd and at least 1. |
| Config.LoadSquare | src/util/config.c:122 | For radii up to 23169, the square does not overflow an int. |
| Config.Settings.FreeConfig | src/util/config.c:127-132 | g_config is released and reset to NULL; the world configuration is kept. |

## Left out

- NULL guards on `map`, `sm`, `chunk` and the query buffers: the model's objects always exist. The NULL `model` of a tree or cylinder call is modelled.
- StateMachine.Machine.Start: requires that a current index passing the `(unsigned)` range check is non-negative. src/util/state.c:23 checks the converted value but indexes with the signed one, so with more than 2^31 states a negative index would read before the table.
- StateMachine.Machine.ChangeState: for an in-range target, requires the current index to be in range and the target below 2^31. src/util/state.c:68 reads `states[current_state]` unchecked, which is out of bounds after fsm_init with `default_state >= num_states` (lines 9-13). A target of 2^31 or more would be stored as a negative `int`.
- StateMachine.Machine.TickState: requires the current index to be in range. src/util/state.c:90 reads `states[current_state]` unchecked, out of bounds after fsm_init with `default_state >= num_states` and a NULL read after fsm_free.
- StateMachine.Machine.RenderState: requires the current index to be in range, for the same unchecked read at src/util/state.c:98. src/state.c makes the same four reads.
- ChunkMap.ChunkTable.Query and ChunkMap.ChunkTable.GetAllChunks: the buffer receives copies of the chunk values. C stores pointers into the nodes (src/util/chunk_map.c:163), so the buffer aliases the table and dangles once a later remove frees a node; the aliasing is not modelled.
- ChunkMap.HashTestScenario: `count` is a natural number. The driver at src/chunk_map.c:190-192 passes the address of an `int` where get_all_chunks expects a `usize *`, so the 8-byte store overruns the 4-byte `int`; the overrun is not modelled.
- ChunkMap.ChunkTable.Free and the keyed chunk-map operations: every operation requires `buckets != null`. free_chunk_map (src/util/chunk_map.c:35-52) sets `buckets` to NULL but keeps `num_buckets`, so a later call on the freed table would dereference NULL. Use after free is not modelled; the driver at src/chunk_map.c:177-199 frees the table last.
- A table with 0 buckets is left out. Every keyed chunk-map operation requires at least one bucket, because `% 0` is undefined in C.
- What `delete_model`, `free` and the FSM callbacks do is left out. Releases and callback calls are recorded in ghost logs. A render callback's triangle count is an input of RenderState.
- `malloc`, `calloc` or `realloc` returning NULL is left out. The one exception is config.json's buffer, which is `OutOfMemory`. The failure branch of generate_tree_cylinder is not modelled, for the same reason.
- Overflow of size_t vertex, face and branch counts is left out. Counts are unbounded naturals.
- Floats are exact reals, so float rounding is not modelled.
- Noise.Hash2: the range (-1, 1] holds over reals. In `float`, `(float)2147483647` rounds to 2^31, so src/proc_gen.c:28 can return exactly -1.0. ProcGenTree.ChildRadiusSign and SceneTree.ContinuationRadiusSign still hold at -1, since 0.75 - 0.3 and 0.85 - 0.1 are positive.
- Texture coordinates: `Vertex` holds a position and a normal only. The `make_float2` coordinates both builders write (src/proc_gen.c:226-233, 266-268, 302-304; src/scene.c:271-278, 311-313, 347-349) are not modelled.
- `sinf`, `cosf`, `float3_normalize` and `powf` are parameters.
- Tree geometry comes in as path-indexed samples: base angle, base position, top centre, branch directions, frames and normals, and the ridge-noise segment heights.
- Trees.FloatToUsize: C defines `(usize)` of a float only when its truncation fits, that is for floats in (-1, 2^64); there the model truncates. For floats at or below -1 the model gives 0, and at or above 2^64 it gives 2^64 - 1, where C is undefined. The undefined case is reachable: at src/proc_gen.c:358 a branch_variation in (-1, -0.75] makes `branch_variation * 2 + 0.5` truncate to -1, and the model then tries base_branches children. At src/scene.c:155 the argument lies in (-0.5, 1.5], so that cast stays defined.
- Noise.NoiseRange, Noise.FbmRange, Noise.RidgeRange and Noise.InterpolatedAboveLake: stated only for coordinates whose cells fit in an `int`. Outside that range `(int)floorf` is undefined.
- Signed-overflow wrap-around: hash2's `y * 57` and `x + y * 57`, its `n << 13` on a negative `n`, and its products `n * (n * n * 15731 + 789221) + 1376312589` (src/proc_gen.c:26-28, src/scene.c:25-27); noise2D's `xi + 1` and `yi + 1` (src/proc_gen.c:44-46); fbm's `seed + i` (src/proc_gen.c:62); get_chunk_hash's `x * 73856093` and `z * 19349663` (src/util/chunk_map.c:6, src/chunk_map.c:6), which overflow already for the key x = 69; the seed sums of terrainHeight; `gx + 1`; and `max_chunks` beyond a radius of 23169. All are undefined in C and modelled as 32-bit wrap-around.
- ProcGenTree.GenerateTree and SceneTree.GenerateTree: the status accumulator `int ret` (src/proc_gen.c:352, 424; src/scene.c:144, 187) is an unbounded integer in the model, as is Trees.StatusSum. Each rejected cylinder call adds -1, so past 2^31 rejected calls C's `ret +=` overflows, which is undefined. The model still returns the exact negative sum. This happens, for instance, with `num_side_faces == 3`, where every call is rejected, and a deep, widely branching tree. ProcGenTree.ThreeSidedTreeFails states `status == -|calls|` and so holds as C's value only while that count stays below 2^31. This accumulator is not among the overflows modelled as 32-bit wrap-around.
- hash2's seed product: the literal 2654435761 exceeds INT_MAX, so it has a 64-bit type and `seed * 2654435761` cannot overflow. The sum is then stored into `int n` (src/proc_gen.c:26, src/scene.c:25). That narrowing is implementation-defined, not undefined. The model takes the wrap-around of the usual compilers.
- map_range (src/proc_gen.c:15-17, src/scene.c:8-12) has no caller among the modelled functions.
- noise2D, fbm, ridgeNoise and terrainHeight of src/scene.c are not part of this model. They belong to the older variant, and only its hash2, lerp, smoothstep, trees and cylinders are modelled.
- generate_plane belongs to the shader-works library and is not part of this model. GroundPlane takes the grid it leaves: every slot written, three vertices per face. The reset of `model->transform` is left out.
- cJSON and file I/O: config.json is given as Missing, OutOfMemory, Malformed or a parsed document. cJSON's case-insensitive key lookup and its `valueint` saturation of large doubles are inside the parser. `printf` is left out.
- `ground_segment_size` (a float division) is left out.
- A title_size of 0 underflows `title_size - 1` in C, so LoadConfig requires at least 1.
- A reload of config.json overwrites `g_config` without freeing the old document; the leak is not modelled.
- src/main.c, src/shaders.c and the headers (types only) are not part of this model.
