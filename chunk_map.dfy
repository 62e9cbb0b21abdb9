/**
 * The chunk store of src/util/chunk_map.c (and its duplicate src/chunk_map.c):
 * a fixed number of buckets, each a singly linked chain of nodes, keyed by the
 * integer chunk coordinates (x, z), with a counter of live nodes.
 *
 * A chain is modelled as the sequence of its nodes from the head; relinking a
 * chain in place is modelled by reassigning that bucket's sequence. The
 * meshes a chunk owns are opaque handles, and releasing a node (delete_model
 * and free) is modelled by appending its chunk to the ghost log `released`.
 */
module ChunkMap {
  import opened CTypes

  /** Number of buckets the demo driver uses (CHUNK_MAP_NUM_BUCKETS). */
  const CHUNK_MAP_NUM_BUCKETS: nat := 9

  /** Opaque handle of a mesh (model_t) owned by a chunk. */
  type MeshHandle = nat

  /** chunk_t: grid coordinates, the ground mesh and the tree meshes. */
  datatype Chunk = Chunk(x: int32, z: int32, ground: MeshHandle, trees: seq<MeshHandle>)

  /** chunk_map_node_t without its `next` link: the link is the chain order. */
  datatype Node = Node(chunk: Chunk, loaded: bool)

  /** get_chunk_hash: two odd multipliers, xor, then modulo the bucket count. */
  function BucketIndex(x: int32, z: int32, numBuckets: nat): (i: nat)
    requires numBuckets > 0
    ensures i < numBuckets
  {
    // `x * 73856093` and `z * 19349663` are 32-bit int products (wrapping),
    // the xor is an int, and `% table_size` first converts it to size_t.
    var h := Xor32(Bits32(x * 73856093), Bits32(z * 19349663));
    ToUsize(Wrap32(h)) % numBuckets
  }

  predicate Matches(n: Node, x: int32, z: int32) {
    n.chunk.x == x && n.chunk.z == z
  }

  /** Position of the first node of `chain` whose key is (x, z). */
  function FirstMatch(chain: seq<Node>, x: int32, z: int32): (r: Option<nat>)
    ensures r.None? <==> forall k :: 0 <= k < |chain| ==> !Matches(chain[k], x, z)
    ensures r.Some? ==> r.value < |chain| && Matches(chain[r.value], x, z)
    ensures r.Some? ==> forall k :: 0 <= k < r.value ==> !Matches(chain[k], x, z)
  {
    if |chain| == 0 then None
    else if Matches(chain[0], x, z) then Some(0)
    else match FirstMatch(chain[1..], x, z)
      case None => None
      case Some(k) => Some(k + 1)
  }

  /** What chunk_lookup finds in one chain. */
  function Find(chain: seq<Node>, x: int32, z: int32): Option<Node> {
    match FirstMatch(chain, x, z)
    case None => None
    case Some(k) => Some(chain[k])
  }

  /** The chain after remove_chunk unlinked its first node with key (x, z). */
  function RemoveFirst(chain: seq<Node>, x: int32, z: int32): seq<Node> {
    match FirstMatch(chain, x, z)
    case None => chain
    case Some(k) => chain[..k] + chain[k + 1..]
  }

  /** The nodes of a chain that remove_chunk_if keeps, in their order. */
  function Survivors(chain: seq<Node>, pred: Chunk -> bool): seq<Node> {
    if |chain| == 0 then []
    else Survivors(chain[..|chain| - 1], pred)
         + (if pred(chain[|chain| - 1].chunk) then [] else [chain[|chain| - 1]])
  }

  /** The chunks of the nodes of a chain that satisfy `pred`, in order. */
  function Doomed(chain: seq<Node>, pred: Chunk -> bool): seq<Chunk> {
    if |chain| == 0 then []
    else Doomed(chain[..|chain| - 1], pred)
         + (if pred(chain[|chain| - 1].chunk) then [chain[|chain| - 1].chunk] else [])
  }

  /** The chunks query_chunk_map collects from a chain: loaded and accepted. */
  function Selected(chain: seq<Node>, pred: Chunk -> bool): seq<Chunk> {
    if |chain| == 0 then []
    else Selected(chain[..|chain| - 1], pred)
         + (var n := chain[|chain| - 1]; if n.loaded && pred(n.chunk) then [n.chunk] else [])
  }

  function Chunks(chain: seq<Node>): (cs: seq<Chunk>)
    ensures |cs| == |chain|
  {
    if |chain| == 0 then [] else Chunks(chain[..|chain| - 1]) + [chain[|chain| - 1].chunk]
  }

  /** All nodes of the table in bucket-then-chain order. */
  function Flatten(bs: seq<seq<Node>>): seq<Node> {
    if |bs| == 0 then [] else Flatten(bs[..|bs| - 1]) + bs[|bs| - 1]
  }

  /** Every node sits in the bucket its key hashes to. */
  predicate WellPlaced(bs: seq<seq<Node>>) {
    forall i, k :: 0 <= i < |bs| && 0 <= k < |bs[i]| ==>
      BucketIndex(bs[i][k].chunk.x, bs[i][k].chunk.z, |bs|) == i
  }

  /** Every node is marked loaded (insert_chunk is the only writer of the flag). */
  predicate AllLoaded(bs: seq<seq<Node>>) {
    forall i, k :: 0 <= i < |bs| && 0 <= k < |bs[i]| ==> bs[i][k].loaded
  }

  class ChunkTable {
    /** `buckets`; null after free_chunk_map. */
    var buckets: array?<seq<Node>>
    var numBuckets: usize
    var numLoadedChunks: nat
    /** Chunks whose meshes and node have been released, in release order. */
    ghost var released: seq<Chunk>

    ghost predicate Valid()
      reads this, buckets
    {
      && (buckets == null ==> numLoadedChunks == 0)
      && (buckets != null ==>
            && buckets.Length == numBuckets
            && WellPlaced(buckets[..])
            && AllLoaded(buckets[..])
            && numLoadedChunks == |Flatten(buckets[..])|)
    }

    /** The live nodes in bucket-then-chain order. */
    ghost function Nodes(): seq<Node>
      reads this, buckets
      requires buckets != null
    {
      Flatten(buckets[..])
    }

    /** init_chunk_map: `numBuckets` empty chains and no live chunk. */
    constructor Init(n: usize)
      ensures Valid() && fresh(buckets)
      ensures buckets != null && numBuckets == n
      ensures forall i :: 0 <= i < buckets.Length ==> buckets[i] == []
      ensures numLoadedChunks == 0 && released == []
    {
      numBuckets := n;
      buckets := new seq<Node>[n](_ => []);
      numLoadedChunks := 0;
      released := [];
      new;
      FlattenEmpty(buckets[..]);
    }

    /** insert_chunk: prepend a loaded node to the key's chain, count it. */
    method Insert(c: Chunk)
      requires Valid() && buckets != null && numBuckets > 0
      modifies this, buckets
      ensures Valid() && buckets == old(buckets) && numBuckets == old(numBuckets)
      ensures var i := BucketIndex(c.x, c.z, numBuckets);
        buckets[..] == old(buckets[..])[i := [Node(c, true)] + old(buckets[i])]
      ensures numLoadedChunks == old(numLoadedChunks) + 1
      ensures released == old(released)
    {
      var index := BucketIndex(c.x, c.z, numBuckets);
      var oldHead := buckets[index];
      ghost var before := buckets[..];
      buckets[index] := [Node(c, true)] + oldHead;
      assert buckets[..] == before[index := [Node(c, true)] + oldHead];
      FlattenUpdateLength(before, index, [Node(c, true)] + oldHead);
      numLoadedChunks := numLoadedChunks + 1;
    }

    /** chunk_lookup: the first node of the key's chain with that key. */
    method Lookup(x: int32, z: int32) returns (r: Option<Node>)
      requires Valid() && buckets != null && numBuckets > 0
      ensures r == Find(buckets[BucketIndex(x, z, numBuckets)], x, z)
      ensures r.Some? ==> Matches(r.value, x, z) && r.value in Nodes()
      ensures r.None? <==> forall n :: n in Nodes() ==> !Matches(n, x, z)
    {
      var index := BucketIndex(x, z, numBuckets);
      var chain := buckets[index];
      var k := 0;
      while k < |chain|
        invariant 0 <= k <= |chain|
        invariant forall j :: 0 <= j < k ==> !Matches(chain[j], x, z)
      {
        if chain[k].chunk.x == x && chain[k].chunk.z == z {
          r := Some(chain[k]);
          assert FirstMatch(chain, x, z) == Some(k);
          FindMeaning(buckets[..], x, z);
          return;
        }
        k := k + 1;
      }
      r := None;
      assert FirstMatch(chain, x, z) == None;
      FindMeaning(buckets[..], x, z);
    }

    /** is_chunk_loaded: the loaded flag of the node chunk_lookup finds. */
    method IsChunkLoaded(x: int32, z: int32) returns (b: bool)
      requires Valid() && buckets != null && numBuckets > 0
      ensures b <==> exists n :: n in Nodes() && Matches(n, x, z)
    {
      var node := Lookup(x, z);
      b := if node.Some? then node.value.loaded else false;
      if node.Some? {
        FindInBucket(buckets[..], BucketIndex(x, z, numBuckets), x, z);
      }
    }

    /** remove_chunk: unlink and release the first node with key (x, z). */
    method Remove(x: int32, z: int32)
      requires Valid() && buckets != null && numBuckets > 0
      modifies this, buckets
      ensures Valid() && buckets == old(buckets) && numBuckets == old(numBuckets)
      ensures var i := BucketIndex(x, z, numBuckets);
        buckets[..] == old(buckets[..])[i := RemoveFirst(old(buckets[i]), x, z)]
      ensures match Find(old(buckets[BucketIndex(x, z, numBuckets)]), x, z)
        case None => numLoadedChunks == old(numLoadedChunks) && released == old(released)
        case Some(n) => numLoadedChunks == old(numLoadedChunks) - 1
                        && released == old(released) + [n.chunk]
    {
      var index := BucketIndex(x, z, numBuckets);
      var chain := buckets[index];
      ghost var before := buckets[..];
      var k := 0;
      while k < |chain|
        invariant 0 <= k <= |chain|
        invariant forall j :: 0 <= j < k ==> !Matches(chain[j], x, z)
        invariant buckets[..] == before
      {
        if chain[k].chunk.x == x && chain[k].chunk.z == z {
          Unlink(x, z, index, k);
          return;
        }
        k := k + 1;
      }
      assert FirstMatch(chain, x, z) == None;
      assert before[index := RemoveFirst(chain, x, z)] == before;
    }

    /** The found branch of remove_chunk: node `k` is the first match in its chain; unlink and release it. */
    method Unlink(x: int32, z: int32, index: nat, k: nat)
      requires Valid() && buckets != null && numBuckets > 0 && index == BucketIndex(x, z, numBuckets)
      requires k < |buckets[index]| && Matches(buckets[index][k], x, z)
      requires forall j :: 0 <= j < k ==> !Matches(buckets[index][j], x, z)
      modifies this, buckets
      ensures Valid() && buckets == old(buckets) && numBuckets == old(numBuckets)
      ensures buckets[..] == old(buckets[..])[index := RemoveFirst(old(buckets[index]), x, z)]
      ensures Find(old(buckets[index]), x, z) == Some(old(buckets[index][k]))
      ensures numLoadedChunks == old(numLoadedChunks) - 1 && released == old(released) + [old(buckets[index][k]).chunk]
    {
      ghost var before := buckets[..];
      var chain := buckets[index];
      // prev == NULL unlinks the head, otherwise prev->next skips the node
      buckets[index] := chain[..k] + chain[k + 1..];
      UnlinkFirst(before, index, k, x, z);
      released := released + [chain[k].chunk];
      numLoadedChunks := numLoadedChunks - 1;
    }

    /** remove_chunk_if: unlink and release every node whose chunk satisfies `pred`. */
    method RemoveIf(pred: Chunk -> bool)
      requires Valid() && buckets != null
      modifies this`released, this`numLoadedChunks, buckets
      ensures Valid() && buckets == old(buckets) && numBuckets == old(numBuckets)
      ensures forall i :: 0 <= i < buckets.Length ==> buckets[i] == Survivors(old(buckets[i]), pred)
      ensures released == old(released) + Doomed(Flatten(old(buckets[..])), pred)
      ensures numLoadedChunks == old(numLoadedChunks) - |Doomed(Flatten(old(buckets[..])), pred)|
    {
      ghost var start := buckets[..];
      SweepBuckets(pred);
      RemoveIfPreservesShape(start, buckets[..], pred);
      FlattenSurvivors(start, buckets[..], pred);
    }

    /** The outer loop of remove_chunk_if, bucket by bucket. */
    method SweepBuckets(pred: Chunk -> bool)
      requires buckets != null && numBuckets == buckets.Length
      requires numLoadedChunks == |Flatten(buckets[..])|
      modifies this`released, this`numLoadedChunks, buckets
      ensures buckets[..] == SweptUpTo(old(buckets[..]), buckets.Length, pred)
      ensures released == old(released) + Doomed(Flatten(old(buckets[..])), pred)
      ensures numLoadedChunks == old(numLoadedChunks) - |Doomed(Flatten(old(buckets[..])), pred)|
    {
      ghost var start := buckets[..];
      assert start[..numBuckets] == start;
      var i := 0;
      while i < numBuckets
        invariant 0 <= i <= numBuckets == buckets.Length == |start|
        invariant buckets[..] == SweptUpTo(start, i, pred)
        invariant released == old(released) + Doomed(Flatten(start[..i]), pred)
        invariant numLoadedChunks + |Doomed(Flatten(start[..i]), pred)| == |Flatten(start)|
      {
        SweepNext(start, old(released), i, pred);
        i := i + 1;
      }
    }

    /** One iteration of the outer loop of remove_chunk_if: sweep bucket `i`. */
    method SweepNext(ghost start: seq<seq<Node>>, ghost base: seq<Chunk>, i: nat, pred: Chunk -> bool)
      requires buckets != null && i < buckets.Length == |start|
      requires buckets[..] == SweptUpTo(start, i, pred)
      requires released == base + Doomed(Flatten(start[..i]), pred)
      requires numLoadedChunks + |Doomed(Flatten(start[..i]), pred)| == |Flatten(start)|
      modifies this`released, this`numLoadedChunks, buckets
      ensures buckets[..] == SweptUpTo(start, i + 1, pred)
      ensures released == base + Doomed(Flatten(start[..i + 1]), pred)
      ensures numLoadedChunks + |Doomed(Flatten(start[..i + 1]), pred)| == |Flatten(start)|
    {
      SweepStep(start, i, pred);
      SweptNext(start, i, pred);
      SurvivorsDoomedLength(buckets[i], pred);
      var kept, removed := SweepChain(buckets[i], pred);
      buckets[i] := kept;
      released := released + Doomed(start[i], pred);
      numLoadedChunks := numLoadedChunks - removed;
    }

    /** query_chunk_map: copy out every loaded chunk accepted by `pred`. */
    method Query(buf: array<Chunk>, pred: Chunk -> bool) returns (count: nat)
      requires Valid() && buckets != null
      requires |Selected(Nodes(), pred)| <= buf.Length
      modifies buf
      ensures count == |Selected(Nodes(), pred)|
      ensures buf[..count] == Selected(Nodes(), pred)
      ensures buf[count..] == old(buf[count..])
    {
      ghost var all := buckets[..];
      count := 0;
      var i := 0;
      while i < numBuckets
        invariant 0 <= i <= numBuckets == buckets.Length == |all|
        invariant count == |Selected(Flatten(all[..i]), pred)| <= buf.Length
        invariant buf[..count] == Selected(Flatten(all[..i]), pred)
        invariant buf[count..] == old(buf[count..])
      {
        SelectStep(all, i, pred);
        count := CollectChain(buf, buckets[i], pred, count);
        i := i + 1;
      }
      assert all[..numBuckets] == all;
    }
    /** get_all_chunks: query_chunk_map with a predicate that accepts everything. */
    method GetAllChunks(buf: array<Chunk>) returns (count: nat)
      requires Valid() && buckets != null
      requires |Nodes()| <= buf.Length
      modifies buf
      ensures count == |Nodes()| == numLoadedChunks
      ensures buf[..count] == Chunks(Nodes())
      ensures buf[count..] == old(buf[count..])
    {
      SelectedAllLoaded(buckets[..], c => true);
      count := Query(buf, c => true);
    }

    /** free_chunk_map: release every node in bucket order, drop the buckets. */
    method Free()
      requires Valid() && buckets != null
      modifies this
      ensures Valid() && buckets == null && numLoadedChunks == 0
      ensures numBuckets == old(numBuckets)
      ensures released == old(released) + Chunks(Flatten(old(buckets[..])))
    {
      ReleaseBuckets();
      buckets := null;
      numLoadedChunks := 0;
    }

    /** The outer loop of free_chunk_map, bucket by bucket. */
    method ReleaseBuckets()
      requires buckets != null && numBuckets == buckets.Length
      modifies this`released
      ensures released == old(released) + Chunks(Flatten(buckets[..]))
    {
      ghost var all := buckets[..];
      var i := 0;
      while i < numBuckets
        invariant 0 <= i <= numBuckets
        invariant released == old(released) + Chunks(Flatten(all[..i]))
      {
        ReleaseChain(buckets[i]);
        FlattenStep(all, i);
        ChunksAppend(Flatten(all[..i]), all[i]);
        assert released == old(released) + (Chunks(Flatten(all[..i])) + Chunks(all[i]));
        i := i + 1;
      }
      assert all[..numBuckets] == all;
    }

    /** The inner loop of free_chunk_map: free each node after reading `next`. */
    method ReleaseChain(head: seq<Node>)
      modifies this`released
      ensures released == old(released) + Chunks(head)
    {
      var k := 0;
      while k < |head|
        invariant 0 <= k <= |head|
        invariant released == old(released) + Chunks(head[..k])
      {
        released := released + [head[k].chunk];
        assert head[..k + 1][..k] == head[..k];
        k := k + 1;
      }
      assert head[..k] == head;
    }
  }

  /**
   * The inner loop of remove_chunk_if over one chain: the nodes left linked
   * from the head (the `prev`/`head`/`next` relinking) and how many were
   * released.
   */
  method SweepChain(chain: seq<Node>, pred: Chunk -> bool) returns (kept: seq<Node>, removed: nat)
    ensures kept == Survivors(chain, pred)
    ensures removed == |Doomed(chain, pred)| == |chain| - |kept|
  {
    kept := [];
    removed := 0;
    var k := 0;
    while k < |chain|
      invariant 0 <= k <= |chain|
      invariant kept == Survivors(chain[..k], pred)
      invariant removed == |Doomed(chain[..k], pred)|
    {
      assert chain[..k + 1][..k] == chain[..k];
      if pred(chain[k].chunk) {
        removed := removed + 1;
      } else {
        kept := kept + [chain[k]];
      }
      k := k + 1;
    }
    assert chain[..k] == chain;
    SurvivorsDoomedLength(chain, pred);
  }

  /** The inner loop of query_chunk_map over one chain, appending at `*count`. */
  method CollectChain(buf: array<Chunk>, chain: seq<Node>, pred: Chunk -> bool, count0: nat)
    returns (count: nat)
    requires count0 + |Selected(chain, pred)| <= buf.Length
    modifies buf
    ensures count == count0 + |Selected(chain, pred)|
    ensures buf[..count] == old(buf[..count0]) + Selected(chain, pred)
    ensures buf[count..] == old(buf[count..])
  {
    count := count0;
    var k := 0;
    while k < |chain|
      invariant 0 <= k <= |chain|
      invariant count == count0 + |Selected(chain[..k], pred)|
      invariant count + |Selected(chain[k..], pred)| <= buf.Length
      invariant buf[..count] == old(buf[..count0]) + Selected(chain[..k], pred)
      invariant forall j :: count <= j < buf.Length ==> buf[j] == old(buf[j])
    {
      assert chain[..k + 1][..k] == chain[..k];
      SelectedSplitFront(chain[k..], pred);
      assert chain[k..][1..] == chain[k + 1..];
      if chain[k].loaded && pred(chain[k].chunk) {
        ghost var done := buf[..count];
        buf[count] := chain[k].chunk;
        assert buf[..count + 1] == done + [chain[k].chunk];
        count := count + 1;
      }
      k := k + 1;
    }
    assert chain[..k] == chain;
  }

  /** A table of `n` chains where only the chain `c` hashes to holds `c`. */
  ghost function OnlyChain(n: nat, c: Chunk): (bs: seq<seq<Node>>)
    requires n > 0
    ensures |bs| == n
  {
    seq(n, i => if i == BucketIndex(c.x, c.z, n) then [Node(c, true)] else [])
  }

  /** The driver's first insert_chunk, into a table with no chunk yet. */
  method InsertIntoEmpty(table: ChunkTable, c: Chunk)
    requires table.Valid() && table.buckets != null && table.numBuckets > 0
    requires forall i :: 0 <= i < table.buckets.Length ==> table.buckets[i] == []
    modifies table, table.buckets
    ensures table.Valid() && table.buckets == old(table.buckets)
    ensures table.numBuckets == old(table.numBuckets)
    ensures table.Nodes() == [Node(c, true)]
    ensures table.buckets[..] == OnlyChain(table.numBuckets, c)
  {
    ghost var empty := table.buckets[..];
    ghost var idx := BucketIndex(c.x, c.z, table.numBuckets);
    assert empty[idx] == [];
    table.Insert(c);
    assert [Node(c, true)] + empty[idx] == [Node(c, true)];
    assert table.buckets[..] == empty[idx := [Node(c, true)]];
    FlattenSingle(empty, idx, [Node(c, true)]);
    assert table.buckets[..] == OnlyChain(table.numBuckets, c);
  }

  /** The driver's remove_chunk of the one chunk the table holds. */
  method RemoveOnlyChunk(table: ChunkTable, c: Chunk)
    requires table.Valid() && table.buckets != null && table.numBuckets > 0
    requires table.buckets[..] == OnlyChain(table.numBuckets, c)
    modifies table, table.buckets
    ensures table.Valid() && table.buckets != null && table.numBuckets == old(table.numBuckets)
    ensures table.Nodes() == []
  {
    ghost var idx := BucketIndex(c.x, c.z, table.numBuckets);
    ghost var one := table.buckets[..];
    assert one[idx] == [Node(c, true)];
    assert FirstMatch([Node(c, true)], c.x, c.z) == Some(0);
    assert RemoveFirst(one[idx], c.x, c.z) == [];
    table.Remove(c.x, c.z);
    assert one[idx := []] == seq(table.numBuckets, i => []);
    FlattenEmpty(table.buckets[..]);
  }

  /**
   * insert_chunk followed by chunk_lookup of the same key: the new node is
   * at the head of its chain, so it is found even when an older node with
   * that key is still in the table.
   */
  method InsertThenLookup(table: ChunkTable, c: Chunk) returns (r: Option<Node>)
    requires table.Valid() && table.buckets != null && table.numBuckets > 0
    modifies table, table.buckets
    ensures table.Valid() && table.buckets == old(table.buckets)
    ensures table.numLoadedChunks == old(table.numLoadedChunks) + 1
    ensures r == Some(Node(c, true))
  {
    table.Insert(c);
    r := table.Lookup(c.x, c.z);
    assert FirstMatch(table.buckets[BucketIndex(c.x, c.z, table.numBuckets)], c.x, c.z) == Some(0);
  }

  /**
   * The CHUNK_HASH_TEST driver: a table of CHUNK_MAP_NUM_BUCKETS buckets,
   * insert chunk (69, 420), look it up, collect every chunk, remove it, look
   * it up again, free the table. The collection buffer's size (which depends
   * on MAX_CHUNKS) is a parameter of at least one entry.
   */
  method HashTestScenario(bufSize: nat) returns (first: Option<Node>, count: nat, second: Option<Node>)
    requires bufSize >= 1
    ensures first == Some(Node(Chunk(69, 420, 0, []), true))
    ensures count == 1
    ensures second == None
  {
    var table := new ChunkTable.Init(CHUNK_MAP_NUM_BUCKETS);
    var c := Chunk(69, 420, 0, []);
    InsertIntoEmpty(table, c);
    first := table.Lookup(69, 420);
    assert table.buckets[BucketIndex(69, 420, table.numBuckets)] == [Node(c, true)];
    var chunks := new Chunk[bufSize];
    count := table.GetAllChunks(chunks);
    RemoveOnlyChunk(table, c);
    second := table.Lookup(69, 420);
    table.Free();
  }

  // ---------------------------------------------------------------------
  // Lemmas about chains and the flattened table

  lemma {:induction false} FlattenEmpty(bs: seq<seq<Node>>)
    requires forall i :: 0 <= i < |bs| ==> bs[i] == []
    ensures Flatten(bs) == []
  {
    if |bs| > 0 {
      FlattenEmpty(bs[..|bs| - 1]);
    }
  }

  /** A table whose only non-empty chain is `s` flattens to `s`. */
  lemma {:induction false} FlattenSingle(bs: seq<seq<Node>>, i: nat, s: seq<Node>)
    requires i < |bs| && forall j :: 0 <= j < |bs| ==> bs[j] == []
    ensures Flatten(bs[i := s]) == s
  {
    var last := |bs| - 1;
    if i == last {
      assert bs[i := s][..last] == bs[..last];
      FlattenEmpty(bs[..last]);
    } else {
      assert bs[i := s][..last] == bs[..last][i := s];
      FlattenSingle(bs[..last], i, s);
    }
  }

  /** Replacing one chain changes the total length by the difference. */
  lemma {:induction false} FlattenUpdateLength(bs: seq<seq<Node>>, i: nat, s: seq<Node>)
    requires i < |bs|
    ensures |Flatten(bs[i := s])| == |Flatten(bs)| - |bs[i]| + |s|
    ensures |bs[i]| <= |Flatten(bs)|
  {
    var last := |bs| - 1;
    if i == last {
      assert bs[i := s][..last] == bs[..last];
    } else {
      assert bs[i := s][..last] == bs[..last][i := s];
      FlattenUpdateLength(bs[..last], i, s);
    }
  }

  /** A node of chain i at position k is a node of the flattened table. */
  lemma {:induction false} InFlatten(bs: seq<seq<Node>>, i: nat, k: nat)
    requires i < |bs| && k < |bs[i]|
    ensures bs[i][k] in Flatten(bs)
  {
    var last := |bs| - 1;
    if i < last {
      assert bs[..last][i] == bs[i];
      InFlatten(bs[..last], i, k);
    }
  }

  /** Every node of the flattened table comes from some chain. */
  lemma {:induction false} FromSomeBucket(bs: seq<seq<Node>>, n: Node) returns (i: nat)
    requires n in Flatten(bs)
    ensures i < |bs| && n in bs[i]
  {
    var last := |bs| - 1;
    if n in bs[last] {
      i := last;
    } else {
      i := FromSomeBucket(bs[..last], n);
      assert bs[..last][i] == bs[i];
    }
  }

  /** In a well-placed table a key occurs only in the chain it hashes to. */
  lemma KeyLivesInItsBucket(bs: seq<seq<Node>>, n: Node, x: int32, z: int32)
    requires |bs| > 0 && WellPlaced(bs) && n in Flatten(bs) && Matches(n, x, z)
    ensures n in bs[BucketIndex(x, z, |bs|)]
  {
    var i := FromSomeBucket(bs, n);
    var k :| 0 <= k < |bs[i]| && bs[i][k] == n;
  }

  /** The chain lookup answers for the whole table when nodes are well placed. */
  lemma FindMeaning(bs: seq<seq<Node>>, x: int32, z: int32)
    requires |bs| > 0 && WellPlaced(bs)
    ensures var r := Find(bs[BucketIndex(x, z, |bs|)], x, z);
      && (r.Some? ==> Matches(r.value, x, z) && r.value in Flatten(bs))
      && (r.None? <==> forall n :: n in Flatten(bs) ==> !Matches(n, x, z))
  {
    var i := BucketIndex(x, z, |bs|);
    var r := Find(bs[i], x, z);
    if r.Some? {
      InFlatten(bs, i, FirstMatch(bs[i], x, z).value);
    } else {
      forall n | n in Flatten(bs) ensures !Matches(n, x, z) {
        if Matches(n, x, z) {
          KeyLivesInItsBucket(bs, n, x, z);
        }
      }
    }
  }

  lemma FindInBucket(bs: seq<seq<Node>>, i: nat, x: int32, z: int32)
    requires i < |bs| && AllLoaded(bs) && Find(bs[i], x, z).Some?
    ensures Find(bs[i], x, z).value in Flatten(bs)
    ensures Find(bs[i], x, z).value.loaded
  {
    var k := FirstMatch(bs[i], x, z).value;
    InFlatten(bs, i, k);
  }

  /** The first node with key (x, z) at position k is what lookup finds and what remove_chunk unlinks. */
  lemma FoundAt(chain: seq<Node>, k: nat, x: int32, z: int32)
    requires k < |chain| && Matches(chain[k], x, z) && forall j :: 0 <= j < k ==> !Matches(chain[j], x, z)
    ensures FirstMatch(chain, x, z) == Some(k)
    ensures Find(chain, x, z) == Some(chain[k])
    ensures RemoveFirst(chain, x, z) == chain[..k] + chain[k + 1..]
  {
    var r := FirstMatch(chain, x, z);
    assert r.Some?;
    assert !(r.value < k) && !(k < r.value);
  }

  /** Unlinking the first node with key (x, z) from chain i at position k. */
  lemma UnlinkFirst(bs: seq<seq<Node>>, i: nat, k: nat, x: int32, z: int32)
    requires WellPlaced(bs) && AllLoaded(bs) && i < |bs| && k < |bs[i]|
    requires Matches(bs[i][k], x, z) && forall j :: 0 <= j < k ==> !Matches(bs[i][j], x, z)
    ensures Find(bs[i], x, z) == Some(bs[i][k])
    ensures bs[i := bs[i][..k] + bs[i][k + 1..]] == bs[i := RemoveFirst(bs[i], x, z)]
    ensures WellPlaced(bs[i := RemoveFirst(bs[i], x, z)]) && AllLoaded(bs[i := RemoveFirst(bs[i], x, z)])
    ensures |Flatten(bs[i := RemoveFirst(bs[i], x, z)])| + 1 == |Flatten(bs)|
  {
    FoundAt(bs[i], k, x, z);
    RemovePreservesShape(bs, i, k);
    FlattenUpdateLength(bs, i, bs[i][..k] + bs[i][k + 1..]);
  }

  /** Unlinking a node keeps every other node where it was. */
  lemma RemovePreservesShape(bs: seq<seq<Node>>, i: nat, k: nat)
    requires WellPlaced(bs) && AllLoaded(bs) && i < |bs| && k < |bs[i]|
    ensures WellPlaced(bs[i := bs[i][..k] + bs[i][k + 1..]])
    ensures AllLoaded(bs[i := bs[i][..k] + bs[i][k + 1..]])
  {
    var c := bs[i][..k] + bs[i][k + 1..];
    forall j | 0 <= j < |c| ensures c[j] in bs[i] {
      if j < k { assert c[j] == bs[i][j]; } else { assert c[j] == bs[i][j + 1]; }
    }
  }

  /** remove_chunk_if keeps every surviving node where it was. */
  lemma RemoveIfPreservesShape(bs: seq<seq<Node>>, after: seq<seq<Node>>, pred: Chunk -> bool)
    requires WellPlaced(bs) && AllLoaded(bs) && |after| == |bs|
    requires forall i :: 0 <= i < |bs| ==> after[i] == Survivors(bs[i], pred)
    ensures WellPlaced(after) && AllLoaded(after)
  {
    forall i, k | 0 <= i < |after| && 0 <= k < |after[i]|
      ensures BucketIndex(after[i][k].chunk.x, after[i][k].chunk.z, |after|) == i
      ensures after[i][k].loaded
    {
      SurvivorsSubset(bs[i], pred, after[i][k]);
    }
  }

  lemma {:induction false} SurvivorsSubset(chain: seq<Node>, pred: Chunk -> bool, n: Node)
    requires n in Survivors(chain, pred)
    ensures n in chain && !pred(n.chunk)
  {
    var last := |chain| - 1;
    if n in Survivors(chain[..last], pred) {
      SurvivorsSubset(chain[..last], pred, n);
    }
  }

  /** Survivors and doomed nodes partition a chain. */
  lemma {:induction false} SurvivorsDoomedLength(chain: seq<Node>, pred: Chunk -> bool)
    ensures |Survivors(chain, pred)| + |Doomed(chain, pred)| == |chain|
  {
    if |chain| > 0 {
      SurvivorsDoomedLength(chain[..|chain| - 1], pred);
    }
  }

  lemma {:induction false} DoomedAppend(a: seq<Node>, b: seq<Node>, pred: Chunk -> bool)
    ensures Doomed(a + b, pred) == Doomed(a, pred) + Doomed(b, pred)
  {
    if |b| > 0 {
      var last := |b| - 1;
      assert (a + b)[..|a + b| - 1] == a + b[..last];
      DoomedAppend(a, b[..last], pred);
    } else {
      assert a + b == a;
    }
  }

  lemma {:induction false} SurvivorsAppend(a: seq<Node>, b: seq<Node>, pred: Chunk -> bool)
    ensures Survivors(a + b, pred) == Survivors(a, pred) + Survivors(b, pred)
  {
    if |b| > 0 {
      var last := |b| - 1;
      assert (a + b)[..|a + b| - 1] == a + b[..last];
      SurvivorsAppend(a, b[..last], pred);
    } else {
      assert a + b == a;
    }
  }

  lemma {:induction false} SelectedAppend(a: seq<Node>, b: seq<Node>, pred: Chunk -> bool)
    ensures Selected(a + b, pred) == Selected(a, pred) + Selected(b, pred)
  {
    if |b| > 0 {
      var last := |b| - 1;
      assert (a + b)[..|a + b| - 1] == a + b[..last];
      SelectedAppend(a, b[..last], pred);
    } else {
      assert a + b == a;
    }
  }

  lemma {:induction false} ChunksAppend(a: seq<Node>, b: seq<Node>)
    ensures Chunks(a + b) == Chunks(a) + Chunks(b)
  {
    if |b| > 0 {
      var last := |b| - 1;
      assert (a + b)[..|a + b| - 1] == a + b[..last];
      ChunksAppend(a, b[..last]);
    } else {
      assert a + b == a;
    }
  }

  lemma FlattenStep(bs: seq<seq<Node>>, i: nat)
    requires i < |bs|
    ensures Flatten(bs[..i + 1]) == Flatten(bs[..i]) + bs[i]
  {
    assert bs[..i + 1][..i] == bs[..i];
  }

  lemma SelectedSplitFront(chain: seq<Node>, pred: Chunk -> bool)
    requires |chain| > 0
    ensures |Selected(chain, pred)| == |Selected(chain[1..], pred)|
              + (if chain[0].loaded && pred(chain[0].chunk) then 1 else 0)
  {
    assert chain == [chain[0]] + chain[1..];
    SelectedAppend([chain[0]], chain[1..], pred);
    assert [chain[0]][..0] == [];
  }

  /** Flattening distributes over concatenation of tables. */
  lemma {:induction false} FlattenConcat(a: seq<seq<Node>>, b: seq<seq<Node>>)
    ensures Flatten(a + b) == Flatten(a) + Flatten(b)
  {
    if |b| == 0 {
      assert a + b == a;
    } else {
      var last := |b| - 1;
      assert (a + b)[..|a + b| - 1] == a + b[..last];
      FlattenConcat(a, b[..last]);
    }
  }

  lemma FlattenPrefix(bs: seq<seq<Node>>, i: nat)
    requires i <= |bs|
    ensures Flatten(bs) == Flatten(bs[..i]) + Flatten(bs[i..])
  {
    assert bs == bs[..i] + bs[i..];
    FlattenConcat(bs[..i], bs[i..]);
  }

  lemma FlattenOne(bs: seq<seq<Node>>, head: seq<Node>, tail: seq<seq<Node>>)
    requires bs == [head] + tail
    ensures Flatten(bs) == head + Flatten(tail)
  {
    FlattenConcat([head], tail);
    assert [head][..0] == [];
  }

  /** Bookkeeping of one step of the outer loop of query_chunk_map. */
  lemma SelectStep(bs: seq<seq<Node>>, i: nat, pred: Chunk -> bool)
    requires i < |bs|
    ensures Selected(Flatten(bs[..i + 1]), pred) == Selected(Flatten(bs[..i]), pred) + Selected(bs[i], pred)
    ensures |Selected(Flatten(bs[..i]), pred)| + |Selected(bs[i], pred)| <= |Selected(Flatten(bs), pred)|
  {
    FlattenStep(bs, i);
    SelectedAppend(Flatten(bs[..i]), bs[i], pred);
    SelectedPrefixBound(bs, i, pred);
  }

  lemma SelectedPrefixBound(bs: seq<seq<Node>>, i: nat, pred: Chunk -> bool)
    requires i < |bs|
    ensures |Selected(Flatten(bs[..i]), pred)| + |Selected(bs[i], pred)| <= |Selected(Flatten(bs), pred)|
  {
    FlattenPrefix(bs, i);
    FlattenOne(bs[i..], bs[i], bs[i + 1..]);
    SelectedAppend(Flatten(bs[..i]), Flatten(bs[i..]), pred);
    SelectedAppend(bs[i], Flatten(bs[i + 1..]), pred);
  }

  /** The table after remove_chunk_if has swept the first `i` buckets. */
  function SweptUpTo(bs: seq<seq<Node>>, i: nat, pred: Chunk -> bool): (r: seq<seq<Node>>)
    requires i <= |bs|
    ensures |r| == |bs|
  {
    seq(|bs|, j requires 0 <= j < |bs| => if j < i then Survivors(bs[j], pred) else bs[j])
  }

  lemma SweptNext(bs: seq<seq<Node>>, i: nat, pred: Chunk -> bool)
    requires i < |bs|
    ensures SweptUpTo(bs, i, pred)[i] == bs[i]
    ensures SweptUpTo(bs, i, pred)[i := Survivors(bs[i], pred)] == SweptUpTo(bs, i + 1, pred)
  {
  }

  /** Bookkeeping of one step of the outer loop of remove_chunk_if. */
  lemma SweepStep(bs: seq<seq<Node>>, i: nat, pred: Chunk -> bool)
    requires i < |bs|
    ensures Doomed(Flatten(bs[..i + 1]), pred) == Doomed(Flatten(bs[..i]), pred) + Doomed(bs[i], pred)
    ensures |Doomed(Flatten(bs[..i]), pred)| + |Doomed(bs[i], pred)| <= |Flatten(bs)|
  {
    FlattenStep(bs, i);
    DoomedAppend(Flatten(bs[..i]), bs[i], pred);
    DoomedPrefixBound(bs, i, pred);
  }

  lemma DoomedPrefixBound(bs: seq<seq<Node>>, i: nat, pred: Chunk -> bool)
    requires i < |bs|
    ensures |Doomed(Flatten(bs[..i]), pred)| + |Doomed(bs[i], pred)| <= |Flatten(bs)|
  {
    FlattenPrefix(bs, i);
    FlattenOne(bs[i..], bs[i], bs[i + 1..]);
    SurvivorsDoomedLength(Flatten(bs[..i]), pred);
    SurvivorsDoomedLength(bs[i], pred);
  }

  /** remove_chunk_if's new table holds exactly the surviving nodes. */
  lemma {:induction false} FlattenSurvivors(bs: seq<seq<Node>>, after: seq<seq<Node>>, pred: Chunk -> bool)
    requires |after| == |bs|
    requires forall i :: 0 <= i < |bs| ==> after[i] == Survivors(bs[i], pred)
    ensures Flatten(after) == Survivors(Flatten(bs), pred)
    ensures |Flatten(after)| == |Flatten(bs)| - |Doomed(Flatten(bs), pred)|
  {
    if |bs| > 0 {
      var last := |bs| - 1;
      FlattenSurvivors(bs[..last], after[..last], pred);
      SurvivorsAppend(Flatten(bs[..last]), bs[last], pred);
    }
    SurvivorsDoomedLength(Flatten(bs), pred);
  }

  lemma {:induction false} SelectedAllLoaded(bs: seq<seq<Node>>, pred: Chunk -> bool)
    requires AllLoaded(bs) && forall c :: pred(c)
    ensures Selected(Flatten(bs), pred) == Chunks(Flatten(bs))
  {
    forall n | n in Flatten(bs) ensures n.loaded {
      var i := FromSomeBucket(bs, n);
      var k :| 0 <= k < |bs[i]| && bs[i][k] == n;
    }
    SelectedAllLoadedChain(Flatten(bs), pred, bs);
  }

  lemma {:induction false} SelectedAllLoadedChain(chain: seq<Node>, pred: Chunk -> bool, bs: seq<seq<Node>>)
    requires forall n :: n in chain ==> n.loaded
    requires forall c :: pred(c)
    ensures Selected(chain, pred) == Chunks(chain)
  {
    if |chain| > 0 {
      SelectedAllLoadedChain(chain[..|chain| - 1], pred, bs);
    }
  }
}
