/**
 * src/util/config.c: the window settings `load_config` reads from
 * config.json into its out-parameters and the caller's title buffer, and
 * the world settings `load_world_config` derives from the same parsed
 * document into the global `g_world_config`.
 *
 * The file and the cJSON parser are abstracted: `load_config` is given the
 * outcome of opening, reading and parsing config.json, and a parsed
 * document is a record of optional sections of optional items.
 */
module Config {
  import opened CTypes

  /** A cJSON item as config.c tests it: a string, a number (read through `valueint`), or anything else. */
  datatype Item = Str(text: string) | Num(valueint: int32) | Other

  /** The "window" object: its "title", "width", "height" and "scale" items, each possibly absent. */
  datatype WindowSection = WindowSection(title: Option<Item>, width: Option<Item>, height: Option<Item>, scale: Option<Item>)

  /** The "world" object: "seed", "chunk_size", "ground_segments_per_chunk", "chunk_load_radius". */
  datatype WorldSection = WorldSection(seed: Option<Item>, chunkSize: Option<Item>, groundSegments: Option<Item>,
                                       loadRadius: Option<Item>)

  /** A parsed config.json: its two sections, each possibly absent. */
  datatype Document = Document(window: Option<WindowSection>, world: Option<WorldSection>)

  /** What opening, reading and parsing config.json gave. */
  datatype ConfigFile = Missing | OutOfMemory | Malformed | Parsed(document: Document)

  const DEFAULT_TITLE: string := "Tundra"
  const DEFAULT_WIDTH: uint32 := 200
  const DEFAULT_HEIGHT: uint32 := 125
  const DEFAULT_SCALE: uint32 := 8

  const DEFAULT_WORLD_SEED: int32 := 2
  const DEFAULT_CHUNK_SIZE: int32 := 32
  const DEFAULT_GROUND_SEGMENTS_PER_CHUNK: int32 := 4
  const DEFAULT_CHUNK_LOAD_RADIUS: int32 := 1

  /** world_config_t without its float `ground_segment_size`. */
  datatype WorldConfig = WorldConfig(seed: int32, chunkSize: int32, halfChunkSize: int32, groundSegmentsPerChunk: int32,
                                     chunkLoadRadius: int32, maxChunks: int32)

  /** The width, height and scale `load_config` reports. */
  datatype Window = Window(width: uint32, height: uint32, scale: uint32)

  /** The C string a `char` sequence holds: everything before its first NUL. */
  function CString(s: string): (r: string)
    ensures |r| <= |s| && r == s[..|r|]
    ensures forall k :: 0 <= k < |r| ==> r[k] != '\0'
    ensures |r| < |s| ==> s[|r|] == '\0'
  {
    if |s| == 0 || s[0] == '\0' then [] else [s[0]] + CString(s[1..])
  }

  /**
   * The buffer after `strncpy(title, src, size - 1); title[size - 1] = '\0'`:
   * the C string of `src` cut to `size - 1` characters, padded with NULs.
   */
  function TitleText(src: string, size: nat): (r: string)
    requires size >= 1
    ensures |r| == size && r[size - 1] == '\0'
  {
    var c := CString(src);
    seq(size, k requires 0 <= k < size => if k < size - 1 && k < |c| then c[k] else '\0')
  }

  /** An unsigned setting: the number cast to `unsigned int` when the item is a number, else the default. */
  function UnsignedSetting(item: Option<Item>, default: uint32): uint32 {
    if item.Some? && item.value.Num? then ToUnsigned32(item.value.valueint) else default
  }

  /** An `int` setting: the number when the item is a number, else the default. */
  function IntSetting(item: Option<Item>, default: int32): int32 {
    if item.Some? && item.value.Num? then item.value.valueint else default
  }

  /** The window section of a file, when it was parsed and has one. */
  function WindowOf(file: ConfigFile): Option<WindowSection> {
    if file.Parsed? then file.document.window else None
  }

  /** The width, height and scale of a file: defaults, overridden by numbers only. */
  function WindowFrom(file: ConfigFile): Window {
    match WindowOf(file)
    case None => Window(DEFAULT_WIDTH, DEFAULT_HEIGHT, DEFAULT_SCALE)
    case Some(w) =>
      Window(UnsignedSetting(w.width, DEFAULT_WIDTH), UnsignedSetting(w.height, DEFAULT_HEIGHT),
             UnsignedSetting(w.scale, DEFAULT_SCALE))
  }

  /** The title a file selects: its window title when that is a string, else the default. */
  function TitleFrom(file: ConfigFile): string {
    var w := WindowOf(file);
    if w.Some? && w.value.title.Some? && w.value.title.value.Str? then w.value.title.value.text else DEFAULT_TITLE
  }

  /** `g_config` after `load_config`: kept when the file is missing or unreadable, NULL when unparsable. */
  function DocumentAfter(before: Option<Document>, file: ConfigFile): Option<Document> {
    match file
    case Missing => before
    case OutOfMemory => before
    case Malformed => None
    case Parsed(d) => Some(d)
  }

  /** The world section of the loaded document, when there is one. */
  function WorldOf(document: Option<Document>): Option<WorldSection> {
    if document.Some? then document.value.world else None
  }

  /** The derived fields: half the chunk size (truncated) and the (2r + 1)^2 chunks of the load square. */
  function Derive(seed: int32, chunkSize: int32, segments: int32, radius: int32): WorldConfig {
    WorldConfig(seed, chunkSize, CDiv(chunkSize, 2), segments, radius, Wrap32((radius * 2 + 1) * (radius * 2 + 1)))
  }

  /** g_world_config after `load_world_config` on the loaded document. */
  function WorldFrom(document: Option<Document>): WorldConfig {
    match WorldOf(document)
    case None =>
      Derive(DEFAULT_WORLD_SEED, DEFAULT_CHUNK_SIZE, DEFAULT_GROUND_SEGMENTS_PER_CHUNK, DEFAULT_CHUNK_LOAD_RADIUS)
    case Some(w) =>
      Derive(IntSetting(w.seed, DEFAULT_WORLD_SEED), IntSetting(w.chunkSize, DEFAULT_CHUNK_SIZE),
             IntSetting(w.groundSegments, DEFAULT_GROUND_SEGMENTS_PER_CHUNK),
             IntSetting(w.loadRadius, DEFAULT_CHUNK_LOAD_RADIUS))
  }

  /**
   * `strncpy(title, src, size - 1); title[size - 1] = '\0'`: the C string of
   * `src` up to `size - 1` characters, NUL padding, and the final NUL.
   */
  method CopyTitle(title: array<char>, size: nat, src: string)
    requires 1 <= size <= title.Length
    modifies title
    ensures title[..size] == TitleText(src, size)
    ensures title[size..] == old(title[size..])
  {
    var k := 0;
    while k < size - 1 && k < |src| && src[k] != '\0'
      invariant k <= size - 1 && k <= |src|
      invariant forall j :: 0 <= j < k ==> src[j] != '\0' && title[j] == src[j]
      invariant title[size..] == old(title[size..])
    {
      title[k] := src[k];
      k := k + 1;
    }
    ghost var copied := k;
    CStringPrefix(src, k);
    while k < size - 1
      invariant copied <= k <= size - 1
      invariant forall j :: 0 <= j < copied ==> title[j] == src[j]
      invariant forall j :: copied <= j < k ==> title[j] == '\0'
      invariant title[size..] == old(title[size..])
    {
      title[k] := '\0';
      k := k + 1;
    }
    title[size - 1] := '\0';
    var c := CString(src);
    assert copied == size - 1 || |c| == copied;
    assert forall j :: 0 <= j < copied ==> c[j] == src[j];
    assert title[..size] == TitleText(src, size);
  }

  /** A NUL-free prefix of `s` is a prefix of its C string. */
  lemma {:induction false} CStringPrefix(s: string, k: nat)
    requires k <= |s| && forall j :: 0 <= j < k ==> s[j] != '\0'
    ensures k <= |CString(s)| && CString(s)[..k] == s[..k]
    ensures k < |s| && s[k] == '\0' ==> |CString(s)| == k
    ensures k == |s| ==> |CString(s)| == k
  {
    if k > 0 {
      CStringPrefix(s[1..], k - 1);
    }
  }

  /**
   * The state config.c keeps in globals: the parsed document (`g_config`,
   * NULL as `None`) and the world configuration (`g_world_config`).
   */
  class Settings {
    var document: Option<Document>
    var world: WorldConfig

    /** Both globals before any call: no document and an all-zero world configuration. */
    constructor ()
      ensures document == None && world == WorldConfig(0, 0, 0, 0, 0, 0)
    {
      document := None;
      world := WorldConfig(0, 0, 0, 0, 0, 0);
    }

    /**
     * load_config: the defaults first, then, when config.json parses, the
     * window items of the right type. `title` is the caller's buffer and
     * `titleSize` its `title_size`.
     */
    method LoadConfig(file: ConfigFile, title: array<char>, titleSize: usize)
      returns (status: int, width: uint32, height: uint32, scale: uint32)
      requires 1 <= titleSize <= title.Length
      modifies this, title
      ensures status == (if file.Parsed? then 0 else -1)
      ensures Window(width, height, scale) == WindowFrom(file)
      ensures title[..titleSize] == TitleText(TitleFrom(file), titleSize)
      ensures title[titleSize..] == old(title[titleSize..])
      ensures document == DocumentAfter(old(document), file) && world == old(world)
    {
      width := DEFAULT_WIDTH;
      height := DEFAULT_HEIGHT;
      scale := DEFAULT_SCALE;
      CopyTitle(title, titleSize, DEFAULT_TITLE);
      if file.Missing? || file.OutOfMemory? {
        status := -1;
        return;
      }
      if file.Malformed? {
        document := None;
        status := -1;
        return;
      }
      document := Some(file.document);
      var window := file.document.window;
      if window.Some? {
        var w := window.value;
        if w.title.Some? && w.title.value.Str? {
          CopyTitle(title, titleSize, w.title.value.text);
        }
        if w.width.Some? && w.width.value.Num? {
          width := ToUnsigned32(w.width.value.valueint);
        }
        if w.height.Some? && w.height.value.Num? {
          height := ToUnsigned32(w.height.value.valueint);
        }
        if w.scale.Some? && w.scale.value.Num? {
          scale := ToUnsigned32(w.scale.value.valueint);
        }
      }
      status := 0;
    }

    /**
     * load_world_config: the defaults, the world items that are numbers
     * when a document is loaded, then the derived fields. It returns 0.
     */
    method LoadWorldConfig() returns (status: int)
      modifies this
      ensures status == 0
      ensures world == WorldFrom(document) && document == old(document)
    {
      world := world.(seed := DEFAULT_WORLD_SEED, chunkSize := DEFAULT_CHUNK_SIZE,
                      groundSegmentsPerChunk := DEFAULT_GROUND_SEGMENTS_PER_CHUNK,
                      chunkLoadRadius := DEFAULT_CHUNK_LOAD_RADIUS);
      if document.Some? && document.value.world.Some? {
        var w := document.value.world.value;
        if w.seed.Some? && w.seed.value.Num? {
          world := world.(seed := w.seed.value.valueint);
        }
        if w.chunkSize.Some? && w.chunkSize.value.Num? {
          world := world.(chunkSize := w.chunkSize.value.valueint);
        }
        if w.groundSegments.Some? && w.groundSegments.value.Num? {
          world := world.(groundSegmentsPerChunk := w.groundSegments.value.valueint);
        }
        if w.loadRadius.Some? && w.loadRadius.value.Num? {
          world := world.(chunkLoadRadius := w.loadRadius.value.valueint);
        }
      }
      var r: int := world.chunkLoadRadius;
      world := world.(halfChunkSize := CDiv(world.chunkSize, 2), maxChunks := Wrap32((r * 2 + 1) * (r * 2 + 1)));
      return 0;
    }

    /** free_config: the parsed document is released and `g_config` reset to NULL. */
    method FreeConfig()
      modifies this
      ensures document == None && world == old(world)
    {
      if document.Some? {
        document := None;
      }
    }
  }

  /** Without a world section every field takes its default: seed 2, chunks of 32 (half 16), 4 segments, 9 chunks. */
  lemma WorldDefaults(document: Option<Document>)
    requires WorldOf(document) == None
    ensures WorldFrom(document) == WorldConfig(2, 32, 16, 4, 1, 9)
  {
  }

  /** A world field is overridden exactly when its item is a number, and then takes that number. */
  lemma WorldOverrides(document: Option<Document>, w: WorldSection)
    requires WorldOf(document) == Some(w)
    ensures var c := WorldFrom(document);
      (w.seed.Some? && w.seed.value.Num? ==> c.seed == w.seed.value.valueint) &&
      (!(w.seed.Some? && w.seed.value.Num?) ==> c.seed == DEFAULT_WORLD_SEED) &&
      (w.chunkSize.Some? && w.chunkSize.value.Num? ==> c.chunkSize == w.chunkSize.value.valueint) &&
      (!(w.chunkSize.Some? && w.chunkSize.value.Num?) ==> c.chunkSize == DEFAULT_CHUNK_SIZE) &&
      (w.groundSegments.Some? && w.groundSegments.value.Num? ==> c.groundSegmentsPerChunk == w.groundSegments.value.valueint) &&
      (!(w.groundSegments.Some? && w.groundSegments.value.Num?) ==> c.groundSegmentsPerChunk == DEFAULT_GROUND_SEGMENTS_PER_CHUNK) &&
      (w.loadRadius.Some? && w.loadRadius.value.Num? ==> c.chunkLoadRadius == w.loadRadius.value.valueint) &&
      (!(w.loadRadius.Some? && w.loadRadius.value.Num?) ==> c.chunkLoadRadius == DEFAULT_CHUNK_LOAD_RADIUS)
  {
  }

  /**
   * The derived fields: a non-negative chunk size is twice its half, plus
   * at most one; a load radius of at most 23169 gives the (2r + 1)^2
   * chunks of the load square, an odd number of at least 1.
   */
  lemma DerivedFields(document: Option<Document>)
    ensures var c := WorldFrom(document);
      (c.chunkSize >= 0 ==> 0 <= c.chunkSize - 2 * c.halfChunkSize <= 1) &&
      (c.chunkSize < 0 ==> -1 <= c.chunkSize - 2 * c.halfChunkSize <= 0) &&
      (0 <= c.chunkLoadRadius <= 23169 ==>
        c.maxChunks == (2 * c.chunkLoadRadius + 1) * (2 * c.chunkLoadRadius + 1) && c.maxChunks % 2 == 1 && c.maxChunks >= 1)
  {
    var c := WorldFrom(document);
    if 0 <= c.chunkLoadRadius <= 23169 {
      LoadSquare(c.chunkLoadRadius);
    }
  }

  /** For radii up to 23169 the square (2r + 1)^2 fits in an `int`, so no wrap-around occurs. */
  lemma LoadSquare(r: int)
    requires 0 <= r <= 23169
    ensures var m := (r * 2 + 1) * (r * 2 + 1);
      Wrap32(m) == m && m % 2 == 1 && m >= 1
  {
    var m := 2 * r + 1;
    SquareMono(m, 46339);
    assert m * m == 2 * (2 * r * r + 2 * r) + 1;
  }

  lemma SquareMono(a: nat, b: nat)
    requires a <= b
    ensures a * a <= b * b
  {
    assert a * a <= a * b <= b * b;
  }

  /** When the file is missing, unreadable or unparsable the window keeps its defaults and the title is "Tundra". */
  lemma WindowDefaultsOnFailure(file: ConfigFile)
    requires !file.Parsed?
    ensures WindowFrom(file) == Window(200, 125, 8) && TitleFrom(file) == "Tundra"
  {
  }

  /** A negative number in the window section reaches the caller as 2^32 plus it. */
  lemma NegativeWindowSetting(file: ConfigFile, v: int32)
    requires WindowOf(file).Some? && WindowOf(file).value.width == Some(Num(v)) && v < 0
    ensures WindowFrom(file).width == TWO_32 + v
  {
  }

  /**
   * Reading the title buffer back as a C string gives the selected title cut
   * to `size - 1` characters: the buffer is always terminated within it.
   */
  lemma TitleRoundTrip(src: string, size: nat)
    requires size >= 1
    ensures var c := CString(src);
      CString(TitleText(src, size)) == (if |c| <= size - 1 then c else c[..size - 1])
  {
    var c := CString(src);
    var t := TitleText(src, size);
    var n := if |c| <= size - 1 then |c| else size - 1;
    assert forall j :: 0 <= j < n ==> t[j] == c[j] != '\0';
    CStringPrefix(t, n);
    assert t[n] == '\0';
  }
}
