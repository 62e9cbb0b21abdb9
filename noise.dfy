/**
 * The pure noise layer of src/proc_gen.c: the integer hash behind every
 * pseudo-random choice, interpolation helpers, value noise, fractal sums
 * (fbm), ridge noise, the terrain height with its lake clamp and the
 * bilinear terrain sampler.
 *
 * Floats are modelled as exact reals, so rounding is not modelled. `powf`
 * is a parameter: only the ordering facts of the model depend on it, and
 * none of them on its values. The global `g_world_config.seed` is the
 * parameter `worldSeed`.
 */
module Noise {
  import opened CTypes

  /** Heights below this are flattened into frozen lakes (lake_level). */
  const LAKE_LEVEL: real := 0.0

  /** 2^30, the divisor that maps the masked hash into (-1, 1]. */
  const HASH_SCALE: real := 1073741824.0

  /** smoothstep: the cubic t^2 (3 - 2t). */
  function Smoothstep(t: real): real {
    t * t * (3.0 - 2.0 * t)
  }

  /** smoothstep fixes both ends of the unit interval. */
  lemma SmoothstepEnds(t: real)
    ensures t == 0.0 ==> Smoothstep(t) == 0.0
    ensures t == 1.0 ==> Smoothstep(t) == 1.0
  {
  }

  /** smoothstep maps the unit interval into itself. */
  lemma SmoothstepUnit(t: real)
    requires 0.0 <= t <= 1.0
    ensures 0.0 <= Smoothstep(t) <= 1.0
  {
    MulNonneg(t, t);
    MulNonneg(t * t, 3.0 - 2.0 * t);
    MulNonneg(1.0 - t, 1.0 - t);
    MulNonneg((1.0 - t) * (1.0 - t), 1.0 + 2.0 * t);
    // 1 - t^2 (3 - 2t) = (1 - t)^2 (1 + 2t)
    assert 1.0 - t * t * (3.0 - 2.0 * t) == (1.0 - t) * (1.0 - t) * (1.0 + 2.0 * t);
  }

  lemma MulNonneg(p: real, q: real)
    requires 0.0 <= p && 0.0 <= q
    ensures 0.0 <= p * q
  {
  }

  /** smoothstep is symmetric about t = 1/2. */
  lemma SmoothstepSymmetric(t: real)
    ensures Smoothstep(1.0 - t) == 1.0 - Smoothstep(t)
  {
    calc {
      Smoothstep(1.0 - t);
      (1.0 - t) * (1.0 - t) * (1.0 + 2.0 * t);
      1.0 - t * t * (3.0 - 2.0 * t);
    }
  }

  function Min(a: real, b: real): real { if a <= b then a else b }
  function Max(a: real, b: real): real { if a <= b then b else a }

  /** lerp: a + t (b - a). */
  function Lerp(a: real, b: real, t: real): real {
    a + t * (b - a)
  }

  /** lerp returns a at t = 0 and b at t = 1. */
  lemma LerpEnds(a: real, b: real, t: real)
    ensures t == 0.0 ==> Lerp(a, b, t) == a
    ensures t == 1.0 ==> Lerp(a, b, t) == b
  {
  }

  /** For t in [0, 1], lerp lies between its end points. */
  lemma LerpBetween(a: real, b: real, t: real)
    requires 0.0 <= t <= 1.0
    ensures Min(a, b) <= Lerp(a, b, t) <= Max(a, b)
  {
    if a <= b {
      MulNonneg(t, b - a);
      MulNonneg(1.0 - t, b - a);
      assert (1.0 - t) * (b - a) == (b - a) - t * (b - a);
    } else {
      MulNonneg(t, a - b);
      MulNonneg(1.0 - t, a - b);
      assert (1.0 - t) * (a - b) == (a - b) - t * (a - b);
      assert t * (b - a) == -(t * (a - b));
    }
  }

  /** Bilinear blend of four corner values: lerp along the first axis, then along the second. */
  function Bilerp(a: real, b: real, c: real, d: real, u: real, v: real): real {
    Lerp(Lerp(a, b, u), Lerp(c, d, u), v)
  }

  /** At u = v = 0 the blend is the first corner. */
  lemma BilerpAtCorner(a: real, b: real, c: real, d: real)
    ensures Bilerp(a, b, c, d, 0.0, 0.0) == a
  {
    LerpEnds(a, b, 0.0);
    LerpEnds(c, d, 0.0);
    LerpEnds(Lerp(a, b, 0.0), Lerp(c, d, 0.0), 0.0);
  }

  /** Inside the cell the blend stays within any bounds of the corners. */
  lemma BilerpBetween(a: real, b: real, c: real, d: real, u: real, v: real, lo: real, hi: real)
    requires lo <= a <= hi && lo <= b <= hi && lo <= c <= hi && lo <= d <= hi
    requires 0.0 <= u <= 1.0 && 0.0 <= v <= 1.0
    ensures lo <= Bilerp(a, b, c, d, u, v) <= hi
  {
    LerpBetween(a, b, u);
    LerpBetween(c, d, u);
    LerpBetween(Lerp(a, b, u), Lerp(c, d, u), v);
  }

  /**
   * The masked integer of hash2: `n = x + 57 y + 2654435761 seed` stored in
   * an `int` (the seed product is a `long`, the store wraps), then
   * `n = (n << 13) ^ n`, then the cubic scramble with wrap-around, and the
   * low 31 bits kept by `& 0x7fffffff`.
   */
  function HashBits(x: int32, y: int32, seed: int32): (k: nat)
    ensures k < TWO_31
  {
    var n0 := Wrap32(x + y * 57 + seed * 2654435761);
    var n := Wrap32(Xor32(Bits32(n0 * 8192), Bits32(n0)));
    // the low 31 bits of the wrapped 32-bit result are the residue mod 2^31
    (n * (n * n * 15731 + 789221) + 1376312589) % TWO_31
  }

  /** hash2: a pseudo-random value in (-1, 1] determined by (x, y, seed). */
  function Hash2(x: int32, y: int32, seed: int32): (r: real)
    ensures -1.0 < r <= 1.0
  {
    var k := HashBits(x, y, seed);
    assert k as real < 2.0 * HASH_SCALE;
    1.0 - k as real / HASH_SCALE
  }

  /**
   * `(int)floorf(v)`. Out of the range of `int` the conversion is undefined
   * in C; the model takes the value x86-64's conversion instruction gives,
   * INT_MIN.
   */
  function FloorToInt(v: real): (i: int32)
    ensures OnGrid(v) ==> i == v.Floor
  {
    if OnGrid(v) then v.Floor else -TWO_31
  }

  /** The cell coordinate of `v`, its floor, fits in an `int`. */
  predicate OnGrid(v: real) {
    -0x8000_0000 as real <= v < 0x8000_0000 as real
  }

  /** A hash of integer cell coordinates and a seed. */
  type HashFn = (int32, int32, int32) -> real

  /** A noise function of real coordinates and a seed. */
  type NoiseFn = (real, real, int32) -> real

  /** A height field over the (x, z) plane. */
  type HeightFn = (real, real) -> real

  ghost predicate HashInRange(h: HashFn) {
    forall x, y, s :: -1.0 < h(x, y, s) <= 1.0
  }

  /** Value noise over the hash `h`: smoothstep-weighted blend of the hashes of the cell corners. */
  function ValueNoise(h: HashFn, x: real, y: real, seed: int32): real {
    var xi := FloorToInt(x);
    var yi := FloorToInt(y);
    Bilerp(h(xi, yi, seed), h(Wrap32(xi as int + 1), yi, seed),
           h(xi, Wrap32(yi as int + 1), seed), h(Wrap32(xi as int + 1), Wrap32(yi as int + 1), seed),
           Smoothstep(x - xi as real), Smoothstep(y - yi as real))
  }

  lemma ValueNoiseRange(h: HashFn, x: real, y: real, seed: int32)
    requires HashInRange(h) && OnGrid(x) && OnGrid(y)
    ensures -1.0 < ValueNoise(h, x, y, seed) <= 1.0
  {
    var xi := FloorToInt(x);
    var yi := FloorToInt(y);
    var a, b := h(xi, yi, seed), h(Wrap32(xi as int + 1), yi, seed);
    var c, d := h(xi, Wrap32(yi as int + 1), seed), h(Wrap32(xi as int + 1), Wrap32(yi as int + 1), seed);
    SmoothstepUnit(x - xi as real);
    SmoothstepUnit(y - yi as real);
    BilerpBetween(a, b, c, d, Smoothstep(x - xi as real), Smoothstep(y - yi as real),
                  Min(Min(a, b), Min(c, d)), 1.0);
  }

  lemma ValueNoiseAtLattice(h: HashFn, i: int32, j: int32, seed: int32)
    ensures ValueNoise(h, i as real, j as real, seed) == h(i, j, seed)
  {
    assert FloorToInt(i as real) == i;
    assert FloorToInt(j as real) == j;
    SmoothstepEnds(0.0);
    BilerpAtCorner(h(i, j, seed), h(Wrap32(i as int + 1), j, seed),
                   h(i, Wrap32(j as int + 1), seed), h(Wrap32(i as int + 1), Wrap32(j as int + 1), seed));
  }

  /** noise2D: value noise over hash2. */
  function Noise2D(x: real, y: real, seed: int32): real {
    ValueNoise(Hash2, x, y, seed)
  }

  /** On grid coordinates the noise stays in the range of hash2, (-1, 1]. */
  lemma NoiseRange(x: real, y: real, seed: int32)
    requires OnGrid(x) && OnGrid(y)
    ensures -1.0 < Noise2D(x, y, seed) <= 1.0
  {
    ValueNoiseRange(Hash2, x, y, seed);
  }

  /** At a lattice point the noise is the hash of that point. */
  lemma NoiseAtLattice(i: int32, j: int32, seed: int32)
    ensures Noise2D(i as real, j as real, seed) == Hash2(i, j, seed)
  {
    ValueNoiseAtLattice(Hash2, i, j, seed);
  }

  /** A noise function that stays in (-1, 1] wherever its cell coordinates are `int`s. */
  ghost predicate NoiseBounded(noise: NoiseFn) {
    forall x, y, s :: OnGrid(x) && OnGrid(y) ==> -1.0 < noise(x, y, s) <= 1.0
  }

  lemma Noise2DBounded()
    ensures NoiseBounded(Noise2D)
  {
    forall x, y, s | OnGrid(x) && OnGrid(y)
      ensures -1.0 < Noise2D(x, y, s) <= 1.0
    {
      NoiseRange(x, y, s);
    }
  }

  /**
   * Octaves i .. n-1 of fbm, the first of them at frequency `freq` and
   * amplitude `amp`; each later octave doubles the frequency, halves the
   * amplitude and adds one to the seed (fbm's `value`).
   */
  function OctavesFrom(noise: NoiseFn, x: real, y: real, seed: int32, i: nat, n: nat, freq: real, amp: real): real
    decreases n - i
  {
    if i >= n then 0.0
    else noise(x * freq, y * freq, Wrap32(seed + i)) * amp
         + OctavesFrom(noise, x, y, seed, i + 1, n, freq * 2.0, amp * 0.5)
  }

  /** The amplitudes of octaves i .. n-1 (fbm's `maxValue`). */
  function AmplitudesFrom(i: nat, n: nat, amp: real): real
    decreases n - i
  {
    if i >= n then 0.0 else amp + AmplitudesFrom(i + 1, n, amp * 0.5)
  }

  /** Fractal sum of `octaves` octaves of `noise`, normalised by the sum of the amplitudes. */
  function FbmOf(noise: NoiseFn, x: real, y: real, octaves: nat, seed: int32): real
    requires octaves >= 1
  {
    Factor(noise, x, y, seed, 0, octaves, 1.0, 1.0);
    WeightsBounds(0, octaves);
    OctavesFrom(noise, x, y, seed, 0, octaves, 1.0, 1.0) / AmplitudesFrom(0, octaves, 1.0)
  }

  /** The octaves with the amplitude factored out: octave i has weight 1, each later one half the one before. */
  function ScaledOctaves(noise: NoiseFn, x: real, y: real, seed: int32, i: nat, n: nat, freq: real): real
    decreases n - i
  {
    if i >= n then 0.0
    else noise(x * freq, y * freq, Wrap32(seed + i)) + 0.5 * ScaledOctaves(noise, x, y, seed, i + 1, n, freq * 2.0)
  }

  /** The weights of octaves i .. n-1 with the amplitude factored out. */
  function WeightsFrom(i: nat, n: nat): real
    decreases n - i
  {
    if i >= n then 0.0 else 1.0 + 0.5 * WeightsFrom(i + 1, n)
  }

  /** Sums at amplitude `amp` are `amp` times the factored sums. */
  lemma {:induction false} Factor(noise: NoiseFn, x: real, y: real, seed: int32, i: nat, n: nat, freq: real, amp: real)
    ensures OctavesFrom(noise, x, y, seed, i, n, freq, amp) == amp * ScaledOctaves(noise, x, y, seed, i, n, freq)
    ensures AmplitudesFrom(i, n, amp) == amp * WeightsFrom(i, n)
    decreases n - i
  {
    if i < n {
      Factor(noise, x, y, seed, i + 1, n, freq * 2.0, amp * 0.5);
      Distribute(amp, noise(x * freq, y * freq, Wrap32(seed + i)), ScaledOctaves(noise, x, y, seed, i + 1, n, freq * 2.0));
      Distribute(amp, 1.0, WeightsFrom(i + 1, n));
    }
  }

  lemma Distribute(a: real, v: real, r: real)
    ensures a * (v + 0.5 * r) == v * a + (a * 0.5) * r
  {
  }

  /** The weights form a geometric series: their sum is at least the first and below twice it. */
  lemma {:induction false} WeightsBounds(i: nat, n: nat)
    requires i < n
    ensures 1.0 <= WeightsFrom(i, n) < 2.0
    decreases n - i
  {
    if i + 1 < n {
      WeightsBounds(i + 1, n);
    }
  }

  /** Every octave i .. n-1 of an fbm sample at (x, y) has `int` cell coordinates. */
  predicate OctavesOnGrid(x: real, y: real, i: nat, n: nat, freq: real)
    decreases n - i
  {
    i >= n || (OnGrid(x * freq) && OnGrid(y * freq) && OctavesOnGrid(x, y, i + 1, n, freq * 2.0))
  }

  /** The factored octave sum is bounded by the sum of the weights. */
  lemma {:induction false} ScaledOctavesBound(noise: NoiseFn, x: real, y: real, seed: int32, i: nat, n: nat, freq: real)
    requires NoiseBounded(noise) && OctavesOnGrid(x, y, i, n, freq)
    ensures -WeightsFrom(i, n) <= ScaledOctaves(noise, x, y, seed, i, n, freq) <= WeightsFrom(i, n)
    decreases n - i
  {
    if i < n {
      ScaledOctavesBound(noise, x, y, seed, i + 1, n, freq * 2.0);
    }
  }

  lemma DivideBound(v: real, w: real)
    requires w > 0.0 && -w <= v <= w
    ensures -1.0 <= v / w <= 1.0
  {
    assert v / w * w == v;
  }

  /** fbm: the fractal sum of noise2D octaves. */
  function Fbm(x: real, y: real, octaves: int32, seed: int32): real
    requires octaves >= 1
  {
    FbmOf(Noise2D, x, y, octaves, seed)
  }

  /**
   * fbm's accumulating loop, over any base noise: each octave adds the noise
   * at the current frequency times the current amplitude, then halves the
   * amplitude and doubles the frequency; the sum is divided by the sum of
   * the amplitudes.
   */
  method AccumulateOctaves(noise: NoiseFn, x: real, y: real, octaves: int32, seed: int32) returns (r: real)
    requires octaves >= 1
    ensures r == FbmOf(noise, x, y, octaves, seed)
  {
    var value := 0.0;
    var amplitude := 1.0;
    var frequency := 1.0;
    var maxValue := 0.0;
    var i: int32 := 0;
    while i < octaves
      invariant 0 <= i <= octaves
      invariant value + OctavesFrom(noise, x, y, seed, i as nat, octaves, frequency, amplitude)
             == OctavesFrom(noise, x, y, seed, 0, octaves, 1.0, 1.0)
      invariant maxValue + AmplitudesFrom(i as nat, octaves, amplitude) == AmplitudesFrom(0, octaves, 1.0)
    {
      value := value + noise(x * frequency, y * frequency, Wrap32(seed + i)) * amplitude;
      maxValue := maxValue + amplitude;
      amplitude := amplitude * 0.5;
      frequency := frequency * 2.0;
      i := i + 1;
    }
    Factor(noise, x, y, seed, 0, octaves, 1.0, 1.0);
    WeightsBounds(0, octaves);
    r := value / maxValue;
  }

  /** fbm run over noise2D. */
  method ComputeFbm(x: real, y: real, octaves: int32, seed: int32) returns (r: real)
    requires octaves >= 1
    ensures r == Fbm(x, y, octaves, seed)
  {
    r := AccumulateOctaves(Noise2D, x, y, octaves, seed);
  }

  /** fbm over any base noise bounded by 1 is bounded by 1. */
  lemma FbmOfRange(noise: NoiseFn, x: real, y: real, octaves: nat, seed: int32)
    requires octaves >= 1 && NoiseBounded(noise) && OctavesOnGrid(x, y, 0, octaves, 1.0)
    ensures -1.0 <= FbmOf(noise, x, y, octaves, seed) <= 1.0
  {
    ScaledOctavesBound(noise, x, y, seed, 0, octaves, 1.0);
    Factor(noise, x, y, seed, 0, octaves, 1.0, 1.0);
    WeightsBounds(0, octaves);
    var v := ScaledOctaves(noise, x, y, seed, 0, octaves, 1.0);
    var w := WeightsFrom(0, octaves);
    assert OctavesFrom(noise, x, y, seed, 0, octaves, 1.0, 1.0) == v;
    assert AmplitudesFrom(0, octaves, 1.0) == w;
    DivideBound(v, w);
  }

  /** fbm of coordinates whose octaves stay on the `int` grid is normalised into [-1, 1]. */
  lemma FbmRange(x: real, y: real, octaves: int32, seed: int32)
    requires octaves >= 1 && OctavesOnGrid(x, y, 0, octaves, 1.0)
    ensures -1.0 <= Fbm(x, y, octaves, seed) <= 1.0
  {
    Noise2DBounded();
    FbmOfRange(Noise2D, x, y, octaves, seed);
  }

  /** ridgeNoise over any base noise: one minus the magnitude of a four-octave fbm. */
  function RidgeOf(noise: NoiseFn, x: real, y: real, seed: int32): real {
    var n := FbmOf(noise, x, y, 4, seed);
    1.0 - (if n < 0.0 then -n else n)
  }

  /** ridgeNoise over noise2D. */
  function Ridge(x: real, y: real, seed: int32): real {
    RidgeOf(Noise2D, x, y, seed)
  }

  /** Ridge noise lies in the unit interval. */
  lemma RidgeRange(x: real, y: real, seed: int32)
    requires OctavesOnGrid(x, y, 0, 4, 1.0)
    ensures 0.0 <= Ridge(x, y, seed) <= 1.0
  {
    Noise2DBounded();
    FbmOfRange(Noise2D, x, y, 4, seed);
  }

  /**
   * terrainHeight before the lake clamp, over any base noise: three fbm
   * layers of hills, shifted down by 8, plus ridge-noise mountains (raised
   * by `pow` to 1.5) masked by a smoothstepped low-frequency fbm. Seeds are
   * `int` sums and wrap.
   */
  function RawHeightOf(noise: NoiseFn, x: real, y: real, seed: int32, worldSeed: int32, pow: (real, real) -> real): real {
    var s := worldSeed + seed;
    var largeHills := FbmOf(noise, x * 0.003, y * 0.003, 4, Wrap32(s)) * 25.0;
    var mediumHills := FbmOf(noise, x * 0.008, y * 0.008, 5, Wrap32(s + 1)) * 12.0;
    var detail := FbmOf(noise, x * 0.02, y * 0.02, 6, Wrap32(s + 2)) * 4.0;
    var warpX := FbmOf(noise, x * 0.005, y * 0.005, 3, Wrap32(s + 3)) * 20.0;
    var warpY := FbmOf(noise, x * 0.005, y * 0.005, 3, Wrap32(s + 4)) * 20.0;
    var ridge := RidgeOf(noise, (x + warpX) * 0.004, (y + warpY) * 0.004, Wrap32(s + 5));
    var mountains := pow(ridge, 1.5) * 35.0;
    var baseTerrain := largeHills + mediumHills * 0.7 + detail * 0.3 - 8.0;
    var mask := Smoothstep(FbmOf(noise, x * 0.002, y * 0.002, 3, Wrap32(s + 6)) * 0.5 + 0.5);
    baseTerrain + mountains * mask
  }

  /** terrainHeight over any base noise: the raw height, never below the lake level. */
  function TerrainHeightOf(noise: NoiseFn, x: real, y: real, seed: int32, worldSeed: int32, pow: (real, real) -> real): (h: real)
    ensures h >= LAKE_LEVEL
    ensures h == RawHeightOf(noise, x, y, seed, worldSeed, pow) || h == LAKE_LEVEL
    ensures RawHeightOf(noise, x, y, seed, worldSeed, pow) >= LAKE_LEVEL ==> h == RawHeightOf(noise, x, y, seed, worldSeed, pow)
  {
    Max(RawHeightOf(noise, x, y, seed, worldSeed, pow), LAKE_LEVEL)
  }

  /** terrainHeight over noise2D. */
  function TerrainHeight(x: real, y: real, seed: int32, worldSeed: int32, pow: (real, real) -> real): real {
    TerrainHeightOf(Noise2D, x, y, seed, worldSeed, pow)
  }

  /** Bilinear interpolation, on a grid of size 1, of `height` at the corners of the cell of (x, z). */
  function Sample(height: HeightFn, x: real, z: real): real {
    var gx := FloorToInt(x);
    var gz := FloorToInt(z);
    var x0, x1 := gx as real, Wrap32(gx as int + 1) as real;
    var z0, z1 := gz as real, Wrap32(gz as int + 1) as real;
    Bilerp(height(x0, z0), height(x1, z0), height(x0, z1), height(x1, z1), x - x0, z - z0)
  }

  lemma SampleAtLattice(height: HeightFn, i: int32, j: int32)
    ensures Sample(height, i as real, j as real) == height(i as real, j as real)
  {
    assert FloorToInt(i as real) == i;
    assert FloorToInt(j as real) == j;
    var x1, z1 := Wrap32(i as int + 1) as real, Wrap32(j as int + 1) as real;
    BilerpAtCorner(height(i as real, j as real), height(x1, j as real), height(i as real, z1), height(x1, z1));
  }

  lemma SampleAbove(height: HeightFn, x: real, z: real, floor: real)
    requires forall p, q :: height(p, q) >= floor
    requires OnGrid(x) && OnGrid(z)
    ensures Sample(height, x, z) >= floor
  {
    var gx := FloorToInt(x);
    var gz := FloorToInt(z);
    var x0, x1 := gx as real, Wrap32(gx as int + 1) as real;
    var z0, z1 := gz as real, Wrap32(gz as int + 1) as real;
    var a, b, c, d := height(x0, z0), height(x1, z0), height(x0, z1), height(x1, z1);
    BilerpBetween(a, b, c, d, x - x0, z - z0, floor, Max(Max(a, b), Max(c, d)));
  }

  /**
   * get_interpolated_terrain_height: the terrain sampled bilinearly. The
   * corners call terrainHeight with the world seed as the extra seed, so it
   * is added to itself.
   */
  function InterpolatedHeight(x: real, z: real, worldSeed: int32, pow: (real, real) -> real): real {
    Sample((px, pz) => TerrainHeight(px, pz, worldSeed, worldSeed, pow), x, z)
  }

  /** At a lattice point the sampler returns the terrain height there. */
  lemma InterpolatedAtLattice(i: int32, j: int32, worldSeed: int32, pow: (real, real) -> real)
    ensures InterpolatedHeight(i as real, j as real, worldSeed, pow)
         == TerrainHeight(i as real, j as real, worldSeed, worldSeed, pow)
  {
    SampleAtLattice((px, pz) => TerrainHeight(px, pz, worldSeed, worldSeed, pow), i, j);
  }

  /** Between lattice points the sampler stays within the corner heights, so above the lakes. */
  lemma InterpolatedAboveLake(x: real, z: real, worldSeed: int32, pow: (real, real) -> real)
    requires OnGrid(x) && OnGrid(z)
    ensures InterpolatedHeight(x, z, worldSeed, pow) >= LAKE_LEVEL
  {
    SampleAbove((px, pz) => TerrainHeight(px, pz, worldSeed, worldSeed, pow), x, z, LAKE_LEVEL);
  }
}
