/** Sample buffers (Waves.py): clamping, mixing two buffers, the synthesis
    cache, and the integer tiling and fading that finish a sine wave. The
    floating-point synthesizers themselves are a parameter. */
module Waves {
  import opened Arith

  /** The largest 16-bit sample the mixer produces, (1 << 15) - 1. */
  const Max: int := 32767
  const SampleRate: int := 44100

  /** limit: clamp a sample into [-Max, Max]. */
  function Limit(n: int): (r: int)
    ensures -Max <= r <= Max
    ensures -Max <= n <= Max ==> r == n
    ensures n > Max ==> r == Max
    ensures n < -Max ==> r == -Max
  {
    if n > Max then Max else if n < -Max then -Max else n
  }

  /** Clamping twice is clamping once, and clamping keeps the order of
      samples. The range is symmetric: -32768 never comes out. */
  lemma LimitFacts(a: int, b: int)
    ensures Limit(Limit(a)) == Limit(a)
    ensures a <= b ==> Limit(a) <= Limit(b)
    ensures Limit(a) != -32768
    ensures Limit(-a) == -Limit(a)
  {
  }

  /** initArray(size): `size` zero samples (none for a negative size). */
  function InitArray(size: int): (r: seq<int>)
    ensures |r| == if size < 0 then 0 else size
    ensures forall i :: 0 <= i < |r| ==> r[i] == 0
  {
    seq(if size < 0 then 0 else size, _ => 0)
  }

  /** A growable sample buffer (array.array('h')). */
  class Wave {
    var samples: seq<int>

    constructor (samples: seq<int>)
      ensures this.samples == samples
    {
      this.samples := samples;
    }
  }

  /** Sample i of a buffer, 0 past its end. */
  function SampleAt(s: seq<int>, i: int): int
  {
    if 0 <= i < |s| then s[i] else 0
  }

  /** A buffer extended with zeros to length n. */
  function Padded(s: seq<int>, n: int): (r: seq<int>)
    ensures |r| == if |s| >= n then |s| else n
    ensures r[..|s|] == s
    ensures forall i :: |s| <= i < |r| ==> r[i] == 0
  {
    s + InitArray(n - |s|)
  }

  /** The mix of two buffers: as long as the longer one, each sample the
      clamped sum of the two, a missing sample counting as 0. */
  function Mixed(a: seq<int>, b: seq<int>): (r: seq<int>)
    ensures |r| == if |a| >= |b| then |a| else |b|
  {
    seq(if |a| >= |b| then |a| else |b|, i => Limit(SampleAt(a, i) + SampleAt(b, i)))
  }

  /** mergeWaves: extend both buffers in place with zeros to the common
      length, then fill a fresh buffer with the clamped sums. Both arguments
      may be the same buffer. */
  method MergeWaves(w1: Wave, w2: Wave) returns (out: Wave)
    modifies w1, w2
    ensures fresh(out)
    ensures var l := if |old(w1.samples)| >= |old(w2.samples)| then |old(w1.samples)| else |old(w2.samples)|;
            w1.samples == Padded(old(w1.samples), l) && w2.samples == Padded(old(w2.samples), l)
    ensures out.samples == Mixed(old(w1.samples), old(w2.samples))
  {
    ghost var a := w1.samples;
    ghost var b := w2.samples;
    var l := if |w1.samples| >= |w2.samples| then |w1.samples| else |w2.samples|;
    w1.samples := w1.samples + InitArray(l - |w1.samples|);
    w2.samples := w2.samples + InitArray(l - |w2.samples|);
    out := new Wave(InitArray(l));
    for i := 0 to l
      invariant |w1.samples| == l == |w2.samples| && |out.samples| == l
      invariant w1.samples == Padded(a, l) && w2.samples == Padded(b, l)
      invariant forall k :: 0 <= k < i ==> out.samples[k] == Limit(SampleAt(a, k) + SampleAt(b, k))
    {
      assert w1.samples[i] == SampleAt(a, i) && w2.samples[i] == SampleAt(b, i);
      out.samples := out.samples[i := Limit(w1.samples[i] + w2.samples[i])];
    }
  }

  /** The mix does not depend on the order of its arguments, stays in
      [-Max, Max], and mixing with silence only clamps. */
  lemma MixedFacts(a: seq<int>, b: seq<int>)
    ensures Mixed(a, b) == Mixed(b, a)
    ensures forall i :: 0 <= i < |Mixed(a, b)| ==> -Max <= Mixed(a, b)[i] <= Max
    ensures (forall i :: 0 <= i < |a| ==> -Max <= a[i] <= Max) ==> Mixed(a, []) == a
  {
  }

  /** Clamping after every pair makes mixing order-dependent: three full
      samples do not mix to the same value in both groupings. */
  lemma MixedNotAssociative()
    ensures Mixed(Mixed([Max], [Max]), [-Max]) == [0]
    ensures Mixed([Max], Mixed([Max], [-Max])) == [Max]
  {
  }

  /** The synthesizers INSTRUMENTS names. */
  datatype Instrument = Square | Sine | Guitar

  /** INSTRUMENTS.get(waveType, square): unknown names fall back to the
      square wave. */
  function InstrumentOf(waveType: string): (r: Instrument)
    ensures waveType == "sine" <==> r == Sine
    ensures waveType == "guitar" <==> r == Guitar
    ensures waveType != "sine" && waveType != "guitar" ==> r == Square
  {
    if waveType == "sine" then Sine
    else if waveType == "guitar" then Guitar
    else Square
  }

  /** (SAMPLE_RATE * length) // 1000: the samples in `length` milliseconds,
      rounded down. */
  function SampleCount(length: int): (c: int)
    ensures 1000 * c <= SampleRate * length < 1000 * (c + 1)
  {
    (SampleRate * length) / 1000
  }

  /** The cache key: the volume is not part of it. The frequency is a
      float in the source and only compared here. */
  datatype CacheKey = CacheKey(instrument: Instrument, freq: real, sampleCount: int)

  function KeyOf(freq: real, length: int, waveType: string): CacheKey
  {
    CacheKey(InstrumentOf(waveType), freq, SampleCount(length))
  }

  /** Which requests share a cache entry: an unknown wave type shares the
      square wave's entry, and two lengths in milliseconds share an entry only
      when they are equal (every millisecond adds 44.1 samples). */
  lemma KeyFacts(freq: real, length1: int, length2: int, waveType: string)
    ensures waveType != "sine" && waveType != "guitar" ==>
              KeyOf(freq, length1, waveType) == KeyOf(freq, length1, "square")
    ensures KeyOf(freq, length1, waveType) == KeyOf(freq, length2, waveType) <==> length1 == length2
  {
    var c1, c2 := SampleCount(length1), SampleCount(length2);
    if length1 < length2 {
      assert SampleRate * length2 >= SampleRate * length1 + SampleRate;
      assert c1 < c2;
    } else if length2 < length1 {
      assert SampleRate * length1 >= SampleRate * length2 + SampleRate;
      assert c2 < c1;
    }
  }

  /** The module-level cache dictionary of cachedWaveGen. `synth` stands for
      the synthesizers (instrument, freq, sampleCount, vol). */
  class WaveCache {
    var entries: map<CacheKey, seq<int>>
    /** The volume each entry was synthesized at. */
    ghost var volumes: map<CacheKey, real>
    /** How often a synthesizer ran. */
    ghost var synthesized: nat
    const synth: (Instrument, real, int, real) -> seq<int>

    /** Every stored buffer is what the synthesizer made for its key at the
        volume of the call that missed. */
    ghost predicate Valid()
      reads this
    {
      && entries.Keys == volumes.Keys
      && forall k :: k in entries ==> entries[k] == synth(k.instrument, k.freq, k.sampleCount, volumes[k])
    }

    constructor (synth: (Instrument, real, int, real) -> seq<int>)
      ensures Valid() && entries == map[] && synthesized == 0 && this.synth == synth
    {
      this.synth := synth;
      entries := map[];
      volumes := map[];
      synthesized := 0;
    }

    /** cachedWaveGen: synthesize on a miss and store under the key; on a
        hit return the stored buffer whatever the volume asked for. */
    method CachedWaveGen(freq: real, length: int, waveType: string, vol: real) returns (wave: seq<int>)
      requires Valid()
      modifies this
      ensures Valid()
      ensures var key := KeyOf(freq, length, waveType);
              key in entries && wave == entries[key] &&
              (key in old(entries) ==>
                 entries == old(entries) && volumes == old(volumes) && synthesized == old(synthesized)) &&
              (key !in old(entries) ==>
                 entries == old(entries)[key := synth(key.instrument, freq, key.sampleCount, vol)] &&
                 volumes == old(volumes)[key := vol] && synthesized == old(synthesized) + 1)
    {
      var sampleCount := SampleCount(length);
      var instrument := InstrumentOf(waveType);
      var key := CacheKey(instrument, freq, sampleCount);
      if key !in entries {
        entries := entries[key := synth(instrument, freq, sampleCount, vol)];
        volumes := volumes[key := vol];
        synthesized := synthesized + 1;
      }
      wave := entries[key];
    }

    /** Asking twice for the same key, at any volumes, synthesizes at most
        once and returns the same buffer both times. */
    method Twice(freq: real, length: int, waveType: string, vol1: real, vol2: real) returns (first: seq<int>, second: seq<int>)
      requires Valid()
      modifies this
      ensures Valid()
      ensures first == second
      ensures synthesized <= old(synthesized) + 1
      ensures KeyOf(freq, length, waveType) in volumes &&
              first == synth(InstrumentOf(waveType), freq, SampleCount(length),
                             volumes[KeyOf(freq, length, waveType)])
    {
      first := CachedWaveGen(freq, length, waveType, vol1);
      second := CachedWaveGen(freq, length, waveType, vol2);
    }
  }

  /** The sine wave after its first `|period|` samples are copied over the
      rest of `n` samples. */
  function Tiled(period: seq<int>, n: nat): (r: seq<int>)
    requires |period| > 0
    ensures |r| == n
  {
    seq(n, i requires 0 <= i < n => period[i % |period|])
  }

  /** sineWave's tiling loop: values[i] = values[i % calclength] for every
      i from calclength on. */
  method TileFirstPeriod(values: array<int>, calclength: int)
    requires 1 <= calclength <= values.Length
    modifies values
    ensures values[..] == Tiled(old(values[..calclength]), values.Length)
  {
    ghost var period := values[..calclength];
    for i := calclength to values.Length
      invariant forall k :: 0 <= k < calclength ==> values[k] == period[k]
      invariant forall k :: calclength <= k < i ==> values[k] == period[k % calclength]
    {
      values[i] := values[i % calclength];
    }
    forall k | 0 <= k < calclength
      ensures values[k] == period[k % calclength]
    {
      DivModUnique(k, calclength, 0, k);
    }
    assert values[..] == Tiled(period, values.Length);
  }

  /** Tiling keeps the first period and repeats it: the result has period
      |period|, and tiling it again changes nothing. */
  lemma TiledFacts(period: seq<int>, n: nat)
    requires |period| > 0
    ensures n >= |period| ==> Tiled(period, n)[..|period|] == period
    ensures forall i :: 0 <= i && i + |period| < n ==> Tiled(period, n)[i + |period|] == Tiled(period, n)[i]
    ensures n >= |period| ==> Tiled(Tiled(period, n)[..|period|], n) == Tiled(period, n)
  {
    var p := |period|;
    forall i | 0 <= i < p
      ensures i % p == i
    {
      DivModUnique(i, p, 0, i);
    }
    forall i | 0 <= i && i + p < n
      ensures (i + p) % p == i % p
    {
      ModShift(i, 1, p);
    }
  }

  /** int(SAMPLE_RATE * 0.005) samples at each end, at most half the wave. */
  function SmoothLength(n: int): (s: int)
    ensures 0 <= n ==> 0 <= s && 2 * s <= n
    ensures n >= 2 ==> s >= 1
  {
    if n / 2 < 220 then n / 2 else 220
  }

  /** The fade: sample j of the first SmoothLength samples is scaled by
      j / SmoothLength, sample j from the end likewise, the product floor-
      divided as Python 2 does; the middle is kept. */
  function Faded(s: seq<int>): (r: seq<int>)
    ensures |r| == |s|
  {
    var n := |s|;
    var sl := SmoothLength(n);
    seq(n, j requires 0 <= j < n =>
      if j < sl then s[j] * j / sl
      else if j >= n - sl then s[j] * (n - 1 - j) / sl
      else s[j])
  }

  /** sineWave's fade loop, over the first and last SmoothLength samples
      at once. */
  method Fade(values: array<int>)
    modifies values
    ensures values[..] == Faded(old(values[..]))
  {
    var n := values.Length;
    var sl := SmoothLength(n);
    for i := 0 to sl
      invariant forall j :: 0 <= j < i ==> values[j] == old(values[j]) * j / sl
      invariant forall j :: n - i <= j < n ==> values[j] == old(values[j]) * (n - 1 - j) / sl
      invariant forall j :: i <= j < n - i ==> values[j] == old(values[j])
    {
      values[i] := values[i] * i / sl;
      values[n - 1 - i] := values[n - 1 - i] * i / sl;
    }
  }

  /** What the fade does to each sample: the two end samples become 0 (for
      at least two samples), no sample grows in magnitude or changes sign,
      and the samples between the faded ends are untouched. */
  lemma FadedFacts(s: seq<int>)
    ensures |s| >= 2 ==> Faded(s)[0] == 0 && Faded(s)[|s| - 1] == 0
    ensures forall j :: 0 <= j < |s| ==>
              (s[j] >= 0 ==> 0 <= Faded(s)[j] <= s[j]) && (s[j] < 0 ==> s[j] <= Faded(s)[j] <= 0)
    ensures forall j :: SmoothLength(|s|) <= j < |s| - SmoothLength(|s|) ==> Faded(s)[j] == s[j]
  {
    forall j | 0 <= j < |s|
      ensures (s[j] >= 0 ==> 0 <= Faded(s)[j] <= s[j]) && (s[j] < 0 ==> s[j] <= Faded(s)[j] <= 0)
      ensures SmoothLength(|s|) <= j < |s| - SmoothLength(|s|) ==> Faded(s)[j] == s[j]
    {
      FadedSample(s, j);
    }
    if |s| >= 2 {
      FadedSample(s, 0);
      FadedSample(s, |s| - 1);
    }
  }

  lemma FadedSample(s: seq<int>, j: int)
    requires 0 <= j < |s|
    ensures (s[j] >= 0 ==> 0 <= Faded(s)[j] <= s[j]) && (s[j] < 0 ==> s[j] <= Faded(s)[j] <= 0)
    ensures SmoothLength(|s|) <= j < |s| - SmoothLength(|s|) ==> Faded(s)[j] == s[j]
    ensures |s| >= 2 && (j == 0 || j == |s| - 1) ==> Faded(s)[j] == 0
  {
    var n := |s|;
    var sl := SmoothLength(n);
    if n >= 2 && (j == 0 || j == n - 1) {
      assert j == 0 ==> j < sl;
      assert j == n - 1 ==> sl <= j && j >= n - sl;
      assert Faded(s)[j] == s[j] * 0 / sl && s[j] * 0 == 0;
      DivModUnique(0, sl, 0, 0);
    }
    if j < sl {
      assert Faded(s)[j] == s[j] * j / sl;
      ScaleDown(s[j], j, sl);
    } else if j >= n - sl {
      assert Faded(s)[j] == s[j] * (n - 1 - j) / sl;
      ScaleDown(s[j], n - 1 - j, sl);
    } else {
      assert Faded(s)[j] == s[j];
    }
  }


  /** v * i / sl, for 0 <= i < sl, lies between 0 and v. */
  lemma ScaleDown(v: int, i: int, sl: int)
    requires 0 <= i < sl
    ensures v >= 0 ==> 0 <= v * i / sl <= v
    ensures v < 0 ==> v <= v * i / sl <= 0
  {
    if v >= 0 {
      ScaleDownNonNegative(v, i, sl);
    } else {
      ScaleDownNegative(v, i, sl);
    }
  }

  lemma ScaleDownNonNegative(v: int, i: int, sl: int)
    requires 0 <= i < sl && v >= 0
    ensures 0 <= v * i / sl <= v
  {
    MulMonotone(i, sl, v);
    MulMonotone(0, i, v);
    DivMonotone(i * v, sl * v, sl);
    DivMonotone(0, i * v, sl);
    DivModUnique(sl * v, sl, v, 0);
    DivModUnique(0, sl, 0, 0);
    assert i * v == v * i;
  }

  /** The same bound for a negative sample; the quotient is rounded down. */
  lemma ScaleDownNegative(v: int, i: int, sl: int)
    requires 0 <= i < sl && v < 0
    ensures v <= v * i / sl <= 0
  {
    MulMonotone(i, sl, -v);
    MulMonotone(0, i, -v);
    assert i * -v == -(i * v) && sl * -v == -(sl * v);
    DivMonotone(sl * v, i * v, sl);
    DivMonotone(i * v, 0, sl);
    DivModUnique(sl * v, sl, v, 0);
    DivModUnique(0, sl, 0, 0);
    assert i * v == v * i;
  }

  /** sineWave after its first segment: the segment (computed in floating
      point in the source, given here) is tiled over sampleCount samples and
      the ends are faded. */
  method SineTail(segment: seq<int>, sampleCount: int) returns (values: array<int>)
    requires 1 <= |segment| <= sampleCount
    ensures fresh(values)
    ensures values[..] == Faded(Tiled(segment, sampleCount))
  {
    values := new int[sampleCount](_ => 0);
    for i := 0 to |segment|
      invariant forall k :: 0 <= k < i ==> values[k] == segment[k]
    {
      values[i] := segment[i];
    }
    assert values[..|segment|] == segment;
    TileFirstPeriod(values, |segment|);
    Fade(values);
  }
}
