/** The weighted interval sampler (Pythoven.py, melodic2wrand and wrand): a
    melodic interval table becomes a dictionary from cumulative weights to
    intervals, and a drawn integer is mapped to the interval whose bucket
    starts at the greatest key not above it. */
module Sampler {
  import opened Outcomes

  /** One row of a melodic interval table: a signed half-step interval and
      its dissonance frequency (0 = consonant). */
  datatype Interval = Interval(step: int, freq: int)

  /** The dictionary melodic2wrand returns: integer keys mapping to intervals,
      and the extra entry 'max' holding the total weight. */
  datatype WeightTable = WeightTable(buckets: map<int, int>, max: int)

  const MelodicInterval: seq<Interval> := [
    Interval(-12, 5), Interval(-11, 6), Interval(-10, 4), Interval(-9, 3), Interval(-8, 2), Interval(-7, 3),
    Interval(-6, 4), Interval(-5, 1), Interval(-4, 1), Interval(-3, 2), Interval(-2, 2), Interval(-1, 3),
    Interval(0, 0),
    Interval(1, 3), Interval(2, 2), Interval(3, 2), Interval(4, 1), Interval(5, 1), Interval(6, 4),
    Interval(7, 3), Interval(8, 2), Interval(9, 3), Interval(10, 4), Interval(11, 6), Interval(12, 5)]

  /** The weight melodic2wrand gives a row: consonant intervals get larger buckets. */
  function Weight(e: Interval): int
  {
    10 - e.freq
  }

  /** Sum of the weights of the first k rows: where the k-th bucket starts. */
  function Cumulative(melodic: seq<Interval>, k: nat): int
    requires k <= |melodic|
  {
    if k == 0 then 0 else Cumulative(melodic, k - 1) + Weight(melodic[k - 1])
  }

  predicate PositiveWeights(melodic: seq<Interval>)
  {
    forall k :: 0 <= k < |melodic| ==> Weight(melodic[k]) > 0
  }

  /** The set of intervals listed in a table. */
  function Steps(melodic: seq<Interval>): set<int>
  {
    set k | 0 <= k < |melodic| :: melodic[k].step
  }

  /** The bucket starts of a table: one per row. */
  ghost function BucketStarts(melodic: seq<Interval>, n: nat): set<int>
    requires n <= |melodic|
  {
    set k | 0 <= k < n :: Cumulative(melodic, k)
  }

  /** What melodic2wrand's dictionary holds: its keys are exactly the bucket
      starts, every value is an interval of the table, 'max' is the total
      weight, and -- when all weights are positive, so that no two bucket
      starts collide -- the key of row k maps to row k's interval. */
  ghost predicate BuiltFrom(d: WeightTable, melodic: seq<Interval>)
  {
    && d.max == Cumulative(melodic, |melodic|)
    && d.buckets.Keys == BucketStarts(melodic, |melodic|)
    && (forall key :: key in d.buckets ==> d.buckets[key] in Steps(melodic))
    && (PositiveWeights(melodic) ==>
          forall k {:trigger Cumulative(melodic, k)} :: 0 <= k < |melodic| ==> d.buckets[Cumulative(melodic, k)] == melodic[k].step)
  }

  lemma {:induction false} CumulativeGrows(melodic: seq<Interval>, i: nat, j: nat)
    requires PositiveWeights(melodic)
    requires i < j <= |melodic|
    ensures Cumulative(melodic, i) < Cumulative(melodic, j)
    decreases j
  {
    if i < j - 1 {
      CumulativeGrows(melodic, i, j - 1);
    }
  }

  /** The dictionary after recording the first n rows: row k's interval
      under the running weight Cumulative(k), a later row overwriting an
      earlier one at the same key. */
  function BucketsOf(melodic: seq<Interval>, n: nat): map<int, int>
    requires n <= |melodic|
  {
    if n == 0 then map[] else BucketsOf(melodic, n - 1)[Cumulative(melodic, n - 1) := melodic[n - 1].step]
  }

  /** melodic2wrand's result. */
  function TableOf(melodic: seq<Interval>): WeightTable
  {
    WeightTable(BucketsOf(melodic, |melodic|), Cumulative(melodic, |melodic|))
  }

  /** melodic2wrand: walk the table once, recording each row's interval under
      the running weight, then record the total as 'max'. */
  method Melodic2Wrand(melodic: seq<Interval>) returns (d: WeightTable)
    ensures d == TableOf(melodic)
  {
    var buckets: map<int, int> := map[];
    var weight := 0;
    for i := 0 to |melodic|
      invariant weight == Cumulative(melodic, i)
      invariant buckets == BucketsOf(melodic, i)
    {
      buckets := buckets[weight := melodic[i].step];
      weight := weight + Weight(melodic[i]);
    }
    d := WeightTable(buckets, weight);
  }

  /** The recorded rows, by induction on their number. */
  lemma {:induction false} BucketsOfFacts(melodic: seq<Interval>, n: nat)
    requires n <= |melodic|
    ensures BucketsOf(melodic, n).Keys == BucketStarts(melodic, n)
    ensures forall key :: key in BucketsOf(melodic, n) ==> BucketsOf(melodic, n)[key] in Steps(melodic)
    ensures PositiveWeights(melodic) ==>
              forall k {:trigger Cumulative(melodic, k)} :: 0 <= k < n ==>
                BucketsOf(melodic, n)[Cumulative(melodic, k)] == melodic[k].step
  {
    if n > 0 {
      BucketsOfFacts(melodic, n - 1);
      BucketStartsStep(melodic, n - 1);
      PositiveStep(melodic, BucketsOf(melodic, n - 1), n - 1);
    }
  }

  /** melodic2wrand's dictionary is built from the table. */
  lemma TableOfBuiltFrom(melodic: seq<Interval>)
    ensures BuiltFrom(TableOf(melodic), melodic)
  {
    BucketsOfFacts(melodic, |melodic|);
  }

  lemma BucketStartsStep(melodic: seq<Interval>, i: nat)
    requires i < |melodic|
    ensures BucketStarts(melodic, i + 1) == BucketStarts(melodic, i) + {Cumulative(melodic, i)}
  {
  }

  /** Recording row i keeps the rows before it, since with positive weights
      its bucket start is new. */
  lemma PositiveStep(melodic: seq<Interval>, buckets: map<int, int>, i: nat)
    requires i < |melodic|
    requires BucketStarts(melodic, i) <= buckets.Keys
    requires PositiveWeights(melodic) ==>
               forall k {:trigger Cumulative(melodic, k)} :: 0 <= k < i ==> buckets[Cumulative(melodic, k)] == melodic[k].step
    ensures PositiveWeights(melodic) ==>
              forall k {:trigger Cumulative(melodic, k)} :: 0 <= k < i + 1 ==>
                buckets[Cumulative(melodic, i) := melodic[i].step][Cumulative(melodic, k)] == melodic[k].step
  {
    if PositiveWeights(melodic) {
      forall k | 0 <= k < i
        ensures Cumulative(melodic, k) != Cumulative(melodic, i)
      {
        CumulativeGrows(melodic, k, i);
      }
    }
  }

  /** k is the greatest key of m in [0, draw]: the key wrand's downward scan
      from draw stops at. */
  ghost predicate IsFloorKey(m: map<int, int>, draw: int, k: int)
  {
    k in m && 0 <= k <= draw && forall j :: k < j <= draw ==> j !in m
  }

  /** wrand's downward scan, from i: the entry at the first key at or below
      i, or, once the scan passes 0, the entry at -1 (a KeyError, None, unless
      -1 happens to be a key). */
  function Lookup(m: map<int, int>, i: int): Option<int>
    decreases if i < 0 then 0 else i + 1
  {
    if i >= 0 && i !in m then Lookup(m, i - 1)
    else if i in m then Some(m[i]) else None
  }

  /** What the scan finds: the greatest key in [0, draw] when there is one,
      the entry at -1 (or nothing) when there is none; so a table with key 0
      always yields an interval, and every result is one of the table's
      values. */
  lemma {:induction false} LookupFacts(m: map<int, int>, draw: int)
    requires draw >= 0
    ensures forall k :: IsFloorKey(m, draw, k) ==> Lookup(m, draw) == Some(m[k])
    ensures (forall k :: 0 <= k <= draw ==> k !in m) ==>
              Lookup(m, draw) == (if -1 in m then Some(m[-1]) else None)
    ensures 0 in m ==> Lookup(m, draw).Some?
    ensures Lookup(m, draw).Some? ==> Lookup(m, draw).value in m.Values
    decreases draw
  {
    if draw !in m {
      assert Lookup(m, draw) == Lookup(m, draw - 1);
      if draw > 0 {
        LookupFacts(m, draw - 1);
        forall k | IsFloorKey(m, draw, k)
          ensures IsFloorKey(m, draw - 1, k)
        {
        }
      }
    } else {
      assert Lookup(m, draw) == Some(m[draw]);
      forall k | IsFloorKey(m, draw, k)
        ensures k == draw
      {
      }
    }
  }

  /** wrand, given the drawn integer: scan down from the draw to the nearest
      key and look it up. */
  method Wrand(d: WeightTable, draw: int) returns (r: Option<int>)
    requires 0 <= draw <= d.max
    ensures r == Lookup(d.buckets, draw)
  {
    var i := draw;
    while i >= 0 && i !in d.buckets
      invariant -1 <= i <= draw
      invariant Lookup(d.buckets, i) == Lookup(d.buckets, draw)
      decreases i
    {
      i := i - 1;
    }
    r := if i in d.buckets then Some(d.buckets[i]) else None;
  }

  /** With positive weights, a draw in [Cumulative(k), Cumulative(k+1)) -- or,
      for the last row, in [Cumulative(k), max] -- lands on row k: wrand
      returns the interval whose bucket start is the greatest one not above
      the draw. */
  lemma WrandPicksBucket(melodic: seq<Interval>, d: WeightTable, draw: int, k: nat)
    requires BuiltFrom(d, melodic)
    requires PositiveWeights(melodic)
    requires k < |melodic|
    requires Cumulative(melodic, k) <= draw
    requires k + 1 < |melodic| ==> draw < Cumulative(melodic, k + 1)
    ensures IsFloorKey(d.buckets, draw, Cumulative(melodic, k))
    ensures Lookup(d.buckets, draw) == Some(melodic[k].step)
  {
    assert Cumulative(melodic, 0) == 0;
    if k > 0 {
      CumulativeGrows(melodic, 0, k);
    }
    forall j | Cumulative(melodic, k) < j <= draw
      ensures j !in d.buckets
    {
      if j in d.buckets {
        NotABucketStart(melodic, k, draw, j);
      }
    }
    LookupFacts(d.buckets, draw);
  }

  /** Between the start of bucket k and the start of bucket k+1 there is no
      other bucket start. */
  lemma NotABucketStart(melodic: seq<Interval>, k: nat, draw: int, j: int)
    requires PositiveWeights(melodic)
    requires k < |melodic|
    requires k + 1 < |melodic| ==> draw < Cumulative(melodic, k + 1)
    requires Cumulative(melodic, k) < j <= draw
    ensures j !in BucketStarts(melodic, |melodic|)
  {
    if j in BucketStarts(melodic, |melodic|) {
      var m :| 0 <= m < |melodic| && Cumulative(melodic, m) == j;
      if m < k {
        CumulativeGrows(melodic, m, k);
      } else if m > k + 1 {
        CumulativeGrows(melodic, k + 1, m);
      }
    }
  }

  /** The row whose bucket holds a draw: with positive weights every draw
      in [0, max] falls in a bucket, the last bucket reaching up to max
      itself (BucketUnique: in only one). */
  function BucketOf(melodic: seq<Interval>, draw: int, n: nat): (k: nat)
    requires PositiveWeights(melodic)
    requires 0 < n <= |melodic|
    requires 0 <= draw
    requires n < |melodic| ==> draw < Cumulative(melodic, n)
    ensures k < n
    ensures Cumulative(melodic, k) <= draw
    ensures k + 1 < |melodic| ==> draw < Cumulative(melodic, k + 1)
  {
    if Cumulative(melodic, n - 1) <= draw then n - 1 else BucketOf(melodic, draw, n - 1)
  }

  /** No draw lies in two rows' buckets: with positive weights the bucket
      holding a draw is unique, so BucketOf's row is the only one. */
  lemma BucketUnique(melodic: seq<Interval>, draw: int, j: nat, k: nat)
    requires PositiveWeights(melodic)
    requires j < |melodic| && k < |melodic|
    requires Cumulative(melodic, j) <= draw && (j + 1 < |melodic| ==> draw < Cumulative(melodic, j + 1))
    requires Cumulative(melodic, k) <= draw && (k + 1 < |melodic| ==> draw < Cumulative(melodic, k + 1))
    ensures j == k
  {
    if j + 1 < k {
      CumulativeGrows(melodic, j + 1, k);
    } else if k + 1 < j {
      CumulativeGrows(melodic, k + 1, j);
    }
  }

  /** The two ends of the range: draw 0 gives the first interval of the table
      and draw max gives the last. */
  lemma WrandEnds(melodic: seq<Interval>, d: WeightTable)
    requires BuiltFrom(d, melodic)
    requires PositiveWeights(melodic)
    requires |melodic| > 0
    ensures Lookup(d.buckets, 0) == Some(melodic[0].step)
    ensures Lookup(d.buckets, d.max) == Some(melodic[|melodic| - 1].step)
  {
    var n := |melodic|;
    assert Cumulative(melodic, 0) == 0;
    WrandPicksBucket(melodic, d, 0, 0);
    if n > 1 {
      CumulativeGrows(melodic, 0, n - 1);
    }
    WrandPicksBucket(melodic, d, d.max, n - 1);
  }

  /** The source's table: all 25 weights are positive, so its buckets never
      collide. */
  lemma MelodicIntervalTable()
    ensures PositiveWeights(MelodicInterval)
  {
  }
}
