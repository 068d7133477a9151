/** Note times (Pythoven.py, mktimes): one time per beat, each optionally
    followed by an off-beat half a beat later when that beat's coin flip
    falls below the syncopation chance. The coin flips (randint(0, 100), one
    per beat) are a parameter. */
module Timing {

  /** Python's floor division `a // b`; Dafny's `/` rounds the other way
      for a negative divisor. */
  function FloorDiv(a: int, b: int): (q: int)
    requires b != 0
    ensures b > 0 ==> 0 <= a - b * q < b
    ensures b < 0 ==> b < a - b * q <= 0
  {
    if b > 0 || a % b == 0 then a / b
    else
      assert b * (a / b - 1) == b * (a / b) - b;
      a / b - 1
  }

  /** The number of beats, `range(0, length * measure // beat)`; a negative
      bound gives an empty range. */
  function BeatCount(measure: int, beat: int, length: int): (n: nat)
    requires beat != 0
    ensures beat > 0 && length * measure >= 0 ==> n * beat <= length * measure < (n + 1) * beat
  {
    var q := FloorDiv(length * measure, beat);
    if q < 0 then 0 else q
  }

  /** The times beat i contributes, given its coin flip. */
  function BeatTimes(beat: int, sync: int, i: int, flip: int): seq<int>
  {
    if flip < sync then [i * beat, i * beat + beat / 2] else [i * beat]
  }

  /** mktimes' result for the given flips, one per beat, beat i's flip at
      index i. */
  function Times(beat: int, sync: int, flips: seq<int>): seq<int>
  {
    if flips == [] then []
    else Times(beat, sync, flips[..|flips| - 1]) + BeatTimes(beat, sync, |flips| - 1, flips[|flips| - 1])
  }

  /** mktimes: append i * beat, then possibly the off-beat, for every beat. */
  method MkTimes(measure: int, beat: int, sync: int, length: int, flips: seq<int>) returns (li: seq<int>)
    requires beat != 0
    requires |flips| == BeatCount(measure, beat, length)
    ensures li == Times(beat, sync, flips)
  {
    li := [];
    for i := 0 to BeatCount(measure, beat, length)
      invariant li == Times(beat, sync, flips[..i])
    {
      li := li + [i * beat];
      if flips[i] < sync {
        li := li + [i * beat + beat / 2];
      }
      assert flips[..i + 1][..i] == flips[..i];
    }
    assert flips[..|flips|] == flips;
  }

  /** x is one of the times beat i produces. */
  predicate IsTimeOf(beat: int, sync: int, flips: seq<int>, i: int, x: int)
  {
    0 <= i < |flips| && (x == i * beat || (flips[i] < sync && x == i * beat + beat / 2))
  }

  /** The times are exactly the on-beats of every beat and the off-beats of
      the beats whose flip fell below sync. */
  lemma {:induction false} TimesMembers(beat: int, sync: int, flips: seq<int>, x: int)
    ensures x in Times(beat, sync, flips) <==> exists i :: IsTimeOf(beat, sync, flips, i, x)
    decreases |flips|
  {
    if flips != [] {
      var n := |flips| - 1;
      var init := flips[..n];
      TimesMembers(beat, sync, init, x);
      assert Times(beat, sync, flips) == Times(beat, sync, init) + BeatTimes(beat, sync, n, flips[n]);
      if x in Times(beat, sync, flips) {
        if x in Times(beat, sync, init) {
          var i :| IsTimeOf(beat, sync, init, i, x);
          assert IsTimeOf(beat, sync, flips, i, x);
        } else {
          assert IsTimeOf(beat, sync, flips, n, x);
        }
      }
      if exists i :: IsTimeOf(beat, sync, flips, i, x) {
        var i :| IsTimeOf(beat, sync, flips, i, x);
        if i < n {
          assert IsTimeOf(beat, sync, init, i, x);
        }
      }
    }
  }

  /** The list starts with beat 0's time, 0. */
  lemma {:induction false} TimesStartAtZero(beat: int, sync: int, flips: seq<int>)
    requires |flips| > 0
    ensures |Times(beat, sync, flips)| > 0 && Times(beat, sync, flips)[0] == 0
    decreases |flips|
  {
    var n := |flips| - 1;
    if n > 0 {
      TimesStartAtZero(beat, sync, flips[..n]);
    }
  }

  /** The number of beats whose flip falls below sync. */
  function Splits(sync: int, flips: seq<int>): nat
  {
    if flips == [] then 0
    else Splits(sync, flips[..|flips| - 1]) + (if flips[|flips| - 1] < sync then 1 else 0)
  }

  lemma {:induction false} TimesCount(beat: int, sync: int, flips: seq<int>)
    ensures |Times(beat, sync, flips)| == |flips| + Splits(sync, flips)
    decreases |flips|
  {
    if flips != [] {
      TimesCount(beat, sync, flips[..|flips| - 1]);
    }
  }

  /** With sync = 0 no flip (randint(0, 100) is never negative) splits a
      beat: one time per beat. */
  lemma {:induction false} UnsyncopatedCount(measure: int, beat: int, length: int, flips: seq<int>)
    requires beat != 0
    requires |flips| == BeatCount(measure, beat, length)
    requires forall i :: 0 <= i < |flips| ==> 0 <= flips[i]
    ensures |Times(beat, 0, flips)| == BeatCount(measure, beat, length)
    decreases |flips|
  {
    NoSplits(flips);
    TimesCount(beat, 0, flips);
  }

  lemma {:induction false} NoSplits(flips: seq<int>)
    requires forall i :: 0 <= i < |flips| ==> 0 <= flips[i]
    ensures Splits(0, flips) == 0
    decreases |flips|
  {
    if flips != [] {
      NoSplits(flips[..|flips| - 1]);
    }
  }

  /** For a positive beat every time of beat i lies in [i * beat, (i + 1) * beat),
      so all times lie in [0, |flips| * beat). */
  lemma {:induction false} TimesBounds(beat: int, sync: int, flips: seq<int>)
    requires beat > 0
    ensures forall k :: 0 <= k < |Times(beat, sync, flips)| ==>
              0 <= Times(beat, sync, flips)[k] < |flips| * beat
    decreases |flips|
  {
    if flips != [] {
      var n := |flips| - 1;
      TimesBounds(beat, sync, flips[..n]);
      assert n * beat >= 0;
      assert |flips| * beat == n * beat + beat;
    }
  }

  predicate StrictlyIncreasing(s: seq<int>)
  {
    forall j, k :: 0 <= j < k < |s| ==> s[j] < s[k]
  }

  /** With beat >= 2 the off-beat lies strictly between two on-beats, so the
      times strictly increase. */
  lemma {:induction false} TimesIncreasing(beat: int, sync: int, flips: seq<int>)
    requires beat >= 2
    ensures StrictlyIncreasing(Times(beat, sync, flips))
    decreases |flips|
  {
    if flips != [] {
      var n := |flips| - 1;
      var init := Times(beat, sync, flips[..n]);
      var last := BeatTimes(beat, sync, n, flips[n]);
      TimesIncreasing(beat, sync, flips[..n]);
      TimesBounds(beat, sync, flips[..n]);
      var s := init + last;
      assert s == Times(beat, sync, flips);
      assert |flips[..n]| == n;
      assert forall m :: 0 <= m < |init| ==> init[m] < n * beat;
      assert forall m :: 0 <= m < |last| ==> n * beat <= last[m];
      assert |last| == 2 ==> last[0] < last[1];
      forall j, k | 0 <= j < k < |s|
        ensures s[j] < s[k]
      {
        if k < |init| {
        } else if j < |init| {
          assert s[j] == init[j] && s[k] == last[k - |init|];
        } else {
          assert s[j] == last[j - |init|] && s[k] == last[k - |init|];
        }
      }
    }
  }
}
