/** Scales: a list of allowed half-step offsets and the period after which
    the pattern repeats (Pythoven.py, makeScale and inScale). */
module Scales {
  import opened Arith

  datatype Scale = Scale(offsets: seq<int>, period: int)

  /** Sum of a sequence, peeled from the end so that it follows a left-to-right loop. */
  function Sum(s: seq<int>): int
  {
    if s == [] then 0 else Sum(s[..|s| - 1]) + s[|s| - 1]
  }

  /** The offsets makeScale produces: the k-th is the sum of the first k steps. */
  function PrefixSums(steps: seq<int>): seq<int>
  {
    seq(|steps|, k requires 0 <= k < |steps| => Sum(steps[..k]))
  }

  /** makeScale: one offset per step, accumulated from 0; the period is the
      sum of all the steps. */
  method MakeScale(steps: seq<int>) returns (s: Scale)
    ensures |s.offsets| == |steps|
    ensures s.offsets == PrefixSums(steps)
    ensures s.period == Sum(steps)
  {
    var note := 0;
    var li: seq<int> := [];
    for i := 0 to |steps|
      invariant |li| == i
      invariant forall k :: 0 <= k < i ==> li[k] == Sum(steps[..k])
      invariant note == Sum(steps[..i])
    {
      li := li + [note];
      assert steps[..i + 1][..i] == steps[..i];
      note := note + steps[i];
    }
    assert steps[..|steps|] == steps;
    s := Scale(li, Sum(steps));
  }

  predicate AllPositive(steps: seq<int>)
  {
    forall k :: 0 <= k < |steps| ==> steps[k] > 0
  }

  /** With positive steps the partial sums grow strictly. */
  lemma {:induction false} PrefixSumsGrow(steps: seq<int>, i: nat, j: nat)
    requires AllPositive(steps)
    requires i < j <= |steps|
    ensures Sum(steps[..i]) < Sum(steps[..j])
    decreases j
  {
    assert steps[..j][..j - 1] == steps[..j - 1];
    if i < j - 1 {
      PrefixSumsGrow(steps, i, j - 1);
    }
  }

  /** A scale built from positive steps starts at 0, is strictly increasing,
      and every offset lies below the period. */
  lemma ScaleFromPositiveSteps(steps: seq<int>)
    requires AllPositive(steps)
    ensures |steps| > 0 ==> PrefixSums(steps)[0] == 0
    ensures forall i, j :: 0 <= i < j < |steps| ==> PrefixSums(steps)[i] < PrefixSums(steps)[j]
    ensures forall i :: 0 <= i < |steps| ==> 0 <= PrefixSums(steps)[i] < Sum(steps)
  {
    var p := PrefixSums(steps);
    assert steps[..|steps|] == steps;
    forall i, j | 0 <= i < j < |steps|
      ensures p[i] < p[j]
    {
      PrefixSumsGrow(steps, i, j);
    }
    forall i | 0 <= i < |steps|
      ensures 0 <= p[i] < Sum(steps)
    {
      if 0 < i {
        PrefixSumsGrow(steps, 0, i);
      }
      PrefixSumsGrow(steps, i, |steps|);
    }
  }

  // The named scales, with the step patterns they are built from.
  const MajorSteps: seq<int> := [2, 2, 1, 2, 2, 2, 1]
  const NaturalMinorSteps: seq<int> := [2, 1, 2, 2, 1, 2, 2]
  const MelodicMinorSteps: seq<int> := [2, 1, 2, 2, 2, 2, 1]
  const HarmonicMinorSteps: seq<int> := [2, 1, 2, 2, 1, 3, 1]
  const WholeToneSteps: seq<int> := [2, 2, 2, 2, 2, 2]
  const PentatonicSteps: seq<int> := [2, 3, 2, 2]
  const ChromaticSteps: seq<int> := [1, 1, 1, 1, 1, 1, 1, 1, 1, 1, 1, 1]

  const Major := Scale([0, 2, 4, 5, 7, 9, 11], 12)
  const NaturalMinor := Scale([0, 2, 3, 5, 7, 8, 10], 12)
  const MelodicMinor := Scale([0, 2, 3, 5, 7, 9, 11], 12)
  const HarmonicMinor := Scale([0, 2, 3, 5, 7, 8, 11], 12)
  const WholeTone := Scale([0, 2, 4, 6, 8, 10], 12)
  const Pentatonic := Scale([0, 2, 5, 7], 9)
  const Chromatic := Scale([0, 1, 2, 3, 4, 5, 6, 7, 8, 9, 10, 11], 12)

  /** A sequence that starts at 0 and climbs by each step in turn is the
      sequence of partial sums, and its last value plus the last step is the total. */
  lemma {:induction false} ClimbIsPrefixSums(steps: seq<int>, offsets: seq<int>, total: int)
    requires |offsets| == |steps| > 0
    requires offsets[0] == 0
    requires forall k :: 0 <= k < |steps| - 1 ==> offsets[k + 1] == offsets[k] + steps[k]
    requires total == offsets[|steps| - 1] + steps[|steps| - 1]
    ensures offsets == PrefixSums(steps)
    ensures total == Sum(steps)
  {
    forall k | 0 <= k <= |steps|
      ensures Sum(steps[..k]) == if k < |steps| then offsets[k] else total
    {
      ClimbAt(steps, offsets, total, k);
    }
    assert steps[..|steps|] == steps;
  }

  lemma {:induction false} ClimbAt(steps: seq<int>, offsets: seq<int>, total: int, k: nat)
    requires |offsets| == |steps| > 0
    requires offsets[0] == 0
    requires forall k :: 0 <= k < |steps| - 1 ==> offsets[k + 1] == offsets[k] + steps[k]
    requires total == offsets[|steps| - 1] + steps[|steps| - 1]
    requires k <= |steps|
    ensures Sum(steps[..k]) == if k < |steps| then offsets[k] else total
  {
    if k > 0 {
      ClimbAt(steps, offsets, total, k - 1);
      assert steps[..k][..k - 1] == steps[..k - 1];
    }
  }

  /** The constants are exactly what makeScale computes from their step patterns. */
  lemma NamedScalesMatchSteps()
    ensures Major == Scale(PrefixSums(MajorSteps), Sum(MajorSteps))
    ensures NaturalMinor == Scale(PrefixSums(NaturalMinorSteps), Sum(NaturalMinorSteps))
    ensures MelodicMinor == Scale(PrefixSums(MelodicMinorSteps), Sum(MelodicMinorSteps))
    ensures HarmonicMinor == Scale(PrefixSums(HarmonicMinorSteps), Sum(HarmonicMinorSteps))
    ensures WholeTone == Scale(PrefixSums(WholeToneSteps), Sum(WholeToneSteps))
    ensures Pentatonic == Scale(PrefixSums(PentatonicSteps), Sum(PentatonicSteps))
    ensures Chromatic == Scale(PrefixSums(ChromaticSteps), Sum(ChromaticSteps))
  {
    MajorMatchesSteps();
    NaturalMinorMatchesSteps();
    MelodicMinorMatchesSteps();
    HarmonicMinorMatchesSteps();
    WholeToneMatchesSteps();
    PentatonicMatchesSteps();
    ChromaticMatchesSteps();
  }
  lemma MajorMatchesSteps()
    ensures Major == Scale(PrefixSums(MajorSteps), Sum(MajorSteps))
  {
    ClimbIsPrefixSums(MajorSteps, Major.offsets, Major.period);
  }

  lemma NaturalMinorMatchesSteps()
    ensures NaturalMinor == Scale(PrefixSums(NaturalMinorSteps), Sum(NaturalMinorSteps))
  {
    ClimbIsPrefixSums(NaturalMinorSteps, NaturalMinor.offsets, NaturalMinor.period);
  }

  lemma MelodicMinorMatchesSteps()
    ensures MelodicMinor == Scale(PrefixSums(MelodicMinorSteps), Sum(MelodicMinorSteps))
  {
    ClimbIsPrefixSums(MelodicMinorSteps, MelodicMinor.offsets, MelodicMinor.period);
  }

  lemma HarmonicMinorMatchesSteps()
    ensures HarmonicMinor == Scale(PrefixSums(HarmonicMinorSteps), Sum(HarmonicMinorSteps))
  {
    ClimbIsPrefixSums(HarmonicMinorSteps, HarmonicMinor.offsets, HarmonicMinor.period);
  }

  lemma WholeToneMatchesSteps()
    ensures WholeTone == Scale(PrefixSums(WholeToneSteps), Sum(WholeToneSteps))
  {
    ClimbIsPrefixSums(WholeToneSteps, WholeTone.offsets, WholeTone.period);
  }

  lemma PentatonicMatchesSteps()
    ensures Pentatonic == Scale(PrefixSums(PentatonicSteps), Sum(PentatonicSteps))
  {
    ClimbIsPrefixSums(PentatonicSteps, Pentatonic.offsets, Pentatonic.period);
  }

  lemma ChromaticMatchesSteps()
    ensures Chromatic == Scale(PrefixSums(ChromaticSteps), Sum(ChromaticSteps))
  {
    ClimbIsPrefixSums(ChromaticSteps, Chromatic.offsets, Chromatic.period);
  }


  /** Where inScale's two loops leave a pitch: a negative pitch is raised into
      [0, period), a pitch above the period is lowered into [1, period]. Because
      the second loop tests `>` rather than `>=`, a positive multiple of the
      period stops at the period itself. */
  function Reduce(n: int, period: int): int
    requires period > 0
  {
    if n <= 0 then n % period else (n - 1) % period + 1
  }

  /** What the reduced pitch is: congruent to the pitch, within [0, period],
      equal to the period exactly for positive multiples of it, and the pitch
      itself when it already lies in [0, period]. */
  lemma ReduceFacts(n: int, period: int)
    requires period > 0
    ensures 0 <= Reduce(n, period) <= period
    ensures Reduce(n, period) % period == n % period
    ensures Reduce(n, period) == period <==> n > 0 && n % period == 0
    ensures 0 <= n <= period ==> Reduce(n, period) == n
  {
    var p := period;
    var r := Reduce(n, p);
    if n <= 0 {
      DivModUnique(r, p, 0, r);
    } else {
      var q := (n - 1) / p;
      var m := (n - 1) % p;
      assert n - 1 == q * p + m;
      if m + 1 < p {
        DivModUnique(n, p, q, m + 1);
        DivModUnique(r, p, 0, r);
      } else {
        assert n == (q + 1) * p;
        DivModUnique(n, p, q + 1, 0);
        DivModUnique(r, p, 1, 0);
      }
      if n <= p {
        DivModUnique(n - 1, p, 0, n - 1);
      }
    }
  }

  /** inScale's answer, in closed form. */
  predicate Contains(scale: Scale, n: int)
    requires scale.period > 0
  {
    Reduce(n, scale.period) in scale.offsets
  }

  /** inScale: reduce the pitch by repeated addition, then repeated
      subtraction, of the period, then test membership. A period of 0 or less
      makes one of the source's loops run forever, hence the precondition. */
  method InScale(note: int, scale: Scale) returns (b: bool)
    requires scale.period > 0
    ensures b == Contains(scale, note)
  {
    var p := scale.period;
    var n := note;
    ghost var k := 0;
    while n < 0
      invariant n == note + k * p
      invariant note < 0 ==> n < p
      invariant note >= 0 ==> n == note
      decreases -n
    {
      n := n + p;
      k := k + 1;
    }
    while n > p
      invariant 0 <= n
      invariant n == note + k * p
      invariant note <= 0 ==> n < p
      invariant note > 0 ==> 0 < n
      decreases n
    {
      n := n - p;
      k := k - 1;
    }
    ReduceUnique(note, k, p, n);
    b := n in scale.offsets;
  }

  /** The value the two loops stop at is determined by the pitch alone. */
  lemma ReduceUnique(note: int, k: int, p: int, n: int)
    requires p > 0
    requires n == note + k * p
    requires 0 <= n <= p
    requires note <= 0 ==> n < p
    requires note > 0 ==> 0 < n
    ensures n == Reduce(note, p)
  {
    ReduceFacts(note, p);
    var r := Reduce(note, p);
    ModShift(note, k, p);
    if note <= 0 {
      DivModUnique(n, p, 0, n);
      DivModUnique(r, p, 0, r);
    } else if n == p || r == p {
      DivModUnique(p, p, 1, 0);
      if n < p { DivModUnique(n, p, 0, n); }
      if r < p { DivModUnique(r, p, 0, r); }
    } else {
      DivModUnique(n, p, 0, n);
      DivModUnique(r, p, 0, r);
    }
  }

  /** Away from the positive multiples of the period, membership only depends
      on the pitch modulo the period; at a positive multiple the test asks
      whether the period itself is an offset. */
  lemma ContainsByModulo(scale: Scale, n: int)
    requires scale.period > 0
    ensures !(n > 0 && n % scale.period == 0) ==> (Contains(scale, n) <==> n % scale.period in scale.offsets)
    ensures n > 0 && n % scale.period == 0 ==> (Contains(scale, n) <==> scale.period in scale.offsets)
  {
    var p := scale.period;
    ReduceFacts(n, p);
    var r := Reduce(n, p);
    if r < p {
      DivModUnique(r, p, 0, r);
    }
  }

  /** Adding one period keeps the answer as long as the pitch stays on one side
      of zero: from 1 upwards, or from 0 downwards. */
  lemma ContainsPeriodicOnEachSide(scale: Scale, n: int)
    requires scale.period > 0
    ensures n > 0 ==> (Contains(scale, n + scale.period) <==> Contains(scale, n))
    ensures n + scale.period <= 0 ==> (Contains(scale, n + scale.period) <==> Contains(scale, n))
  {
    var p := scale.period;
    ModShift(n, 1, p);
    ModShift(n - 1, 1, p);
  }

  /** The quirk of the `>` test: in a scale whose offsets all lie below the
      period, 0 and -period are in the scale but every positive multiple of
      the period is not. */
  lemma PositiveMultiplesLeaveScale(scale: Scale, k: int)
    requires scale.period > 0
    requires 0 in scale.offsets
    requires forall i :: 0 <= i < |scale.offsets| ==> scale.offsets[i] < scale.period
    requires k > 0
    ensures Contains(scale, 0)
    ensures Contains(scale, -scale.period)
    ensures !Contains(scale, k * scale.period)
  {
    var p := scale.period;
    ModShift(0, k, p);
    ModShift(0, -1, p);
    MulAtLeast(k, p);
    ReduceFacts(k * p, p);
  }

  lemma MajorQuirk()
    ensures Contains(Major, 0) && Contains(Major, -12)
    ensures !Contains(Major, 12) && !Contains(Major, 24)
  {
    PositiveMultiplesLeaveScale(Major, 1);
    PositiveMultiplesLeaveScale(Major, 2);
  }
}
