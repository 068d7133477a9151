/** The track builders (Pythoven.py, compose and counterpoint): random
    walks over pitches. Each new note is the previous pitch plus an interval
    drawn from the weighted sampler, redrawn until it is accepted: within a
    band around the first pitch, in the scale, and, for counterpoint, not too
    dissonant against the other tracks looped to the new track's length.
    The draws (randint(0, max), one per wrand call) and the coin flips of
    mktimes are parameters. */
module Composer {
  import opened Arith
  import opened Outcomes
  import opened Scales
  import opened Sampler
  import opened Timing
  import opened Tracks
  import opened Looping

  /** The ways the builders stop without a track: `del times[0]` on an empty
      list (IndexError), randint(0, max) with a negative total weight
      (ValueError), a draw below every key of the sampler (KeyError),
      avgdissonance on a track with no event yet sounding (IndexError) or on
      an empty sheet or harmonic table (ZeroDivisionError), and, since the
      source's redraw loop has no bound, running out of supplied draws. */
  datatype Failure =
    | NoNoteTimes
    | EmptyRange
    | MissingInterval
    | NothingSounding
    | ZeroDivision
    | DrawsExhausted

  datatype Result<+T> = Ok(value: T) | Err(failure: Failure)

  /** counterpoint's extra test: the looped other tracks, the greatest
      average dissonance allowed, and the harmonic table. */
  datatype Harmony = Harmony(others: seq<Track>, limit: int, harmonic: seq<int>)

  /** What a candidate pitch must satisfy: lo <= pitch <= hi, in the scale,
      and the harmony test when there is one. */
  datatype Rule = Rule(lo: int, hi: int, scale: Scale, harmony: Option<Harmony>)

  /** An accepted pitch and the number of draws it took. */
  datatype Pick = Pick(pitch: int, used: nat)

  /** The redraw loop's test, evaluated left to right as Python's `or`
      does: Ok(true) when the candidate is accepted. */
  function Score(rule: Rule, time: int, note: int): Result<bool>
    requires rule.scale.period > 0
  {
    if note > rule.hi || note < rule.lo || !Contains(rule.scale, note) then Ok(false)
    else match rule.harmony
      case None => Ok(true)
      case Some(h) =>
        if |h.others| == 0 then Err(ZeroDivision)
        else if !AllSounding(h.others, time) then Err(NothingSounding)
        else if |h.harmonic| == 0 then Err(ZeroDivision)
        else Ok(AvgDissonance(h.others, time, note, h.harmonic) <= h.limit)
  }

  /** An accepted candidate meets every part of the rule. */
  lemma ScoreAccepts(rule: Rule, time: int, note: int)
    requires rule.scale.period > 0
    requires Score(rule, time, note) == Ok(true)
    ensures rule.lo <= note <= rule.hi && Contains(rule.scale, note)
    ensures rule.harmony.Some? ==>
              var h := rule.harmony.value;
              |h.others| > 0 && |h.harmonic| > 0 && AllSounding(h.others, time) &&
              AvgDissonance(h.others, time, note, h.harmonic) <= h.limit
  {
  }

  /** The used count of a result, raised by n. */
  function AfterDraws(r: Result<Pick>, n: nat): Result<Pick>
  {
    match r
    case Err(f) => Err(f)
    case Ok(p) => Ok(Pick(p.pitch, p.used + n))
  }

  /** The redraw loop for one note: draw, add the interval to the previous
      pitch, and stop at the first candidate the rule accepts. */
  function Choose(d: WeightTable, rule: Rule, time: int, prev: int, draws: seq<int>): (r: Result<Pick>)
    requires rule.scale.period > 0
    ensures r.Ok? ==> 0 < r.value.used <= |draws|
    decreases |draws|
  {
    if d.max < 0 then Err(EmptyRange)
    else if draws == [] then Err(DrawsExhausted)
    else match Lookup(d.buckets, draws[0])
      case None => Err(MissingInterval)
      case Some(step) =>
        match Score(rule, time, prev + step)
        case Err(f) => Err(f)
        case Ok(accepted) =>
          if accepted then Ok(Pick(prev + step, 1))
          else AfterDraws(Choose(d, rule, time, prev, draws[1..]), 1)
  }

  /** The notes placed at the given times, each chosen from the previous
      pitch with the draws its predecessors left. */
  function Walk(d: WeightTable, rule: Rule, times: seq<int>, prev: int, draws: seq<int>): Result<seq<Note>>
    requires rule.scale.period > 0
    decreases |times|
  {
    if times == [] then Ok([])
    else match Choose(d, rule, times[0], prev, draws)
      case Err(f) => Err(f)
      case Ok(p) =>
        match Walk(d, rule, times[1..], p.pitch, draws[p.used..])
        case Err(f) => Err(f)
        case Ok(rest) => Ok([Note(times[0], p.pitch)] + rest)
  }

  /** The result of a walk, with notes already placed in front. */
  function Prepended(done: seq<Note>, r: Result<seq<Note>>): Result<seq<Note>>
  {
    match r
    case Err(f) => Err(f)
    case Ok(rest) => Ok(done + rest)
  }

  lemma PrependedNothing(r: Result<seq<Note>>)
    ensures Prepended([], r) == r
  {
    match r
    case Err(_) =>
    case Ok(rest) => assert [] + rest == rest;
  }

  lemma PrependedStep(done: seq<Note>, n: Note, r: Result<seq<Note>>)
    ensures Prepended(done, Prepended([n], r)) == Prepended(done + [n], r)
  {
    match r
    case Err(_) =>
    case Ok(rest) => assert done + ([n] + rest) == (done + [n]) + rest;
  }

  /** One note of the walk, at position k of the times and draws. */
  lemma WalkStep(d: WeightTable, rule: Rule, times: seq<int>, k: nat, prev: int, draws: seq<int>, used: nat)
    requires rule.scale.period > 0
    requires k < |times| && used <= |draws|
    requires Choose(d, rule, times[k], prev, draws[used..]).Ok?
    ensures var p := Choose(d, rule, times[k], prev, draws[used..]).value;
            Walk(d, rule, times[k..], prev, draws[used..]) ==
              Prepended([Note(times[k], p.pitch)], Walk(d, rule, times[k + 1..], p.pitch, draws[used + p.used..]))
  {
    var p := Choose(d, rule, times[k], prev, draws[used..]).value;
    assert times[k..][1..] == times[k + 1..];
    assert draws[used..][p.used..] == draws[used + p.used..];
  }

  /** The redraw test as the source evaluates it: the band, then inScale,
      then the average dissonance. */
  method Accepts(rule: Rule, time: int, note: int) returns (r: Result<bool>)
    requires rule.scale.period > 0
    ensures r == Score(rule, time, note)
  {
    if note > rule.hi || note < rule.lo {
      return Ok(false);
    }
    var inScale := InScale(note, rule.scale);
    if !inScale {
      return Ok(false);
    }
    match rule.harmony {
      case None =>
        r := Ok(true);
      case Some(h) =>
        if |h.others| == 0 {
          r := Err(ZeroDivision);
        } else if !AllSounding(h.others, time) {
          r := Err(NothingSounding);
        } else if |h.harmonic| == 0 {
          r := Err(ZeroDivision);
        } else {
          r := Ok(AvgDissonance(h.others, time, note, h.harmonic) <= h.limit);
        }
    }
  }

  /** The redraw loop: `note = track[-1][1] + wrand(mwrand)` until the rule
      accepts the note. */
  method ChooseNote(d: WeightTable, rule: Rule, time: int, prev: int, draws: seq<int>) returns (r: Result<Pick>)
    requires rule.scale.period > 0
    requires Within(draws, d.max)
    ensures r == Choose(d, rule, time, prev, draws)
  {
    var used := 0;
    while true
      invariant 0 <= used <= |draws|
      invariant Choose(d, rule, time, prev, draws) == AfterDraws(Choose(d, rule, time, prev, draws[used..]), used)
      decreases |draws| - used
    {
      if d.max < 0 {
        return Err(EmptyRange);
      }
      if used == |draws| {
        return Err(DrawsExhausted);
      }
      WithinSuffix(draws, d.max, used);
      assert draws[used..][0] == draws[used];
      var step := Wrand(d, draws[used]);
      if step.None? {
        return Err(MissingInterval);
      }
      var note := prev + step.value;
      var accepted := Accepts(rule, time, note);
      if accepted.Err? {
        return Err(accepted.failure);
      }
      if accepted.value {
        return Ok(Pick(note, used + 1));
      }
      assert draws[used..][1..] == draws[used + 1..];
      used := used + 1;
    }
  }

  /** The for loop over the note times: append one chosen note per time to
      the track, which ends in the previous note. */
  method AppendWalk(track: MutableTrack, d: WeightTable, rule: Rule, times: seq<int>, draws: seq<int>)
      returns (failure: Option<Failure>)
    requires rule.scale.period > 0
    requires |track.events| > 0
    requires Within(draws, d.max)
    modifies track
    ensures track.length == old(track.length)
    ensures var r := Walk(d, rule, times, old(track.events)[|old(track.events)| - 1].pitch, draws);
            (r.Err? <==> failure.Some?) &&
            (r.Err? ==> failure.value == r.failure) &&
            (r.Ok? ==> track.events == old(track.events) + r.value)
  {
    ghost var start := track.events;
    ghost var added: seq<Note> := [];
    var prev := track.events[|track.events| - 1].pitch;
    ghost var total := Walk(d, rule, times, prev, draws);
    var used := 0;
    WalkBegins(d, rule, times, prev, draws);
    for k := 0 to |times|
      invariant track.length == old(track.length)
      invariant 0 <= used <= |draws|
      invariant track.events == start + added
      invariant total == Prepended(added, Walk(d, rule, times[k..], prev, draws[used..]))
    {
      WithinSuffix(draws, d.max, used);
      var pick := ChooseNote(d, rule, times[k], prev, draws[used..]);
      if pick.Err? {
        WalkStops(d, rule, times, k, prev, draws, used, total, added);
        return Some(pick.failure);
      }
      var note := Note(times[k], pick.value.pitch);
      WalkAdvance(d, rule, times, k, prev, draws, used, pick.value, total, added);
      added := added + [note];
      prev := pick.value.pitch;
      used := used + pick.value.used;
      track.events := track.events + [note];
    }
    WalkEnds(d, rule, times, prev, draws, used, total, added);
    failure := None;
  }

  lemma WalkBegins(d: WeightTable, rule: Rule, times: seq<int>, prev: int, draws: seq<int>)
    requires rule.scale.period > 0
    ensures Walk(d, rule, times, prev, draws) == Prepended([], Walk(d, rule, times[0..], prev, draws[0..]))
  {
    assert times[0..] == times && draws[0..] == draws;
    PrependedNothing(Walk(d, rule, times, prev, draws));
  }

  /** A failed pick stops the walk with its failure. */
  lemma WalkStops(d: WeightTable, rule: Rule, times: seq<int>, k: nat, prev: int, draws: seq<int>, used: nat,
                  total: Result<seq<Note>>, added: seq<Note>)
    requires rule.scale.period > 0
    requires k < |times| && used <= |draws|
    requires Choose(d, rule, times[k], prev, draws[used..]).Err?
    requires total == Prepended(added, Walk(d, rule, times[k..], prev, draws[used..]))
    ensures total == Err(Choose(d, rule, times[k], prev, draws[used..]).failure)
  {
    assert times[k..][0] == times[k];
  }

  /** With no times left the walk has placed everything. */
  lemma WalkEnds(d: WeightTable, rule: Rule, times: seq<int>, prev: int, draws: seq<int>, used: nat,
                 total: Result<seq<Note>>, added: seq<Note>)
    requires rule.scale.period > 0
    requires used <= |draws|
    requires total == Prepended(added, Walk(d, rule, times[|times|..], prev, draws[used..]))
    ensures total == Ok(added)
  {
    assert times[|times|..] == [] && added + [] == added;
  }

  /** One accepted pick moves the walk one time further. */
  lemma WalkAdvance(d: WeightTable, rule: Rule, times: seq<int>, k: nat, prev: int, draws: seq<int>, used: nat,
                    p: Pick, total: Result<seq<Note>>, added: seq<Note>)
    requires rule.scale.period > 0
    requires k < |times| && used <= |draws|
    requires Choose(d, rule, times[k], prev, draws[used..]) == Ok(p)
    requires total == Prepended(added, Walk(d, rule, times[k..], prev, draws[used..]))
    ensures total == Prepended(added + [Note(times[k], p.pitch)],
                               Walk(d, rule, times[k + 1..], p.pitch, draws[used + p.used..]))
  {
    WalkStep(d, rule, times, k, prev, draws, used);
    PrependedStep(added, Note(times[k], p.pitch), Walk(d, rule, times[k + 1..], p.pitch, draws[used + p.used..]));
  }

  /** compose's result, given the flips and draws: header length * measure,
      a first note (0, 0), then the walk at the note times after the first,
      each pitch within [-stray, stray]; the whole track finally transposed
      by offset. */
  function ComposeResult(measure: int, beat: int, sync: int, length: int, stray: int, scale: Scale,
                         melodic: seq<Interval>, offset: int, flips: seq<int>, draws: seq<int>): Result<Track>
    requires scale.period > 0
  {
    Built(length * measure, Times(beat, sync, flips), TableOf(melodic), Rule(-stray, stray, scale, None),
          0, offset, draws)
  }

  /** Both builders: no track without a note time; otherwise a first note
      (0, first), the walk at the times after the first, and the whole
      track transposed by offset. */
  function Built(header: int, times: seq<int>, d: WeightTable, rule: Rule, first: int, offset: int,
                 draws: seq<int>): Result<Track>
    requires rule.scale.period > 0
  {
    if times == [] then Err(NoNoteTimes)
    else match Walk(d, rule, times[1..], first, draws)
      case Err(f) => Err(f)
      case Ok(events) => Ok(Track(header, Transposed([Note(0, first)] + events, offset)))
  }

  /** The draws randint(0, max) can give for a table. */
  predicate DrawsInRange(melodic: seq<Interval>, draws: seq<int>)
  {
    Within(draws, Cumulative(melodic, |melodic|))
  }

  /** Every draw lies in randint(0, max)'s range, checked from the front. */
  predicate Within(draws: seq<int>, max: int)
    decreases |draws|
  {
    draws == [] || (0 <= draws[0] <= max && Within(draws[1..], max))
  }

  lemma {:induction false} WithinMeaning(draws: seq<int>, max: int)
    ensures Within(draws, max) <==> forall j :: 0 <= j < |draws| ==> 0 <= draws[j] <= max
    decreases |draws|
  {
    if draws != [] {
      WithinMeaning(draws[1..], max);
      assert forall j :: 1 <= j < |draws| ==> draws[j] == draws[1..][j - 1];
    }
  }

  /** The draws left after the first used ones are still in range. */
  lemma WithinSuffix(draws: seq<int>, max: int, used: nat)
    requires Within(draws, max) && used <= |draws|
    ensures Within(draws[used..], max)
  {
    WithinMeaning(draws, max);
    WithinMeaning(draws[used..], max);
  }

  /** compose. `shift` runs only for a non-zero offset; shifting by 0
      changes nothing, so the result is the same. */
  method Compose(measure: int, beat: int, sync: int, length: int, stray: int, scale: Scale,
                 melodic: seq<Interval>, offset: int, flips: seq<int>, draws: seq<int>) returns (r: Result<Track>)
    requires beat != 0
    requires scale.period > 0
    requires |flips| == BeatCount(measure, beat, length)
    requires DrawsInRange(melodic, draws)
    ensures r == ComposeResult(measure, beat, sync, length, stray, scale, melodic, offset, flips, draws)
  {
    var d := Melodic2Wrand(melodic);
    var track := new MutableTrack(length * measure, [Note(0, 0)]);
    var times := MkTimes(measure, beat, sync, length, flips);
    if |times| == 0 {
      return Err(NoNoteTimes);
    }
    times := times[1..];
    var failure := AppendWalk(track, d, Rule(-stray, stray, scale, None), times, draws);
    if failure.Some? {
      return Err(failure.value);
    }
    if offset != 0 {
      Shift(track, offset);
    } else {
      TransposedMeaning(track.events, 0);
      assert Transposed(track.events, 0) == track.events;
    }
    r := Ok(track.Value());
  }

  /** Every placed note was accepted by the rule, stands at its time, and
      moves from its predecessor by an interval the sampler can return. */
  ghost predicate Placed(d: WeightTable, rule: Rule, times: seq<int>, prev: int, ev: seq<Note>)
    requires rule.scale.period > 0
  {
    && |ev| == |times|
    && (forall i :: 0 <= i < |ev| ==> ev[i].time == times[i])
    && (forall i :: 0 <= i < |ev| ==> Score(rule, times[i], ev[i].pitch) == Ok(true))
    && (forall i {:trigger Gap(ev, prev, i)} :: 0 <= i < |ev| ==> Gap(ev, prev, i) in d.buckets.Values)
  }

  /** The pitch step into note i; before the first note the pitch was prev. */
  function Gap(ev: seq<Note>, prev: int, i: int): int
    requires 0 <= i < |ev|
  {
    ev[i].pitch - (if i == 0 then prev else ev[i - 1].pitch)
  }

  lemma {:induction false} WalkFacts(d: WeightTable, rule: Rule, times: seq<int>, prev: int, draws: seq<int>)
    requires rule.scale.period > 0
    requires Walk(d, rule, times, prev, draws).Ok?
    ensures Placed(d, rule, times, prev, Walk(d, rule, times, prev, draws).value)
    decreases |times|
  {
    if times != [] {
      var p := Choose(d, rule, times[0], prev, draws).value;
      ChooseFacts(d, rule, times[0], prev, draws);
      WalkFacts(d, rule, times[1..], p.pitch, draws[p.used..]);
      var rest := Walk(d, rule, times[1..], p.pitch, draws[p.used..]).value;
      var ev := [Note(times[0], p.pitch)] + rest;
      assert Walk(d, rule, times, prev, draws).value == ev;
      forall i | 0 <= i < |ev|
        ensures ev[i].time == times[i] && Score(rule, times[i], ev[i].pitch) == Ok(true)
      {
        if i > 0 {
          assert ev[i] == rest[i - 1] && times[i] == times[1..][i - 1];
        }
      }
      forall i | 0 <= i < |ev|
        ensures Gap(ev, prev, i) in d.buckets.Values
      {
        if i > 0 {
          assert Gap(ev, prev, i) == Gap(rest, p.pitch, i - 1);
        }
      }
    }
  }

  /** The chosen pitch is accepted and one sampler interval away. */
  lemma {:induction false} ChooseFacts(d: WeightTable, rule: Rule, time: int, prev: int, draws: seq<int>)
    requires rule.scale.period > 0
    requires Choose(d, rule, time, prev, draws).Ok?
    ensures Score(rule, time, Choose(d, rule, time, prev, draws).value.pitch) == Ok(true)
    ensures Choose(d, rule, time, prev, draws).value.pitch - prev in d.buckets.Values
    decreases |draws|
  {
    if draws[0] >= 0 {
      LookupFacts(d.buckets, draws[0]);
    }
    var step := Lookup(d.buckets, draws[0]).value;
    if Score(rule, time, prev + step) != Ok(true) {
      ChooseFacts(d, rule, time, prev, draws[1..]);
    }
  }

  /** The builders stop only for the reasons they can: a walk never fails
      for lack of note times; a sampler with key 0 and draws from randint
      never misses; without a harmony test nothing is scored against other
      tracks. */
  lemma {:induction false} ChooseFailures(d: WeightTable, rule: Rule, time: int, prev: int, draws: seq<int>)
    requires rule.scale.period > 0
    requires Choose(d, rule, time, prev, draws).Err?
    ensures Choose(d, rule, time, prev, draws).failure != NoNoteTimes
    ensures 0 in d.buckets && (forall j :: 0 <= j < |draws| ==> 0 <= draws[j]) ==>
              Choose(d, rule, time, prev, draws).failure != MissingInterval
    ensures rule.harmony.None? ==>
              Choose(d, rule, time, prev, draws).failure in {EmptyRange, MissingInterval, DrawsExhausted}
    decreases |draws|
  {
    if d.max >= 0 && draws != [] {
      if draws[0] >= 0 {
        LookupFacts(d.buckets, draws[0]);
      }
      if Lookup(d.buckets, draws[0]).Some? {
        var step := Lookup(d.buckets, draws[0]).value;
        if Score(rule, time, prev + step) == Ok(false) {
          ChooseFailures(d, rule, time, prev, draws[1..]);
        }
      }
    }
  }

  lemma {:induction false} WalkFailures(d: WeightTable, rule: Rule, times: seq<int>, prev: int, draws: seq<int>)
    requires rule.scale.period > 0
    requires Walk(d, rule, times, prev, draws).Err?
    ensures Walk(d, rule, times, prev, draws).failure != NoNoteTimes
    ensures 0 in d.buckets && (forall j :: 0 <= j < |draws| ==> 0 <= draws[j]) ==>
              Walk(d, rule, times, prev, draws).failure != MissingInterval
    ensures rule.harmony.None? ==>
              Walk(d, rule, times, prev, draws).failure in {EmptyRange, MissingInterval, DrawsExhausted}
    decreases |times|
  {
    if Choose(d, rule, times[0], prev, draws).Err? {
      ChooseFailures(d, rule, times[0], prev, draws);
    } else {
      var p := Choose(d, rule, times[0], prev, draws).value;
      WalkFailures(d, rule, times[1..], p.pitch, draws[p.used..]);
    }
  }

  /** An interval the sampler returns is one of the table's. */
  lemma TableValues(melodic: seq<Interval>, v: int)
    requires v in TableOf(melodic).buckets.Values
    ensures v in Steps(melodic)
  {
    TableOfBuiltFrom(melodic);
    var key :| key in TableOf(melodic).buckets && TableOf(melodic).buckets[key] == v;
  }

  /** What both builders promise: the header; the first note (0, first)
      moved by offset; the others at the note times after the first,
      accepted by the rule before the move, each one sampler interval from
      its predecessor. */
  lemma {:induction false} BuiltShape(header: int, times: seq<int>, d: WeightTable, rule: Rule, first: int,
                                      offset: int, draws: seq<int>)
    requires rule.scale.period > 0
    requires Built(header, times, d, rule, first, offset, draws).Ok?
    ensures var t := Built(header, times, d, rule, first, offset, draws).value;
            t.length == header &&
            |t.events| == |times| > 0 && t.events[0] == Note(0, first + offset) &&
            (forall i :: 0 < i < |t.events| ==>
               t.events[i].time == times[i] &&
               Score(rule, times[i], t.events[i].pitch - offset) == Ok(true)) &&
            (forall i {:trigger Gap(t.events, first, i)} :: 0 < i < |t.events| ==>
               Gap(t.events, first, i) in d.buckets.Values)
  {
    WalkFacts(d, rule, times[1..], first, draws);
    var ev := Walk(d, rule, times[1..], first, draws).value;
    PlacedShape(header, times, d, rule, first, offset, ev, Built(header, times, d, rule, first, offset, draws).value);
  }

  /** BuiltShape for the track made from a given placed walk. */
  lemma PlacedShape(header: int, times: seq<int>, d: WeightTable, rule: Rule, first: int, offset: int,
                    ev: seq<Note>, t: Track)
    requires rule.scale.period > 0
    requires |times| > 0 && Placed(d, rule, times[1..], first, ev)
    requires t == Track(header, Transposed([Note(0, first)] + ev, offset))
    ensures t.length == header &&
            |t.events| == |times| > 0 && t.events[0] == Note(0, first + offset) &&
            (forall i :: 0 < i < |t.events| ==>
               t.events[i].time == times[i] &&
               Score(rule, times[i], t.events[i].pitch - offset) == Ok(true)) &&
            (forall i {:trigger Gap(t.events, first, i)} :: 0 < i < |t.events| ==>
               Gap(t.events, first, i) in d.buckets.Values)
  {
    TransposedWalk(times, d.buckets.Values, first, offset, ev, t.events);
    ShiftedScores(rule, times, offset, ev, t.events);
  }

  /** The notes of a walk, behind the first note and transposed: each keeps
      its time and moves by offset, and the steps between them are kept. */
  lemma TransposedWalk(times: seq<int>, steps: set<int>, first: int, offset: int, ev: seq<Note>, events: seq<Note>)
    requires |times| == |ev| + 1
    requires forall i :: 0 <= i < |ev| ==> ev[i].time == times[1..][i]
    requires forall i {:trigger Gap(ev, first, i)} :: 0 <= i < |ev| ==> Gap(ev, first, i) in steps
    requires events == Transposed([Note(0, first)] + ev, offset)
    ensures |events| == |times| && events[0] == Note(0, first + offset)
    ensures forall i :: 0 < i < |events| ==>
              events[i].time == times[i] && events[i].pitch - offset == ev[i - 1].pitch
    ensures forall i {:trigger Gap(events, first, i)} :: 0 < i < |events| ==> Gap(events, first, i) in steps
  {
    forall i | 0 < i < |events|
      ensures events[i].time == times[i] && events[i].pitch - offset == ev[i - 1].pitch
      ensures Gap(events, first, i) in steps
    {
      assert times[1..][i - 1] == times[i];
      assert Gap(ev, first, i - 1) in steps;
      BuiltNote(first, offset, ev, events, i);
    }
  }

  lemma BuiltNote(first: int, offset: int, ev: seq<Note>, events: seq<Note>, i: int)
    requires events == Transposed([Note(0, first)] + ev, offset)
    requires 0 < i < |events|
    ensures events[i] == Note(ev[i - 1].time, ev[i - 1].pitch + offset)
    ensures Gap(events, first, i) == Gap(ev, first, i - 1)
  {
    var all := [Note(0, first)] + ev;
    assert all[i] == ev[i - 1];
    assert all[i - 1].pitch == if i == 1 then first else ev[i - 2].pitch;
    assert events[i - 1].pitch == all[i - 1].pitch + offset;
  }

  /** The rule accepted every walked pitch before the move by offset. */
  lemma ShiftedScores(rule: Rule, times: seq<int>, offset: int, ev: seq<Note>, events: seq<Note>)
    requires rule.scale.period > 0
    requires |times| == |ev| + 1 == |events|
    requires forall i :: 0 <= i < |ev| ==> Score(rule, times[1..][i], ev[i].pitch) == Ok(true)
    requires forall i :: 0 < i < |events| ==> events[i].pitch - offset == ev[i - 1].pitch
    ensures forall i :: 0 < i < |events| ==> Score(rule, times[i], events[i].pitch - offset) == Ok(true)
  {
    forall i | 0 < i < |events|
      ensures Score(rule, times[i], events[i].pitch - offset) == Ok(true)
    {
      assert times[1..][i - 1] == times[i];
      assert events[i].pitch - offset == ev[i - 1].pitch;
    }
  }

  /** compose's promise: the header is length * measure; the first note is
      (0, offset); the others stand at the note times after the first, lie
      within stray of offset and in the scale (relative to offset), and each
      moves from its predecessor by an interval of the table. */
  lemma ComposeShape(measure: int, beat: int, sync: int, length: int, stray: int, scale: Scale,
                     melodic: seq<Interval>, offset: int, flips: seq<int>, draws: seq<int>)
    requires scale.period > 0
    requires ComposeResult(measure, beat, sync, length, stray, scale, melodic, offset, flips, draws).Ok?
    ensures var t := ComposeResult(measure, beat, sync, length, stray, scale, melodic, offset, flips, draws).value;
            var times := Times(beat, sync, flips);
            t.length == length * measure &&
            |t.events| == |times| && t.events[0] == Note(0, offset) &&
            (forall i :: 0 < i < |t.events| ==>
               t.events[i].time == times[i] &&
               -stray <= t.events[i].pitch - offset <= stray &&
               Contains(scale, t.events[i].pitch - offset)) &&
            (forall i {:trigger Gap(t.events, 0, i)} :: 0 < i < |t.events| ==>
               Gap(t.events, 0, i) in Steps(melodic))
  {
    var times := Times(beat, sync, flips);
    assert ComposeResult(measure, beat, sync, length, stray, scale, melodic, offset, flips, draws) ==
           Built(length * measure, times, TableOf(melodic), Rule(-stray, stray, scale, None), 0, offset, draws);
    ComposedTrack(length * measure, times, stray, scale, melodic, offset, draws);
  }

  /** ComposeShape for any header and note times. */
  lemma ComposedTrack(header: int, times: seq<int>, stray: int, scale: Scale, melodic: seq<Interval>, offset: int,
                      draws: seq<int>)
    requires scale.period > 0
    requires Built(header, times, TableOf(melodic), Rule(-stray, stray, scale, None), 0, offset, draws).Ok?
    ensures var t := Built(header, times, TableOf(melodic), Rule(-stray, stray, scale, None), 0, offset, draws).value;
            t.length == header &&
            |t.events| == |times| && t.events[0] == Note(0, offset) &&
            (forall i :: 0 < i < |t.events| ==>
               t.events[i].time == times[i] &&
               -stray <= t.events[i].pitch - offset <= stray &&
               Contains(scale, t.events[i].pitch - offset)) &&
            (forall i {:trigger Gap(t.events, 0, i)} :: 0 < i < |t.events| ==>
               Gap(t.events, 0, i) in Steps(melodic))
  {
    var rule := Rule(-stray, stray, scale, None);
    BuiltShape(header, times, TableOf(melodic), rule, 0, offset, draws);
    ComposedEvents(Built(header, times, TableOf(melodic), rule, 0, offset, draws).value.events,
                   times, stray, scale, melodic, offset);
  }

  lemma ComposedEvents(events: seq<Note>, times: seq<int>, stray: int, scale: Scale, melodic: seq<Interval>,
                       offset: int)
    requires scale.period > 0
    requires |events| == |times|
    requires forall i :: 0 < i < |events| ==>
               events[i].time == times[i] &&
               Score(Rule(-stray, stray, scale, None), times[i], events[i].pitch - offset) == Ok(true)
    requires forall i {:trigger Gap(events, 0, i)} :: 0 < i < |events| ==>
               Gap(events, 0, i) in TableOf(melodic).buckets.Values
    ensures forall i :: 0 < i < |events| ==>
              -stray <= events[i].pitch - offset <= stray && Contains(scale, events[i].pitch - offset)
    ensures forall i {:trigger Gap(events, 0, i)} :: 0 < i < |events| ==> Gap(events, 0, i) in Steps(melodic)
  {
    forall i | 0 < i < |events|
      ensures -stray <= events[i].pitch - offset <= stray && Contains(scale, events[i].pitch - offset)
      ensures Gap(events, 0, i) in Steps(melodic)
    {
      ComposedNote(stray, scale, melodic, offset, times[i], events, i);
    }
  }

  lemma ComposedNote(stray: int, scale: Scale, melodic: seq<Interval>, offset: int, time: int,
                     events: seq<Note>, i: int)
    requires scale.period > 0
    requires 0 < i < |events|
    requires Score(Rule(-stray, stray, scale, None), time, events[i].pitch - offset) == Ok(true)
    requires Gap(events, 0, i) in TableOf(melodic).buckets.Values
    ensures -stray <= events[i].pitch - offset <= stray && Contains(scale, events[i].pitch - offset)
    ensures Gap(events, 0, i) in Steps(melodic)
  {
    ScoreAccepts(Rule(-stray, stray, scale, None), time, events[i].pitch - offset);
    TableValues(melodic, Gap(events, 0, i));
  }

  /** A built track is well formed when the note times are increasing and lie
      in [0, header): the first note sits at 0, the others at those times. */
  lemma BuiltWellFormed(header: int, times: seq<int>, d: WeightTable, rule: Rule, first: int, offset: int,
                        draws: seq<int>)
    requires rule.scale.period > 0
    requires Built(header, times, d, rule, first, offset, draws).Ok?
    requires header > 0 && StrictlyIncreasing(times)
    requires forall k :: 0 <= k < |times| ==> 0 <= times[k] < header
    ensures WellFormed(Built(header, times, d, rule, first, offset, draws).value)
  {
    BuiltShape(header, times, d, rule, first, offset, draws);
    var t := Built(header, times, d, rule, first, offset, draws).value;
    forall i, j | 0 <= i < j < |t.events|
      ensures t.events[i].time < t.events[j].time
    {
      assert times[i] < times[j];
    }
  }

  /** With a beat of at least 2 the note times of a track with one or more
      beats increase and lie in [0, length * measure). */
  lemma BeatTimesFit(measure: int, beat: int, sync: int, length: int, flips: seq<int>)
    requires beat >= 2
    requires |flips| == BeatCount(measure, beat, length) > 0
    ensures length * measure > 0 && StrictlyIncreasing(Times(beat, sync, flips))
    ensures forall k :: 0 <= k < |Times(beat, sync, flips)| ==> 0 <= Times(beat, sync, flips)[k] < length * measure
  {
    var q := FloorDiv(length * measure, beat);
    MulAtLeast(q, beat);
    assert length * measure >= beat * q;
    TimesIncreasing(beat, sync, flips);
    TimesBounds(beat, sync, flips);
  }

  /** compose returns a well-formed track whenever it succeeds with a beat of
      at least 2 (with beat 1, beat // 2 is 0 and a split beat repeats a
      time). */
  lemma ComposeWellFormed(measure: int, beat: int, sync: int, length: int, stray: int, scale: Scale,
                          melodic: seq<Interval>, offset: int, flips: seq<int>, draws: seq<int>)
    requires beat >= 2
    requires scale.period > 0
    requires |flips| == BeatCount(measure, beat, length)
    requires ComposeResult(measure, beat, sync, length, stray, scale, melodic, offset, flips, draws).Ok?
    ensures WellFormed(ComposeResult(measure, beat, sync, length, stray, scale, melodic, offset, flips, draws).value)
  {
    var times := Times(beat, sync, flips);
    assert ComposeResult(measure, beat, sync, length, stray, scale, melodic, offset, flips, draws) ==
           Built(length * measure, times, TableOf(melodic), Rule(-stray, stray, scale, None), 0, offset, draws);
    assert times != [];
    BeatTimesFit(measure, beat, sync, length, flips);
    BuiltWellFormed(length * measure, times, TableOf(melodic), Rule(-stray, stray, scale, None), 0, offset, draws);
  }

  /** compose fails for want of note times exactly when mktimes has no beat
      (length * measure // beat <= 0); otherwise it fails only when the draws
      run out, or, for a table whose total weight is negative, when randint
      has an empty range. */
  lemma ComposeFailures(measure: int, beat: int, sync: int, length: int, stray: int, scale: Scale,
                        melodic: seq<Interval>, offset: int, flips: seq<int>, draws: seq<int>)
    requires beat != 0
    requires scale.period > 0
    requires |flips| == BeatCount(measure, beat, length)
    requires DrawsInRange(melodic, draws)
    requires |melodic| > 0
    ensures var r := ComposeResult(measure, beat, sync, length, stray, scale, melodic, offset, flips, draws);
            (r == Err(NoNoteTimes) <==> BeatCount(measure, beat, length) == 0) &&
            (r.Err? ==> r.failure in {NoNoteTimes, EmptyRange, DrawsExhausted})
  {
    TimesCount(beat, sync, flips);
    var times := Times(beat, sync, flips);
    if times != [] {
      var d := TableOf(melodic);
      var rule := Rule(-stray, stray, scale, None);
      if Walk(d, rule, times[1..], 0, draws).Err? {
        BucketsOfFacts(melodic, |melodic|);
        assert Cumulative(melodic, 0) == 0;
        assert 0 in BucketStarts(melodic, |melodic|);
        WithinMeaning(draws, d.max);
        WalkFailures(d, rule, times[1..], 0, draws);
      }
    }
  }


  /** counterpoint's new track, given the flips and draws: header
      length * measure, a first note (0, start), then the walk within stray
      of start, scored against the looped sheet. */
  function CounterpointResult(sheet: seq<Track>, start: int, measure: int, beat: int, sync: int, length: int,
                              stray: int, dissonance: int, scale: Scale, melodic: seq<Interval>,
                              harmonic: seq<int>, flips: seq<int>, draws: seq<int>): Result<Track>
    requires scale.period > 0
    requires forall i :: 0 <= i < |sheet| ==> Loopable(sheet[i], measure * length)
  {
    var harmony := Harmony(LoopedSheet(sheet, measure * length), dissonance, harmonic);
    Built(length * measure, Times(beat, sync, flips), TableOf(melodic),
          Rule(start - stray, start + stray, scale, Some(harmony)), start, 0, draws)
  }

  /** counterpoint up to the final append: loop every track of the sheet,
      then walk from (0, start). Looping needs a positive target, tracks of
      positive length and an event at or before the target (otherwise the
      source loops forever or fails on the header). */
  method CounterpointTrack(sheet: seq<Track>, start: int, measure: int, beat: int, sync: int, length: int,
                           stray: int, dissonance: int, scale: Scale, melodic: seq<Interval>,
                           harmonic: seq<int>, flips: seq<int>, draws: seq<int>) returns (r: Result<Track>)
    requires beat != 0
    requires scale.period > 0
    requires forall i :: 0 <= i < |sheet| ==> Loopable(sheet[i], measure * length)
    requires |flips| == BeatCount(measure, beat, length)
    requires DrawsInRange(melodic, draws)
    ensures r == CounterpointResult(sheet, start, measure, beat, sync, length, stray, dissonance,
                                    scale, melodic, harmonic, flips, draws)
  {
    var d := Melodic2Wrand(melodic);
    var track := new MutableTrack(length * measure, [Note(0, start)]);
    ghost var all := LoopedSheet(sheet, measure * length);
    var tsheet: seq<Track> := [];
    for i := 0 to |sheet|
      invariant tsheet == all[..i]
      invariant track.events == [Note(0, start)] && track.length == length * measure
    {
      var looped := Loop(sheet[i], measure * length);
      assert looped == all[i];
      PrefixGrows(all, i);
      tsheet := tsheet + [looped];
    }
    assert tsheet == all;
    var times := MkTimes(measure, beat, sync, length, flips);
    if |times| == 0 {
      return Err(NoNoteTimes);
    }
    times := times[1..];
    var rule := Rule(start - stray, start + stray, scale, Some(Harmony(tsheet, dissonance, harmonic)));
    var failure := AppendWalk(track, d, rule, times, draws);
    if failure.Some? {
      return Err(failure.value);
    }
    TransposedMeaning(track.events, 0);
    assert Transposed(track.events, 0) == track.events;
    r := Ok(track.Value());
  }

  /** counterpoint's promise for the new track: header length * measure,
      first note (0, start), the others at the note times after the first,
      within stray of start, in the scale, and with average dissonance
      against the looped sheet at most `dissonance`. */
  lemma CounterpointShape(sheet: seq<Track>, start: int, measure: int, beat: int, sync: int, length: int,
                          stray: int, dissonance: int, scale: Scale, melodic: seq<Interval>,
                          harmonic: seq<int>, flips: seq<int>, draws: seq<int>)
    requires scale.period > 0
    requires forall i :: 0 <= i < |sheet| ==> Loopable(sheet[i], measure * length)
    requires CounterpointResult(sheet, start, measure, beat, sync, length, stray, dissonance,
                                scale, melodic, harmonic, flips, draws).Ok?
    ensures var t := CounterpointResult(sheet, start, measure, beat, sync, length, stray, dissonance,
                                        scale, melodic, harmonic, flips, draws).value;
            var times := Times(beat, sync, flips);
            var others := LoopedSheet(sheet, measure * length);
            t.length == length * measure &&
            |t.events| == |times| && t.events[0] == Note(0, start) &&
            (forall i :: 0 < i < |t.events| ==>
               t.events[i].time == times[i] &&
               start - stray <= t.events[i].pitch <= start + stray &&
               Contains(scale, t.events[i].pitch) &&
               |others| > 0 && |harmonic| > 0 && AllSounding(others, times[i]) &&
               AvgDissonance(others, times[i], t.events[i].pitch, harmonic) <= dissonance)
  {
    var times := Times(beat, sync, flips);
    var others := LoopedSheet(sheet, measure * length);
    var d := TableOf(melodic);
    var rule := Rule(start - stray, start + stray, scale, Some(Harmony(others, dissonance, harmonic)));
    assert CounterpointResult(sheet, start, measure, beat, sync, length, stray, dissonance,
                              scale, melodic, harmonic, flips, draws) ==
           Built(length * measure, times, d, rule, start, 0, draws);
    CounterpointNotes(length * measure, times, d, others, start, stray, dissonance, scale, harmonic, draws);
  }

  /** CounterpointShape for any header, note times and sheet. */
  lemma CounterpointNotes(header: int, times: seq<int>, d: WeightTable, others: seq<Track>, start: int, stray: int,
                          dissonance: int, scale: Scale, harmonic: seq<int>, draws: seq<int>)
    requires scale.period > 0
    requires Built(header, times, d, Rule(start - stray, start + stray, scale, Some(Harmony(others, dissonance, harmonic))),
                   start, 0, draws).Ok?
    ensures var t := Built(header, times, d,
                           Rule(start - stray, start + stray, scale, Some(Harmony(others, dissonance, harmonic))),
                           start, 0, draws).value;
            t.length == header &&
            |t.events| == |times| && t.events[0] == Note(0, start) &&
            (forall i :: 0 < i < |t.events| ==>
               t.events[i].time == times[i] &&
               start - stray <= t.events[i].pitch <= start + stray &&
               Contains(scale, t.events[i].pitch) &&
               |others| > 0 && |harmonic| > 0 && AllSounding(others, times[i]) &&
               AvgDissonance(others, times[i], t.events[i].pitch, harmonic) <= dissonance)
  {
    var rule := Rule(start - stray, start + stray, scale, Some(Harmony(others, dissonance, harmonic)));
    BuiltShape(header, times, d, rule, start, 0, draws);
    var t := Built(header, times, d, rule, start, 0, draws).value;
    forall i | 0 < i < |t.events|
      ensures start - stray <= t.events[i].pitch <= start + stray && Contains(scale, t.events[i].pitch)
      ensures |others| > 0 && |harmonic| > 0 && AllSounding(others, times[i])
      ensures AvgDissonance(others, times[i], t.events[i].pitch, harmonic) <= dissonance
    {
      ScoreAccepts(rule, times[i], t.events[i].pitch - 0);
    }
  }

  /** counterpoint's new track is well formed whenever it succeeds with a
      beat of at least 2. */
  lemma CounterpointWellFormed(sheet: seq<Track>, start: int, measure: int, beat: int, sync: int, length: int,
                               stray: int, dissonance: int, scale: Scale, melodic: seq<Interval>,
                               harmonic: seq<int>, flips: seq<int>, draws: seq<int>)
    requires beat >= 2
    requires scale.period > 0
    requires forall i :: 0 <= i < |sheet| ==> Loopable(sheet[i], measure * length)
    requires |flips| == BeatCount(measure, beat, length)
    requires CounterpointResult(sheet, start, measure, beat, sync, length, stray, dissonance,
                                scale, melodic, harmonic, flips, draws).Ok?
    ensures WellFormed(CounterpointResult(sheet, start, measure, beat, sync, length, stray, dissonance,
                                          scale, melodic, harmonic, flips, draws).value)
  {
    var times := Times(beat, sync, flips);
    var rule := Rule(start - stray, start + stray, scale,
                     Some(Harmony(LoopedSheet(sheet, measure * length), dissonance, harmonic)));
    assert CounterpointResult(sheet, start, measure, beat, sync, length, stray, dissonance,
                              scale, melodic, harmonic, flips, draws) ==
           Built(length * measure, times, TableOf(melodic), rule, start, 0, draws);
    assert times != [];
    BeatTimesFit(measure, beat, sync, length, flips);
    BuiltWellFormed(length * measure, times, TableOf(melodic), rule, start, 0, draws);
  }

  /** A music sheet: the list of tracks counterpoint appends to. */
  class Sheet {
    var tracks: seq<Track>

    constructor (tracks: seq<Track>)
      ensures this.tracks == tracks
    {
      this.tracks := tracks;
    }
  }

  /** counterpoint: append the new track to the sheet. The sheet changes
      only on success, by exactly one track; the tracks already there are
      left as they were. */
  method Counterpoint(sheet: Sheet, start: int, measure: int, beat: int, sync: int, length: int,
                      stray: int, dissonance: int, scale: Scale, melodic: seq<Interval>,
                      harmonic: seq<int>, flips: seq<int>, draws: seq<int>) returns (failure: Option<Failure>)
    requires beat != 0
    requires scale.period > 0
    requires forall i :: 0 <= i < |sheet.tracks| ==> Loopable(sheet.tracks[i], measure * length)
    requires |flips| == BeatCount(measure, beat, length)
    requires DrawsInRange(melodic, draws)
    modifies sheet
    ensures var r := CounterpointResult(old(sheet.tracks), start, measure, beat, sync, length, stray,
                                        dissonance, scale, melodic, harmonic, flips, draws);
            (failure.None? <==> r.Ok?) &&
            (r.Ok? ==> sheet.tracks == old(sheet.tracks) + [r.value]) &&
            (r.Err? ==> failure == Some(r.failure) && sheet.tracks == old(sheet.tracks))
  {
    var r := CounterpointTrack(sheet.tracks, start, measure, beat, sync, length, stray, dissonance,
                               scale, melodic, harmonic, flips, draws);
    if r.Err? {
      return Some(r.failure);
    }
    sheet.tracks := sheet.tracks + [r.value];
    failure := None;
  }
}
