/** Looping tracks (Pythoven.py, loop, and the looping step of sing): a
    track is tiled, each copy delayed by the track's length, until the target
    length is reached, then events past the target are dropped from the end. */
module Looping {
  import opened Arith
  import opened Outcomes
  import opened Tracks

  /** The events with every time delayed by offset. */
  function Delayed(events: seq<Note>, offset: int): seq<Note>
  {
    seq(|events|, i requires 0 <= i < |events| => Note(events[i].time + offset, events[i].pitch))
  }

  /** The copies loop's first while loop appends: one copy delayed by start,
      by start + period, ... for every offset below length. */
  function TileFrom(events: seq<Note>, period: int, start: int, length: int): seq<Note>
    requires period > 0
    decreases length - start
  {
    if start >= length then [] else Delayed(events, start) + TileFrom(events, period, start + period, length)
  }

  /** What loop's second while loop leaves: events are removed from the end
      while the last one lies past limit. The source stops at the first event
      (from the end) at or before limit; the precondition says one exists. */
  function TrimAfter(s: seq<Note>, limit: int): (r: seq<Note>)
    requires Sounding(s, limit)
    ensures 0 < |r| <= |s| && r == s[..|r|]
    ensures r[|r| - 1].time <= limit
    ensures forall j :: |r| <= j < |s| ==> s[j].time > limit
    decreases |s|
  {
    var n := |s|;
    if s[n - 1].time <= limit then s
    else
      var j :| 0 <= j < n && s[j].time <= limit;
      assert s[..n - 1][j] == s[j];
      TrimAfter(s[..n - 1], limit)
  }

  /** The preconditions under which loop returns: a positive track length
      (otherwise the tiling loop never ends), a positive target (otherwise no
      event is tiled and the trimming loop reads the header), and an event at
      or before the target (otherwise trimming reaches the header). */
  predicate Loopable(track: Track, length: int)
  {
    track.length > 0 && length > 0 && Sounding(track.events, length)
  }

  /** The first copy is the track itself. */
  lemma TileStartsWithTrack(events: seq<Note>, period: int, length: int)
    requires period > 0 && length > 0
    ensures TileFrom(events, period, 0, length)[..|events|] == events
  {
    assert Delayed(events, 0) == events;
  }

  /** loop's result, as a value. */
  function Looped(track: Track, length: int): Track
    requires Loopable(track, length)
  {
    var tiled := TileFrom(track.events, track.length, 0, length);
    TileStartsWithTrack(track.events, track.length, length);
    var j :| 0 <= j < |track.events| && track.events[j].time <= length;
    assert tiled[j] == track.events[j];
    Track(length, TrimAfter(tiled, length))
  }

  lemma TileFromStep(events: seq<Note>, period: int, start: int, length: int)
    requires period > 0 && start < length
    ensures TileFrom(events, period, start, length)
            == Delayed(events, start) + TileFrom(events, period, start + period, length)
  {
  }

  /** One pass of the trimming loop does not change where it stops. */
  lemma TrimStep(s: seq<Note>, limit: int)
    requires Sounding(s, limit) && s[|s| - 1].time > limit
    ensures Sounding(s[..|s| - 1], limit)
    ensures TrimAfter(s[..|s| - 1], limit) == TrimAfter(s, limit)
  {
    var j :| 0 <= j < |s| && s[j].time <= limit;
    assert s[..|s| - 1][j] == s[j];
  }

  lemma LoopedIsTrimmedTile(track: Track, length: int)
    requires Loopable(track, length)
    ensures Sounding(TileFrom(track.events, track.length, 0, length), length)
    ensures Looped(track, length).events == TrimAfter(TileFrom(track.events, track.length, 0, length), length)
  {
    TileStartsWithTrack(track.events, track.length, length);
    var j :| 0 <= j < |track.events| && track.events[j].time <= length;
    assert TileFrom(track.events, track.length, 0, length)[j] == track.events[j];
  }

  /** loop: extend a new list with delayed copies while the offset is below
      the target, then delete trailing events past the target. */
  method Loop(track: Track, length: int) returns (r: Track)
    requires Loopable(track, length)
    ensures r == Looped(track, length)
  {
    var newEvents: seq<Note> := [];
    var i := 0;
    while i < length
      invariant newEvents + TileFrom(track.events, track.length, i, length)
                == TileFrom(track.events, track.length, 0, length)
      decreases length - i
    {
      TileFromStep(track.events, track.length, i, length);
      newEvents := newEvents + Delayed(track.events, i);
      i := i + track.length;
    }
    assert TileFrom(track.events, track.length, i, length) == [];
    assert newEvents == TileFrom(track.events, track.length, 0, length);
    ghost var tiled := newEvents;
    LoopedIsTrimmedTile(track, length);
    while newEvents[|newEvents| - 1].time > length
      invariant Sounding(newEvents, length)
      invariant TrimAfter(newEvents, length) == TrimAfter(tiled, length)
      decreases |newEvents|
    {
      TrimStep(newEvents, length);
      newEvents := newEvents[..|newEvents| - 1];
    }
    assert TrimAfter(newEvents, length) == newEvents;
    r := Track(length, newEvents);
  }

  /** Every looped event is an original event delayed by a whole number of
      track lengths: event m is copy m / n of event m % n (n events per copy). */
  lemma {:induction false} TileFromAt(events: seq<Note>, period: int, start: int, length: int, m: int)
    requires period > 0
    requires 0 <= m < |TileFrom(events, period, start, length)|
    ensures |events| > 0
    ensures TileFrom(events, period, start, length)[m] ==
              Note(events[m % |events|].time + start + (m / |events|) * period, events[m % |events|].pitch)
    decreases length - start
  {
    var n := |events|;
    var s := TileFrom(events, period, start, length);
    assert start < length;
    if m < n {
      DivModUnique(m, n, 0, m);
    } else {
      TileFromAt(events, period, start + period, length, m - n);
      DivModUnique(m, n, (m - n) / n + 1, (m - n) % n);
      assert ((m - n) / n + 1) * period == (m - n) / n * period + period;
    }
  }

  lemma LoopedEventAt(track: Track, length: int, m: int)
    requires Loopable(track, length)
    requires 0 <= m < |Looped(track, length).events|
    ensures var n := |track.events|;
            Looped(track, length).events[m] ==
              Note(track.events[m % n].time + (m / n) * track.length, track.events[m % n].pitch)
  {
    TileFromAt(track.events, track.length, 0, length, m);
  }

  /** Tiling a well-formed track gives increasing times, all at or after the
      first offset. */
  lemma {:induction false} TileSorted(t: Track, start: int, length: int)
    requires WellFormed(t)
    ensures Increasing(TileFrom(t.events, t.length, start, length))
    ensures forall i :: 0 <= i < |TileFrom(t.events, t.length, start, length)| ==>
              start <= TileFrom(t.events, t.length, start, length)[i].time
    decreases length - start
  {
    if start < length {
      TileSorted(t, start + t.length, length);
      var d := Delayed(t.events, start);
      var rest := TileFrom(t.events, t.length, start + t.length, length);
      var s := TileFrom(t.events, t.length, start, length);
      assert s == d + rest;
      assert forall i :: 0 <= i < |d| ==> start <= d[i].time < start + t.length;
      forall i, j | 0 <= i < j < |s|
        ensures s[i].time < s[j].time
      {
        if j < |d| {
        } else if i < |d| {
          assert s[j] == rest[j - |d|];
        } else {
          assert s[i] == rest[i - |d|] && s[j] == rest[j - |d|];
        }
      }
      forall i | 0 <= i < |s|
        ensures start <= s[i].time
      {
        if i >= |d| {
          assert s[i] == rest[i - |d|];
        }
      }
    }
  }

  /** loop's promise for well-formed tracks: the header is the target, no
      event lies past it, and the times still increase. An event exactly at
      the target is kept (the trimming loop tests `>`). */
  lemma LoopedWithinLength(t: Track, length: int)
    requires WellFormed(t) && length > 0
    ensures Loopable(t, length)
    ensures Looped(t, length).length == length
    ensures forall i :: 0 <= i < |Looped(t, length).events| ==> Looped(t, length).events[i].time <= length
    ensures Increasing(Looped(t, length).events)
  {
    assert t.events[0].time <= length;
    TileSorted(t, 0, length);
    var s := TileFrom(t.events, t.length, 0, length);
    var r := Looped(t, length).events;
    assert r == s[..|r|];
    assert r[|r| - 1].time <= length;
    forall i | 0 <= i < |r|
      ensures r[i].time <= length
    {
      assert r[i] == s[i] && r[|r| - 1] == s[|r| - 1];
    }
    forall i, j | 0 <= i < j < |r|
      ensures r[i].time < r[j].time
    {
      assert r[i] == s[i] && r[j] == s[j];
    }
  }

  /** The looped track still starts with the track's first event. */
  lemma LoopedStartsWithTrack(t: Track, length: int)
    requires Loopable(t, length) && |t.events| > 0 && t.events[0].time <= length
    ensures Looped(t, length).events[0] == t.events[0]
  {
    LoopedIsTrimmedTile(t, length);
    TileStartsWithTrack(t.events, t.length, length);
    var s := TileFrom(t.events, t.length, 0, length);
    var r := Looped(t, length).events;
    assert r == s[..|r|] && s[..|t.events|] == t.events;
    assert r[0] == s[0];
  }

  /** Tiling from copy j up to copy k of a track whose times lie below
      its length gives (k - j) copies, all of them before k * length. */
  lemma {:induction false} TileCount(t: Track, j: nat, k: nat)
    requires t.length > 0 && forall i :: 0 <= i < |t.events| ==> t.events[i].time < t.length
    requires j <= k
    ensures |TileFrom(t.events, t.length, j * t.length, k * t.length)| == (k - j) * |t.events|
    ensures forall i :: 0 <= i < |TileFrom(t.events, t.length, j * t.length, k * t.length)| ==>
              TileFrom(t.events, t.length, j * t.length, k * t.length)[i].time < k * t.length
    decreases k - j
  {
    var p := t.length;
    if j < k {
      MulMonotone(j + 1, k, p);
      assert (j + 1) * p == j * p + p;
      TileCount(t, j + 1, k);
      assert (k - j) * |t.events| == (k - (j + 1)) * |t.events| + |t.events|;
    } else {
      assert j * p == k * p;
    }
  }

  /** Looping to a whole number k of track lengths gives k times as many
      events, all kept. */
  lemma LoopedMultiple(t: Track, k: nat)
    requires t.length > 0 && |t.events| > 0 && k > 0
    requires forall i :: 0 <= i < |t.events| ==> t.events[i].time < t.length
    ensures Loopable(t, k * t.length)
    ensures |Looped(t, k * t.length).events| == k * |t.events|
  {
    MulAtLeast(k, t.length);
    TileCount(t, 0, k);
    var s := TileFrom(t.events, t.length, 0, k * t.length);
    assert TileFrom(t.events, t.length, 0 * t.length, k * t.length) == s;
    assert t.events[0].time <= k * t.length;
  }

  /** The quirk of the `>` test, on a small example: a 3-tick track with
      events at 0 and 2, looped to 5 ticks, keeps the copy at tick 5. */
  lemma LoopKeepsEventAtTarget()
    ensures Loopable(Track(3, [Note(0, 0), Note(2, 4)]), 5)
    ensures Looped(Track(3, [Note(0, 0), Note(2, 4)]), 5).events ==
              [Note(0, 0), Note(2, 4), Note(3, 0), Note(5, 4)]
  {
    var t := Track(3, [Note(0, 0), Note(2, 4)]);
    assert t.events[0].time <= 5;
    assert TileFrom(t.events, 3, 6, 5) == [];
    assert TileFrom(t.events, 3, 3, 5) == [Note(3, 0), Note(5, 4)];
    assert TileFrom(t.events, 3, 0, 5) == [Note(0, 0), Note(2, 4), Note(3, 0), Note(5, 4)];
  }

  /** max(lens) in sing: the greatest track length of a non-empty sheet. */
  function MaxLength(sheet: seq<Track>): (m: int)
    requires |sheet| > 0
    ensures forall i :: 0 <= i < |sheet| ==> sheet[i].length <= m
    ensures exists i :: 0 <= i < |sheet| && sheet[i].length == m
  {
    if |sheet| == 1 then sheet[0].length
    else
      var rest := MaxLength(sheet[1..]);
      if sheet[0].length >= rest then sheet[0].length else rest
  }

  /** Every track of a sheet looped to one length. */
  function LoopedSheet(sheet: seq<Track>, length: int): (r: seq<Track>)
    requires forall i :: 0 <= i < |sheet| ==> Loopable(sheet[i], length)
    ensures |r| == |sheet|
    ensures forall i :: 0 <= i < |sheet| ==> r[i].length == length
  {
    seq(|sheet|, i requires 0 <= i < |sheet| => Looped(sheet[i], length))
  }

  /** One more element of a prefix. */
  lemma PrefixGrows<T>(s: seq<T>, i: nat)
    requires i < |s|
    ensures s[..i + 1] == s[..i] + [s[i]]
  {
  }

  /** sing's looping step: every track is looped to the greatest track
      length. `max` of an empty list raises ValueError (None here). */
  method LoopSheet(sheet: seq<Track>) returns (r: Option<seq<Track>>)
    requires sheet != [] ==> forall i :: 0 <= i < |sheet| ==> Loopable(sheet[i], MaxLength(sheet))
    ensures r.None? <==> sheet == []
    ensures r.Some? ==> |r.value| == |sheet|
    ensures r.Some? ==> forall i :: 0 <= i < |sheet| ==>
              Loopable(sheet[i], MaxLength(sheet)) && r.value[i] == Looped(sheet[i], MaxLength(sheet))
    ensures r.Some? ==> forall i :: 0 <= i < |sheet| ==> r.value[i].length == MaxLength(sheet)
  {
    if sheet == [] {
      return None;
    }
    var length := MaxLength(sheet);
    ghost var all := LoopedSheet(sheet, length);
    var looped: seq<Track> := [];
    for i := 0 to |sheet|
      invariant looped == all[..i]
    {
      var t := Loop(sheet[i], length);
      assert t == all[i];
      PrefixGrows(all, i);
      looped := looped + [t];
    }
    assert looped == all;
    r := Some(looped);
  }
}
