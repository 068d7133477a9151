/** Cues (Pythoven.py, wavSing): a looped track's absolute event times
    become durations, each event lasting until the next one and the last
    one until the track's length, and its pitches become absolute by adding
    the key's offset from C plus 48. */
module Cues {
  import opened Outcomes
  import opened Tracks
  import opened Looping
  import opened NoteNames

  datatype Cue = Cue(duration: int, pitch: int)

  /** The time event i ends: the next event's time, or the track length
      appended after the last event. */
  function EndTime(t: Track, i: nat): int
    requires i < |t.events|
  {
    if i + 1 < |t.events| then t.events[i + 1].time else t.length
  }

  /** The cue comprehension for one track. */
  function TrackCues(t: Track, offset: int): (r: seq<Cue>)
    ensures |r| == |t.events|
  {
    seq(|t.events|, i requires 0 <= i < |t.events| =>
      Cue(EndTime(t, i) - t.events[i].time, t.events[i].pitch + offset))
  }

  /** The inverse conversion: accumulate durations from a start time and
      subtract the offset again. */
  function Uncue(cues: seq<Cue>, start: int, offset: int): (r: seq<Note>)
    ensures |r| == |cues|
  {
    if cues == [] then []
    else [Note(start, cues[0].pitch - offset)] + Uncue(cues[1..], start + cues[0].duration, offset)
  }

  function TotalDuration(cues: seq<Cue>): int
  {
    if cues == [] then 0 else cues[0].duration + TotalDuration(cues[1..])
  }

  /** Accumulating the durations from event j's time gives back the events
      from j on, and the durations from j on add up to the time left until
      the track's end. */
  lemma {:induction false} CuesFrom(t: Track, offset: int, j: nat)
    requires j < |t.events|
    ensures Uncue(TrackCues(t, offset)[j..], t.events[j].time, offset) == t.events[j..]
    ensures TotalDuration(TrackCues(t, offset)[j..]) == t.length - t.events[j].time
    decreases |t.events| - j
  {
    var c := TrackCues(t, offset);
    if j + 1 < |t.events| {
      CuesFrom(t, offset, j + 1);
      assert c[j..][1..] == c[j + 1..];
      assert t.events[j..] == [t.events[j]] + t.events[j + 1..];
    } else {
      assert c[j..][1..] == [];
      assert t.events[j..] == [t.events[j]];
    }
  }

  /** Round trip: the cues determine the track's events again, given where
      the first one starts. */
  lemma CuesRoundTrip(t: Track, offset: int)
    requires |t.events| > 0
    ensures Uncue(TrackCues(t, offset), t.events[0].time, offset) == t.events
  {
    CuesFrom(t, offset, 0);
    assert TrackCues(t, offset)[0..] == TrackCues(t, offset);
    assert t.events[0..] == t.events;
  }

  /** A well-formed track's cues have positive durations that fill the
      whole track. */
  lemma CuesFillTrack(t: Track, offset: int)
    requires WellFormed(t)
    ensures TotalDuration(TrackCues(t, offset)) == t.length
    ensures forall i :: 0 <= i < |t.events| ==> TrackCues(t, offset)[i].duration > 0
  {
    CuesFrom(t, offset, 0);
    assert TrackCues(t, offset)[0..] == TrackCues(t, offset);
  }

  /** The cues of a track whose times start at 0, increase and reach at most
      its length: no duration is negative, together they fill the length,
      and a duration is 0 exactly for a last event standing at the length. */
  lemma SortedCues(t: Track, offset: int)
    requires |t.events| > 0 && t.events[0].time == 0 && Increasing(t.events)
    requires forall i :: 0 <= i < |t.events| ==> t.events[i].time <= t.length
    ensures TotalDuration(TrackCues(t, offset)) == t.length
    ensures forall i :: 0 <= i < |t.events| ==> TrackCues(t, offset)[i].duration >= 0
    ensures forall i :: 0 <= i < |t.events| ==>
              (TrackCues(t, offset)[i].duration == 0 <==> i == |t.events| - 1 && t.events[i].time == t.length)
  {
    CuesFrom(t, offset, 0);
    assert TrackCues(t, offset)[0..] == TrackCues(t, offset);
  }

  /** The cues wavSing makes from a looped well-formed track: the durations
      are never negative and fill the target length, but the copy loop keeps
      at the target (loop's `>` test) gets a zero-length cue. */
  lemma LoopedCues(t: Track, length: int, offset: int)
    requires WellFormed(t) && length > 0
    ensures Loopable(t, length)
    ensures var u := Looped(t, length);
            TotalDuration(TrackCues(u, offset)) == length &&
            (forall i :: 0 <= i < |u.events| ==> TrackCues(u, offset)[i].duration >= 0) &&
            (forall i :: 0 <= i < |u.events| ==>
               (TrackCues(u, offset)[i].duration == 0 <==> i == |u.events| - 1 && u.events[i].time == length))
  {
    LoopedWithinLength(t, length);
    LoopedStartsWithTrack(t, length);
    SortedCues(Looped(t, length), offset);
  }

  /** The zero-length cue on a small example: a 3-tick track with events at
      0 and 2, looped to 5 ticks, ends with a cue of duration 0. */
  lemma LoopedZeroCue()
    ensures Loopable(Track(3, [Note(0, 0), Note(2, 4)]), 5)
    ensures TrackCues(Looped(Track(3, [Note(0, 0), Note(2, 4)]), 5), 48)[3] == Cue(0, 52)
  {
    LoopKeepsEventAtTarget();
  }

  /** The absolute pitch of the key's C: NOTES.index(key) + 48. */
  function KeyOffset(key: string): (r: Option<int>)
    ensures r.None? <==> key !in Notes
    ensures r.Some? ==> 48 <= r.value < 60 && Notes[r.value - 48] == key
  {
    match KeyIndex(key)
    case None => None
    case Some(k) => Some(k + 48)
  }

  /** wavSing's loop over the looped sheet, appending one cue list per
      track; an unknown key raises ValueError (None). */
  method SheetCues(loopedSheet: seq<Track>, key: string) returns (r: Option<seq<seq<Cue>>>)
    ensures r.None? <==> key !in Notes
    ensures r.Some? ==> |r.value| == |loopedSheet|
    ensures r.Some? ==> forall i :: 0 <= i < |loopedSheet| ==>
              r.value[i] == TrackCues(loopedSheet[i], KeyOffset(key).value)
  {
    var offset := KeyOffset(key);
    if offset.None? {
      return None;
    }
    var cues: seq<seq<Cue>> := [];
    for i := 0 to |loopedSheet|
      invariant |cues| == i
      invariant forall k :: 0 <= k < i ==> cues[k] == TrackCues(loopedSheet[k], offset.value)
    {
      cues := cues + [TrackCues(loopedSheet[i], offset.value)];
    }
    r := Some(cues);
  }
}
