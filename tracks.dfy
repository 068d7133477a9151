/** Tracks and the per-note operations of Pythoven.py: a track is a length
    (its first list element) followed by (time, pitch) events; shift
    transposes one in place, getLastNote finds the note sounding at a time,
    and avgdissonance scores a pitch against the notes of a whole sheet. */
module Tracks {
  import opened Arith

  /** One event: a time in ticks and a pitch in half-steps from the key. */
  datatype Note = Note(time: int, pitch: int)

  /** A track: its total length in ticks and its events. */
  datatype Track = Track(length: int, events: seq<Note>)

  /** Event times strictly increase along the list. */
  predicate Increasing(s: seq<Note>)
  {
    forall i, j :: 0 <= i < j < |s| ==> s[i].time < s[j].time
  }

  /** A well-formed track: a positive length, an anchor event at time 0,
      strictly increasing times, all below the length. compose and
      counterpoint produce one when the beat is at least 2 and they succeed
      (Composer.ComposeWellFormed, Composer.CounterpointWellFormed); with
      beat 1 and a split beat the off-beat repeats the on-beat's time. */
  predicate WellFormed(t: Track)
  {
    && t.length > 0
    && |t.events| > 0
    && t.events[0].time == 0
    && Increasing(t.events)
    && (forall i :: 0 <= i < |t.events| ==> 0 <= t.events[i].time < t.length)
  }

  /** A track list that the source rewrites in place (shift), or appends to
      while it is being built (compose, counterpoint). */
  class MutableTrack {
    var length: int
    var events: seq<Note>

    constructor (length: int, events: seq<Note>)
      ensures this.length == length && this.events == events
    {
      this.length := length;
      this.events := events;
    }

    function Value(): Track
      reads this
    {
      Track(length, events)
    }
  }

  /** The events with every pitch moved by the same number of half-steps. */
  function Transposed(events: seq<Note>, halfsteps: int): seq<Note>
  {
    seq(|events|, i requires 0 <= i < |events| => Note(events[i].time, events[i].pitch + halfsteps))
  }

  /** shift: rewrite every event of the track, in place, with its pitch moved
      by halfsteps; the length header is not touched. */
  method Shift(track: MutableTrack, halfsteps: int)
    modifies track
    ensures track.length == old(track.length)
    ensures track.events == Transposed(old(track.events), halfsteps)
  {
    var i := 0;
    while i < |track.events|
      invariant 0 <= i <= |track.events| == |old(track.events)|
      invariant track.length == old(track.length)
      invariant forall k :: 0 <= k < i ==>
                  track.events[k] == Note(old(track.events)[k].time, old(track.events)[k].pitch + halfsteps)
      invariant forall k :: i <= k < |track.events| ==> track.events[k] == old(track.events)[k]
    {
      var note := track.events[i];
      track.events := track.events[i := Note(note.time, note.pitch + halfsteps)];
      i := i + 1;
    }
  }

  /** Transposing keeps the number of events and every time, moves every
      pitch by the same amount, and is undone by the opposite shift. */
  lemma TransposedMeaning(events: seq<Note>, halfsteps: int)
    ensures |Transposed(events, halfsteps)| == |events|
    ensures forall i :: 0 <= i < |events| ==>
              Transposed(events, halfsteps)[i].time == events[i].time &&
              Transposed(events, halfsteps)[i].pitch == events[i].pitch + halfsteps
    ensures Transposed(Transposed(events, halfsteps), -halfsteps) == events
  {
  }

  /** Two shifts make one: shifting by a, then by b, is shifting by a + b. */
  lemma TransposedAdds(events: seq<Note>, a: int, b: int)
    ensures Transposed(Transposed(events, a), b) == Transposed(events, a + b)
  {
  }

  /** wrap: index a list modulo its length (Python's % on a positive length
      is Euclidean, as Dafny's). */
  function Wrap(li: seq<int>, i: int): (r: int)
    requires |li| > 0
    ensures r in li
    ensures 0 <= i < |li| ==> r == li[i]
  {
    if 0 <= i < |li| then DivModUnique(i, |li|, 0, i); li[i % |li|] else li[i % |li|]
  }

  /** wrap is periodic in the index. */
  lemma WrapPeriodic(li: seq<int>, i: int)
    requires |li| > 0
    ensures Wrap(li, i + |li|) == Wrap(li, i)
    ensures Wrap(li, i - |li|) == Wrap(li, i)
  {
    ModShift(i, 1, |li|);
    ModShift(i, -1, |li|);
  }

  /** Some event has started by the given time. */
  predicate Sounding(events: seq<Note>, position: int)
  {
    exists j :: 0 <= j < |events| && events[j].time <= position
  }

  /** The index of the last event, in list order, whose time is at most
      position. */
  function LastAtOrBefore(events: seq<Note>, position: int): (k: int)
    requires Sounding(events, position)
    ensures 0 <= k < |events|
    ensures events[k].time <= position
    ensures forall j :: k < j < |events| ==> events[j].time > position
    decreases |events|
  {
    var n := |events|;
    if events[n - 1].time <= position then n - 1
    else
      var j :| 0 <= j < n && events[j].time <= position;
      assert events[..n - 1][j] == events[j];
      LastAtOrBefore(events[..n - 1], position)
  }

  /** getLastNote: the last event at or before position (the note still
      sounding then). The source raises an IndexError when no event has
      started by position; the precondition excludes that. */
  function GetLastNote(track: Track, position: int): (n: Note)
    requires Sounding(track.events, position)
    ensures n in track.events && n.time <= position
  {
    track.events[LastAtOrBefore(track.events, position)]
  }

  /** In a well-formed track, the note sounding at any non-negative time is
      defined, and is the event at time t itself when one exists. */
  lemma LastNoteOfWellFormed(t: Track, position: int, i: int)
    requires WellFormed(t)
    requires 0 <= position
    requires 0 <= i < |t.events| && t.events[i].time == position
    ensures Sounding(t.events, position)
    ensures GetLastNote(t, position) == t.events[i]
  {
    var k := LastAtOrBefore(t.events, position);
  }

  const HarmonicInterval: seq<int> := [0, 10, 8, 3, 2, 1, 8, 1, 2, 3, 7, 9]

  function Abs(x: int): int
  {
    if x < 0 then -x else x
  }

  predicate AllSounding(sheet: seq<Track>, time: int)
  {
    sheet == [] || (Sounding(sheet[0].events, time) && AllSounding(sheet[1..], time))
  }

  /** Every track of the sheet has a note at or before the time. */
  lemma {:induction false} AllSoundingMeaning(sheet: seq<Track>, time: int)
    ensures AllSounding(sheet, time) <==> forall i :: 0 <= i < |sheet| ==> Sounding(sheet[i].events, time)
  {
    if sheet != [] {
      AllSoundingMeaning(sheet[1..], time);
      assert forall i :: 1 <= i < |sheet| ==> sheet[i] == sheet[1..][i - 1];
    }
  }

  /** The harmonic dissonance between a pitch and the note a track is
      sounding at time. */
  function Dissonance(track: Track, time: int, mainnote: int, harmonic: seq<int>): int
    requires |harmonic| > 0
    requires Sounding(track.events, time)
  {
    Wrap(harmonic, Abs(GetLastNote(track, time).pitch - mainnote))
  }

  /** The sum in avgdissonance, over the tracks of a sheet. */
  function TotalDissonance(sheet: seq<Track>, time: int, mainnote: int, harmonic: seq<int>): int
    requires |harmonic| > 0
    requires AllSounding(sheet, time)
  {
    if sheet == [] then 0
    else Dissonance(sheet[0], time, mainnote, harmonic) + TotalDissonance(sheet[1..], time, mainnote, harmonic)
  }

  /** avgdissonance: the floor of the mean dissonance of a pitch against the
      note each track of the sheet is sounding at time. The source divides by
      the number of tracks, so an empty sheet raises ZeroDivisionError. */
  function AvgDissonance(sheet: seq<Track>, time: int, mainnote: int, harmonic: seq<int>): (r: int)
    requires |sheet| > 0 && |harmonic| > 0
    requires AllSounding(sheet, time)
    ensures r * |sheet| <= TotalDissonance(sheet, time, mainnote, harmonic) < (r + 1) * |sheet|
  {
    TotalDissonance(sheet, time, mainnote, harmonic) / |sheet|
  }

  /** Each term of the sum lies in the harmonic table's range. */
  lemma {:induction false} TotalDissonanceBounds(sheet: seq<Track>, time: int, mainnote: int, harmonic: seq<int>, lo: int, hi: int)
    requires |harmonic| > 0
    requires AllSounding(sheet, time)
    requires forall i :: 0 <= i < |harmonic| ==> lo <= harmonic[i] <= hi
    ensures |sheet| * lo <= TotalDissonance(sheet, time, mainnote, harmonic) <= |sheet| * hi
  {
    if sheet != [] {
      TotalDissonanceBounds(sheet[1..], time, mainnote, harmonic, lo, hi);
      assert |sheet| * lo == (|sheet| - 1) * lo + lo;
      assert |sheet| * hi == (|sheet| - 1) * hi + hi;
    }
  }

  /** The mean stays within the table's range: with the source's harmonic
      table, within [0, 10]. */
  lemma AvgDissonanceBounds(sheet: seq<Track>, time: int, mainnote: int, harmonic: seq<int>, lo: int, hi: int)
    requires |sheet| > 0 && |harmonic| > 0
    requires AllSounding(sheet, time)
    requires forall i :: 0 <= i < |harmonic| ==> lo <= harmonic[i] <= hi
    ensures lo <= AvgDissonance(sheet, time, mainnote, harmonic) <= hi
  {
    var n := |sheet|;
    var r := AvgDissonance(sheet, time, mainnote, harmonic);
    TotalDissonanceBounds(sheet, time, mainnote, harmonic, lo, hi);
    assert (hi + 1) * n == n * hi + n;
    if r > hi {
      MulMonotone(hi + 1, r, n);
    }
    if r < lo {
      MulMonotone(r + 1, lo, n);
    }
  }

  lemma HarmonicIntervalRange(sheet: seq<Track>, time: int, mainnote: int)
    requires |sheet| > 0 && AllSounding(sheet, time)
    ensures forall i :: 0 <= i < |HarmonicInterval| ==> 0 <= HarmonicInterval[i] <= 10
    ensures 0 <= AvgDissonance(sheet, time, mainnote, HarmonicInterval) <= 10
  {
    AvgDissonanceBounds(sheet, time, mainnote, HarmonicInterval, 0, 10);
  }
}
