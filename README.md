# Pythoven, modelled in Dafny

Pythoven writes music. A track is a length in ticks followed by
`(time, pitch)` events, with pitches counted in half-steps from the key. A
sheet is a list of tracks. `compose` makes a melody by a random walk over a
scale. `counterpoint` adds a track that also avoids dissonance against the
tracks already on the sheet. `sing` loops every track to the longest one and
turns the tracks into cues: (duration, absolute pitch) pairs that are
synthesized into 16-bit sample buffers and mixed.

This project models the composition core of `Pythoven.py` and the buffer
logic of `Waves.py`, and proves the properties those functions promise.

- `Scales`: `makeScale` (prefix sums of a step pattern), the named scales, and
  `inScale` (the reduction loops, in closed form as `Reduce`/`Contains`).
- `Sampler`: `melodic2wrand` (cumulative buckets) and `wrand` (downward scan
  to the nearest key). The random draw is a parameter.
- `Timing`: `mktimes`. The coin flips (one `randint(0, 100)` per beat) are a
  parameter.
- `Tracks`: the track value, `shift` on a mutable track, `wrap`,
  `getLastNote` and `avgdissonance`.
- `Looping`: `loop`, and the max-length-then-loop step of `sing`.
- `NoteNames`: `noteString`, with a parser that reads labels back.
- `Cues`: the cue conversion of `wavSing`, with its inverse.
- `Composer`: `compose` and `counterpoint`. These are random walks with
  rejection sampling, modelled on a finite sequence of draws. A `Sheet` class
  holds the list that `counterpoint` appends to.
- `Waves`: `limit`, `initArray`, `mergeWaves` (both arguments extended in
  place), the `cachedWaveGen` cache with the synthesizers as a parameter, and
  the tile and fade steps of `sineWave`.

The model keeps the code's behaviour at its edges, including the cases
below.

- `inScale` reduces a pitch into `[0, period]`, so a positive multiple of the
  period is reported as out of the scale (`Scales.MajorQuirk`). So `inScale`
  is not periodic: pitch 0 is in the major scale but 12 is not.
- `loop` keeps an event that falls exactly at the target length
  (`Looping.LoopKeepsEventAtTarget`). The cue of such an event has duration 0
  (`Cues.LoopedZeroCue`).
- `mergeWaves` pads both of its arguments.
- Mixing with per-pair clamping is not associative
  (`Waves.MixedNotAssociative`).
- A track from `compose` or `counterpoint` is guaranteed strictly
  increasing times when the beat is at least 2
  (`Composer.ComposeWellFormed`, `Composer.CounterpointWellFormed`). With
  beat 1, `beat // 2` is 0, so a split beat repeats its time.

## Model

| member | source | states |
|---|---|---|
| Scales.MakeScale | Pythoven.py:42-53 | one offset per step; the offsets are the prefix sums of the steps and the period is their sum |
| Scales.ScaleFromPositiveSteps | Pythoven.py:48-53 | with positive steps the offsets start at 0, strictly increase and all lie in [0, period) |
| Scales.NamedScalesMatchSteps | Pythoven.py:60-66 | each named scale constant is makeScale of its step pattern |
| Scales.ReduceFacts | Pythoven.py:160-164 | the reduced pitch lies in [0, period], is congruent to the pitch, equals the period exactly for positive multiples of it, and is the pitch itself on [0, period] |
| Scales.InScale | Pythoven.py:154-165 | the two reduction loops answer exactly Contains(scale, note), the closed form |
| Scales.ContainsByModulo | Pythoven.py:160-165 | membership is the offset test of note mod period, except at positive multiples of the period, where the period itself is tested |
| Scales.ContainsPeriodicOnEachSide | Pythoven.py:160-165 | adding one period keeps the answer while the pitch stays positive, or stays at most 0 |
| Scales.PositiveMultiplesLeaveScale | Pythoven.py:163 | for a scale with 0 and all offsets below the period: 0 and -period are in it, no positive multiple of the period is |
| Scales.MajorQuirk | Pythoven.py:163 | inScale(0) and inScale(-12) hold in the major scale; inScale(12) and inScale(24) do not |
| Sampler.Melodic2Wrand | Pythoven.py:176-185 | the loop builds TableOf(melodic): every row's interval under its cumulative weight, and max is the total |
| Sampler.TableOfBuiltFrom | Pythoven.py:179-185 | the keys are exactly the cumulative sums of 10 - freq from 0, every value is an interval of the table, max is the total weight, and with positive weights key k holds row k's interval |
| Sampler.CumulativeGrows | Pythoven.py:183 | with positive weights the bucket starts strictly increase |
| Sampler.Wrand | Pythoven.py:167-174 | the downward scan returns Lookup(buckets, draw) |
| Sampler.LookupFacts | Pythoven.py:172-174 | the scan finds the greatest key in [0, draw]; with no such key it reads key -1, a KeyError unless -1 is a key; with key 0 present it always succeeds; every result is a value of the table |
| Sampler.WrandPicksBucket | Pythoven.py:171-174 | with positive weights, a draw in row k's bucket [Cumulative(k), Cumulative(k+1)) returns row k's interval |
| Sampler.BucketOf | Pythoven.py:171-174 | with positive weights every draw from 0 up lies in some row's bucket, the last bucket reaching up to max |
| Sampler.BucketUnique | Pythoven.py:171-174 | with positive weights no draw lies in two rows' buckets, so the row wrand picks is the only one holding the draw |
| Sampler.WrandEnds | Pythoven.py:171-174 | draw 0 gives the first interval of the table and draw max gives the last |
| Sampler.MelodicIntervalTable | Pythoven.py:77-81 | all 25 weights of the source's table are positive |
| Timing.FloorDiv | Pythoven.py:195 | Python's `//`: the quotient rounded toward negative infinity, for either sign of divisor |
| Timing.BeatCount | Pythoven.py:195 | the number of beats is length * measure // beat, and 0 when that is negative |
| Timing.MkTimes | Pythoven.py:187-199 | the loop returns Times(beat, sync, flips): per beat, i * beat, then i * beat + beat // 2 when its flip is below sync |
| Timing.TimesMembers | Pythoven.py:194-199 | a time occurs iff it is some beat's on-beat, or the off-beat of a beat whose flip fell below sync |
| Timing.TimesStartAtZero | Pythoven.py:196 | with at least one beat the list starts with 0 |
| Timing.TimesCount | Pythoven.py:194-199 | the list has one entry per beat plus one per split beat |
| Timing.UnsyncopatedCount | Pythoven.py:197 | with sync = 0 and flips from randint(0, 100) there are exactly length * measure // beat entries |
| Timing.TimesBounds | Pythoven.py:196-198 | for a positive beat every time lies in [0, beats * beat) |
| Timing.TimesIncreasing | Pythoven.py:196-198 | with beat >= 2 the times strictly increase |
| Tracks.Shift | Pythoven.py:226-233 | shift rewrites the events in place to Transposed(old events, halfsteps) and keeps the header |
| Tracks.TransposedMeaning | Pythoven.py:231-233 | shifting keeps the event count and every time, adds halfsteps to every pitch, and is undone by the opposite shift |
| Tracks.TransposedAdds | Pythoven.py:231-233 | shifting by a and then by b is shifting by a + b |
| Tracks.Wrap | Pythoven.py:147-152 | wrap returns an element of the list, and list[i] itself for an index in range |
| Tracks.WrapPeriodic | Pythoven.py:152 | wrap is periodic in the index with the list's length |
| Tracks.LastAtOrBefore | Pythoven.py:93 | the chosen event is at or before the position and every later event is after it |
| Tracks.GetLastNote | Pythoven.py:87-93 | the result is an event of the track at or before the position |
| Tracks.LastNoteOfWellFormed | Pythoven.py:93 | in a well-formed track the note at an event's own time is that event |
| Tracks.AvgDissonance | Pythoven.py:215-224 | the result is the floor of the mean of wrap(harmonic, abs(last pitch - mainnote)) over the sheet |
| Tracks.AllSoundingMeaning | Pythoven.py:223 | getLastNote applies to every track of the sheet exactly when each track has an event at or before the time |
| Tracks.AvgDissonanceBounds | Pythoven.py:223-224 | the mean lies within the harmonic table's range |
| Tracks.HarmonicIntervalRange | Pythoven.py:85 | the harmonic table lies in [0, 10], so avgdissonance with it, over a non-empty sheet whose every track sounds at the time, lies in [0, 10] |
| Looping.TrimAfter | Pythoven.py:211-212 | trimming keeps a non-empty prefix that ends at or before the target, and drops only events past it |
| Looping.Loop | Pythoven.py:201-213 | the two loops return Looped(track, length): the copies delayed by each multiple of the track length below the target, trimmed after the target |
| Looping.TileFromAt | Pythoven.py:207-209 | looped event m is original event m mod n delayed by (m div n) track lengths |
| Looping.LoopedEventAt | Pythoven.py:201-213 | every event of the result is an original event shifted by a multiple of the track length |
| Looping.LoopedWithinLength | Pythoven.py:201-213 | for a well-formed track: the header is the target, no event lies past it, and the times still increase |
| Looping.LoopedMultiple | Pythoven.py:201-213 | for a track of positive length with at least one event and every time below its length, looping to k track lengths gives k times as many events |
| Looping.LoopedStartsWithTrack | Pythoven.py:201-209 | the looped track starts with the track's own first event |
| Looping.LoopKeepsEventAtTarget | Pythoven.py:211 | a 3-tick track with events at 0 and 2, looped to 5, keeps the copy at exactly 5 |
| Looping.MaxLength | Pythoven.py:394-395 | the greatest header of a non-empty sheet: no header exceeds it and one equals it |
| Looping.LoopSheet | Pythoven.py:394-398 | an empty sheet fails, as max() does; otherwise every track is looped to the greatest length |
| NoteNames.KeyIndex | Pythoven.py:56 | the key's position among the twelve names, or failure (ValueError) for an unknown key |
| NoteNames.NatString | Pythoven.py:111-113 | "%d" of a natural number is a non-empty string of decimal digits |
| NoteNames.ParseNatString | Pythoven.py:111-113 | reading the digits back gives the number |
| NoteNames.LeftJustify | Pythoven.py:117 | `ljust(4)` keeps the string and pads it with spaces up to the width |
| NoteNames.NoteString | Pythoven.py:95-118 | the two loops split note + key into octave (note + key) // 12 and name (note + key) mod 12, giving Label(octave, name, padded); an unknown key fails |
| NoteNames.ParseLabelRoundTrip | Pythoven.py:110-115 | every unpadded label reads back as the octave and name it was made from |
| NoteNames.PaddedLabel | Pythoven.py:115-117 | a padded label is at least 4 characters, and without its spaces it is the unpadded label |
| Cues.TrackCues | Pythoven.py:352-354 | one cue per event |
| Cues.CuesRoundTrip | Pythoven.py:352-354 | accumulating the cue durations from the first event's time, and subtracting the offset, gives back the events |
| Cues.SortedCues | Pythoven.py:352-354 | for events starting at 0, increasing and at most the length, no duration is negative, the durations fill the length, and a duration is 0 exactly for a last event at the length |
| Cues.LoopedCues | Pythoven.py:352-354 | the cues of a looped well-formed track are never negative and fill the target length; only a last event kept at the target gets duration 0 |
| Cues.LoopedZeroCue | Pythoven.py:211 | a 3-tick track with events at 0 and 2, looped to 5, ends with a zero-length cue |
| Cues.CuesFillTrack | Pythoven.py:352-354 | for a well-formed track every duration is positive and together they fill the track length |
| Cues.KeyOffset | Pythoven.py:350 | the key's C is NOTES.index(key) + 48, in [48, 60); an unknown key fails |
| Cues.SheetCues | Pythoven.py:349-354 | one cue list per looped track, each the track's cues at the key's offset; an unknown key fails |
| Composer.ScoreAccepts | Pythoven.py:252-253 | an accepted candidate lies in the band, is in the scale, and for counterpoint has average dissonance at most the limit against the sheet |
| Composer.Choose | Pythoven.py:252-254 | an accepted pick uses at least one and at most all of the remaining draws |
| Composer.Accepts | Pythoven.py:253 | the redraw test, evaluated left to right, returns Score(rule, time, note) |
| Composer.ChooseNote | Pythoven.py:252-254 | the redraw loop returns Choose: the first accepted candidate, or the failure that stops it |
| Composer.WalkFacts | Pythoven.py:251-255 | every placed note stands at its time, was accepted by the rule, and moves from its predecessor by a value of the sampler |
| Composer.ChooseFailures | Pythoven.py:252-254 | a pick never fails for lack of times; with key 0 and draws from randint it never misses a key; without a harmony test it fails only for an empty range, a missing key or exhausted draws |
| Composer.WalkFailures | Pythoven.py:251-255 | the same three facts hold for the whole walk |
| Composer.AppendWalk | Pythoven.py:251-255 | the note loop of compose (and of counterpoint, lines 284-288): the header is kept; on success the events are the old events followed by Walk from the last pitch; on failure the failure is Walk's |
| Composer.Compose | Pythoven.py:235-257 | the method returns ComposeResult of the flips and draws |
| Composer.BuiltShape | Pythoven.py:248-256 | the header is kept; the first note is (0, first) moved by offset; the others stand at the note times after the first, were accepted before the move, and each is one sampler interval from the one before |
| Composer.ComposeShape | Pythoven.py:248-256 | compose returns [length * measure, (0, offset), ...]; each later note is within stray of offset, in the scale relative to offset, and the step into it from its predecessor is one of the melodic table's intervals |
| Composer.BuiltWellFormed | Pythoven.py:248-256 | a built track is well formed when its note times increase and lie in [0, header) |
| Composer.BeatTimesFit | Pythoven.py:187-199 | with beat >= 2 and at least one beat, the note times increase and lie in [0, length * measure) |
| Composer.ComposeWellFormed | Pythoven.py:235-257 | whenever compose succeeds with beat >= 2 its track is well formed: positive length, first note at 0, increasing times below the length |
| Composer.ComposeFailures | Pythoven.py:249-250 | compose fails for want of note times exactly when there are no beats; otherwise only for exhausted draws or an empty randint range |
| Composer.TableValues | Pythoven.py:181-182 | every interval the sampler can return is an interval of the table |
| Looping.LoopedSheet | Pythoven.py:279 | every track of the temporary sheet has the new track's length |
| Composer.CounterpointTrack | Pythoven.py:259-288 | the method returns CounterpointResult: the tracks looped to measure * length, then the walk from (0, start) |
| Composer.CounterpointShape | Pythoven.py:278-288 | the new track is anchored at (0, start); every later note lies in [start - stray, start + stray], is in the scale, and has average dissonance at most `dissonance` against the looped sheet |
| Composer.CounterpointWellFormed | Pythoven.py:259-288 | whenever counterpoint's walk succeeds with beat >= 2 the new track is well formed |
| Composer.Counterpoint | Pythoven.py:259-289 | on success the sheet grows by exactly the new track and the tracks already there are unchanged; on failure the sheet is unchanged |
| Waves.Limit | Waves.py:87-95 | the result lies in [-MAX, MAX]; it is the sample itself inside that range, MAX above it and -MAX below it |
| Waves.LimitFacts | Waves.py:87-95 | clamping is idempotent, monotone and odd, and never yields -32768 |
| Waves.InitArray | Waves.py:113-114 | initArray(size) is `size` zeros, and none for a negative size |
| Waves.Padded | Waves.py:103-104 | the padded buffer keeps its prefix and has zeros up to the common length |
| Waves.Mixed | Waves.py:102-109 | the mix is as long as the longer buffer |
| Waves.MergeWaves | Waves.py:97-109 | both arguments are zero-padded in place to the common length, keeping their prefixes; the fresh result is Mixed of the original buffers |
| Waves.MixedFacts | Waves.py:107-108 | the mix is symmetric, lies in [-MAX, MAX], and mixing an in-range buffer with silence returns it |
| Waves.MixedNotAssociative | Waves.py:108 | mixing three full-scale samples gives 0 in one grouping and MAX in the other |
| Waves.InstrumentOf | Waves.py:81 | 'sine' and 'guitar' select their instruments; every other name falls back to the square wave |
| Waves.SampleCount | Waves.py:80 | the sample count is SAMPLE_RATE * length / 1000 rounded down |
| Waves.WaveCache.CachedWaveGen | Waves.py:74-85 | under the key KeyOf(freq, length, waveType) = (instrument, freq, sampleCount): a hit returns the stored buffer whatever the volume, and changes nothing; a miss synthesizes once and adds only that key |
| Waves.KeyFacts | Waves.py:80-82 | an unknown wave type shares the square wave's cache entry, and two lengths share an entry exactly when they are equal |
| Waves.WaveCache.Twice | Waves.py:82-85 | two requests for one key at any volumes synthesize at most once and return the same buffer |
| Waves.Tiled | Waves.py:63-64 | the tiled wave has the requested number of samples |
| Waves.TileFirstPeriod | Waves.py:63-64 | after the loop values[i] == old values[i % calclength] for every i |
| Waves.TiledFacts | Waves.py:63-64 | tiling keeps the first period, repeats with period calclength, and tiling again changes nothing |
| Waves.SmoothLength | Waves.py:66 | the fade length is at most half the wave |
| Waves.Fade | Waves.py:66-69 | the loop returns Faded of the old samples |
| Waves.FadedSample | Waves.py:67-69 | one faded sample keeps its sign and does not grow; outside the faded ends it is unchanged, and both end samples become 0 |
| Waves.FadedFacts | Waves.py:66-69 | the first and last samples become 0; no sample grows in magnitude or changes sign; the middle samples are untouched |
| Waves.SineTail | Waves.py:60-69 | the first segment, tiled over sampleCount samples and faded at the ends |

## Left out

- Floating-point synthesis is not modelled: squareWave, guitarWave (its random noise and float damping), the `math.sin` segment of sineWave and the FREQS table. `Waves.SineTail` takes the first sine segment as an input, and the cache takes the synthesizer as a function parameter.
- Waves.WaveCache.CachedWaveGen: the synthesizer is a fixed function, so the guitar's fresh noise on each miss is not modelled. Only one synthesis per key matters to the cache.
- `random.seed`, `randint` and `random.random` are not modelled. The flips of mktimes and the draws of wrand are parameters. Compose and CounterpointTrack require the draws to lie in `randint(0, max)`'s range. The flips carry no requirement; only Timing.UnsyncopatedCount assumes they are non-negative, as `randint(0, 100)` gives.
- Composer.Compose and Composer.Counterpoint: the source redraws without bound. The model stops with `DrawsExhausted` when the supplied draws run out, so it does not capture a walk that never finishes.
- Scales.InScale and both builders require a positive period. With period 0 or below, the source's reduction loops do not terminate for most pitches.
- Timing.MkTimes requires a non-zero beat. The source raises ZeroDivisionError for beat 0.
- Looping.Loop requires a positive track length, a positive target and an event at or before the target. Otherwise the source loops forever or fails on the header. Composer.CounterpointTrack inherits these requirements for every track of the sheet.
- Tracks.GetLastNote requires an event at or before the position. The source raises IndexError otherwise. Inside the builders this case is the `NothingSounding` failure.
- The 16-bit storage of `array('h')` is not modelled. Clamped sums and faded samples stay in range anyway.
- I/O is not modelled: midiSing, mp3Sing and its ffmpeg subprocess, the file output of wavSing, makeWavFile, mkdirp, the progress and print helpers, argparse, and makeSong (orchestration that uses RandomName, which is not part of this model).
- trackString, vprint, bass, notbass and rlen are display or convenience helpers and are not modelled.
- The rest of wavSing is not modelled: volumes, per-note synthesis and the final mix. That mix calls `mergeWaves` with a single list, which does not match its two-buffer definition. Only the two-buffer mergeWaves is modelled, and no list fold is added.
- The cache is a plain module-level dictionary and there is no concurrency, so no thread-safe cache is modelled.
- The weight table's `'max'` entry is a separate field of `WeightTable`, because its string key cannot collide with the integer keys.
