# Music composer: a verified model of the composition engine

This project models the composition engine of `music_generator.py`. The engine takes a key,
a scale type, a base octave and a length, and produces three timed lists of note events: a
melody, a chord accompaniment and a drum track. They are the notes `generate_midi` hands to
its MIDI writer. The modelled parts are:

- `get_scale`: it walks a seven-step semitone pattern over the twelve chromatic names once per
  octave. It is modelled as `Theory.GetScale`, with nested loops, over `Theory.ExpectedScale`.
- `note_to_midi_number`: C4 is 60 and each octave adds 12. It is modelled as `Theory.MidiNumber`.
- `get_chord_progression`: modelled as `Theory.ChordProgression`.
- `generate_drum_pattern`: modelled as `Drums.GenerateDrumPattern`, a nested loop over
  `Drums.Tiled`.
- The three event-building loops of `generate_midi`:
  - the melody is a random walk over scale indices (`Composer.MelodyTrack` over
    `Composer.MelodyEvents`);
  - the chords are triads taken by skip-two indexing (`Composer.ChordTrack` over
    `Composer.ChordEvents`);
  - the drums are the pattern mapped to percussion keys (`Composer.DrumTrack` over
    `Composer.DrumEvents`).
- The whole of `generate_midi`: `Composer.GenerateMidi` over `Composer.Composition`.

Each imperative part of the source is a Dafny method with loops, proved equal to a recursive
specification function. The properties are then proved as lemmas about those functions.

Modelling conventions:

- **Time.** Times and durations are counted in quarter beats, so no fractions are needed:
  - melody durations 0.5, 1 and 2 beats are 2, 4 and 8;
  - a chord lasts a bar of 16;
  - drum offsets `beat` and `beat + 0.5` are `4*beat` and `4*beat + 2`;
  - a drum note's 0.25 beat is 1.
- **Randomness.** Each melody note consumes one `Composer.Draw(pick, durationPick, velocityPick)`
  of arbitrary naturals:
  - `random.choice(xs)` is `xs[k % |xs|]`;
  - `random.randint(a, b)` is `a + k % (b - a + 1)`.

  `Composer.MelodyPlaysEveryMelody` shows that every melody the source can play is played
  by some draws. That covers any ±3 walk inside the scale, any durations among 0.5, 1 and 2
  beats, and any velocities in [85, 110].
- **Errors.** `list.index` and the interval-table lookup raise exceptions in the source. The
  model returns them as errors:
  - an unknown key gives `UnknownKey`;
  - an unknown scale type gives `UnknownScaleType`, but only when at least one octave is
    generated, because only then is the table read.

## Behaviour to note

- **Twelve drum hits per measure.** Each beat appends one kick or snare and two hi-hats, on
  the beat and half a beat later (music_generator.py:57-63). One measure holds two kicks, two
  snares and eight hi-hats (`Drums.TiledVoiceCounts`).
- **Every measure of the drum pattern has the same offsets.** The offsets are `beat` and
  `beat + 0.5` for beats 0 to 3, with nothing added per measure (music_generator.py:55-63).
  All drum notes of all measures therefore start within the first bar, between beat 0 and
  beat 3.5 (`Drums.TiledHitsInFirstBar`, `Composer.DrumEventsAt`).
- **Each octave block keeps one octave number.** Every entry of block q gets octave
  `base_octave + q`, even after the chromatic index wraps past B (music_generator.py:31-33).
  So the entry after the wrap sounds lower than the one before it, and every other step
  of a block rises (`Theory.ScaleStepDown`). The step from one block into the next rises
  too (`Theory.ScaleBlockBoundaryRise`), so the wraps are the only places where a scale
  falls. In A major, entry 2 is C#4 (MIDI 61). It directly follows B4 (MIDI 71) and lies
  below the key A4 (MIDI 69) (`Theory.ScaleWrapKeepsOctave`).
- **Every scale type other than "major" gets the minor progression** (music_generator.py:41-44).
  In `generate_midi`, an unknown scale type has already failed in `get_scale`.
- **A chord bar always emits three notes in `generate_midi`.** Line 80 asks for two octaves,
  so the scale has 14 entries. The root indices of both progressions (0, 6, 8 and 10) all lie
  inside it (music_generator.py:110, 114), so every bar emits a three-note chord. One pass
  through the four-bar progression emits 12 chord notes (`Composer.ProgressionRootsFit`,
  `Composer.CompositionSizes`).
- **`length // 4` counts two different things.** For the chords it counts passes through the
  progression, and each pass is four bars of one chord each (music_generator.py:105-108). For
  the drums it counts measures of the pattern (music_generator.py:128). The model calls it
  `Composer.Cycles`.

## Model

| member | source | states |
|---|---|---|
| Theory.IndexOf | music_generator.py:21 | Finds the first position of the key in the chromatic list. Returns None exactly when the key is absent, which is where `notes.index` raises. |
| Theory.Intervals | music_generator.py:15-18 | Defined exactly for "major" and "minor". Each pattern has seven steps. |
| Theory.IntervalsCloseOctave | music_generator.py:15-18 | Both interval patterns sum to 12, so a block's walk ends back on its key. |
| Theory.ScaleFrom | music_generator.py:25-37 | get_scale's octave loop from the key's index. The empty scale for octaves ≤ 0. Otherwise the scale-type error, or the blocks. Its properties are in `Theory.ScaleEntry`, `Theory.ScaleBlocksStartAtKey`, `Theory.ScaleBlocksRepeat` and `Theory.ScaleIsValid`. |
| Theory.ExpectedScale | music_generator.py:12-37 | What get_scale returns or raises: the key error for an unknown key, otherwise `ScaleFrom`. Its failures are in `Theory.ScaleFailures`, and its shape and pitches in `Theory.ScaleShape`, `Theory.ScalePitchRange` and `Theory.ScaleWrapKeepsOctave`. |
| Theory.OctaveWalk | music_generator.py:26-33 | The first j notes of one octave block: the chromatic walk from the key over the first j steps, every note in the block's octave. Its length is in `Theory.OctaveWalkLength` and its entries in `Theory.OctaveWalkAt`. `Theory.OctaveNotes` is proved equal to it. |
| Theory.Blocks | music_generator.py:25-35 | The octave blocks one after another, block q in octave base + q. Its length is in `Theory.BlocksLength` and its entries in `Theory.BlocksAt`. |
| Theory.OctaveNotes | music_generator.py:26-33 | The inner loop of get_scale, with `current_idx` carried in the loop, equals the walk of one octave. |
| Theory.OctaveWalkLength | music_generator.py:30-33 | One octave's walk has one entry per interval. |
| Theory.OctaveWalkAt | music_generator.py:26-33 | Entry i of a block is the note `(start + sum of the first i intervals) mod 12` at the block's octave. |
| Theory.BlocksLength | music_generator.py:25-35 | `octaves` blocks give 7·octaves entries. |
| Theory.BlocksAt | music_generator.py:25-35 | Entry k lies in block k / 7 at position k % 7, with octave base + k / 7. |
| Theory.ScaleBlocks | music_generator.py:25-35 | The outer loop of get_scale equals the block-by-block scale, or the scale-type error when at least one octave is built. |
| Theory.GetScale | music_generator.py:12-37 | get_scale equals the expected scale: the key error first, then the blocks. |
| Theory.ScaleFailures | music_generator.py:21-30 | get_scale fails exactly for an unknown key, or for an unknown scale type when octaves ≥ 1. Gives the error for each case, and the empty scale for octaves ≤ 0. |
| Theory.ScaleEntry | music_generator.py:25-35 | A successful scale has 7·octaves entries. Entry k has octave base + k/7 and note `notes[(start + sum of the first k%7 intervals) % 12]`. |
| Theory.ScaleBlocksStartAtKey | music_generator.py:25-35 | Every octave block starts at the key, in that block's octave. |
| Theory.ScaleBlocksRepeat | music_generator.py:25-35 | Entry k + 7 has entry k's note name, one octave higher: all blocks carry the same note names. |
| Theory.ScaleIsValid | music_generator.py:31-32 | Every entry of a built scale has a chromatic note name. |
| Theory.ScaleShape | music_generator.py:12-37 | A successful get_scale returns only chromatic names and exactly 7·octaves entries (none for octaves ≤ 0). |
| Theory.ScaleStepDown | music_generator.py:31-33 | In every block and at every step, entry i + 1 sounds lower than entry i exactly when the step carries the walk past B. That is, start + (sum of the first i steps) < 12 <= start + (sum of the first i + 1 steps). At every other step of the block, entry i + 1 sounds strictly higher than entry i. |
| Theory.ScaleBlockBoundaryRise | music_generator.py:25-35 | The last entry of block q sounds strictly lower than the first entry of block q + 1, which is the key one octave up. With `Theory.ScaleStepDown`, the wraps past B inside a block are the only places where a scale falls. |
| Theory.ScaleWrapKeepsOctave | music_generator.py:31-33 | In A major, entries 0, 1 and 2 are A4, B4 and C#4, all in the block's octave 4. So C#4 (61) sounds 10 semitones below the B4 (71) it directly follows, and 8 below the key's A4 (69). |
| Theory.ChordProgression | music_generator.py:39-44 | Four degrees in 1..7, starting on the tonic. They end on the tonic exactly for "major": [1,4,5,1] for "major" and [1,6,4,5] otherwise. |
| Theory.OffsetsMatchNotes | music_generator.py:48-49 | The pitch-class table gives every chromatic name its index in the chromatic list, and has no other names. |
| Theory.MidiNumber | music_generator.py:46-50 | note_to_midi_number: 60 + the note's offset + (octave − 4)·12, and None where the offset lookup raises. Its contract is `Theory.MidiNumberSpec`, and its inverse is in `Theory.PitchRoundTrip` and `Theory.NoteRoundTrip`. |
| Theory.MidiNumberSpec | music_generator.py:46-50 | Defined exactly for chromatic names. The number lies in [12(o+1), 12(o+2)), i.e. [60+12(o-4), 71+12(o-4)], and its pitch class is the note's index. |
| Theory.MidiNumberSteps | music_generator.py:50 | ('C', 4) is 60, and one octave up adds exactly 12. |
| Theory.PitchRoundTrip | music_generator.py:46-50 | Every MIDI number is the number of exactly the note and octave recovered from it. |
| Theory.NoteRoundTrip | music_generator.py:46-50 | Recovering the note and octave from a note's number gives that note and octave back. |
| Theory.ScalePitchRange | music_generator.py:32 | Scale entry k sounds in MIDI octave base + k/7: its number lies in [12(base + k/7 + 1), 12(base + k/7 + 2)). |
| Drums.MeasureHits | music_generator.py:57-63 | The twelve hits one measure appends, in order. Beat by beat they are in `Drums.BeatHits`, and per voice in `Drums.TiledVoiceCounts`. |
| Drums.Tiled | music_generator.py:54-64 | m copies of the measure, with no per-measure offset. Its properties are in `Drums.TiledAt`, `Drums.TiledHitsInFirstBar` and `Drums.TiledVoiceCounts`. |
| Drums.BeatHits | music_generator.py:57-63 | Beat b adds kick or snare at 4b, then hi-hats at 4b and 4b + 2 (kick on beats 0 and 2, snare on 1 and 3). |
| Drums.GenerateDrumPattern | music_generator.py:52-64 | The nested loop gives the measure pattern repeated max(m, 0) times. |
| Drums.TiledAt | music_generator.py:54-64 | The pattern has 12·m hits, and hit k is hit k % 12 of the single measure. |
| Drums.TiledHitsInFirstBar | music_generator.py:55-63 | Every hit has a known voice and an offset of at most 3.5 beats, in every measure: there is no per-measure offset. |
| Drums.TiledVoiceCount | music_generator.py:55-63 | Each voice occurs m times as often as in one measure. |
| Drums.TiledVoiceCounts | music_generator.py:56-63 | m measures hold 2m kicks, 2m snares, 8m hi-hats and no ride. |
| Composer.DurationOf | music_generator.py:96 | A drawn duration is 0.5, 1 or 2 beats. |
| Composer.VelocityOf | music_generator.py:97 | A drawn velocity lies in [85, 110]. |
| Composer.DrawsReachEveryOutcome | music_generator.py:96-97 | Every duration choice and every velocity in [85, 110] is drawn by some draw. |
| Composer.NoteCount | music_generator.py:84 | The number of iterations of `range(length)`: length, or 0 when length is negative. `Composer.MelodyTrack` emits that many notes and `Composer.CompositionSizes` counts them. |
| Composer.Cycles | music_generator.py:107 | The number of iterations of `range(length // 4)` (floor division), or 0 when length is negative. It counts progression passes for the chords and pattern measures for the drums (line 128). `Composer.ChordTrack`, `Composer.DrumTrack` and `Composer.CompositionSizes` state the track sizes in terms of it. |
| Composer.NextIndex | music_generator.py:85-90 | The next index is inside the scale and, after the first note, within 3 of the previous one. |
| Composer.NextIndexReaches | music_generator.py:85-90 | Every index inside the scale and the ±3 window is chosen by some pick. |
| Composer.ChooseNoteIndex | music_generator.py:85-90 | The window over `range(max(0, p-3), min(len, p+4))`, or randint over the whole scale for the first note, chooses NextIndex. |
| Composer.Walk | music_generator.py:84-94 | The walk of chosen indices has one index per note, and its last index is inside the scale. |
| Composer.WalkIsWalk | music_generator.py:84-94 | Every chosen index is in [0, len(scale)), and consecutive indices differ by at most 3. |
| Composer.WalkComplete | music_generator.py:84-94 | Every sequence of in-range indices with steps of at most 3 is the walk of some picks. |
| Composer.StartTime | music_generator.py:99 | The running time before melody note i: 0 at first (line 71), then the sum of the drawn durations so far. `Composer.StartTimeSum` gives it as that sum, and `Composer.StartTimeMonotone` shows it never decreases. |
| Composer.MelodyNote | music_generator.py:92-98 | The note of one melody step: track 0, channel 0, the chosen scale entry's pitch, the running time, and the drawn duration and velocity. Used in `Composer.MelodyEventsAt`, with its range in `Composer.MelodyNoteShape`. |
| Composer.MelodyEvents | music_generator.py:83-99 | The melody of n notes has exactly n events. |
| Composer.MelodyEventsStep | music_generator.py:84-99 | One iteration chooses walk entry i, advances the time by its duration, and appends that note to the melody. |
| Composer.MelodyEventsAt | music_generator.py:83-99 | Event i plays walk entry i's pitch at the running start time, with draw i's duration and velocity. |
| Composer.MelodyNoteShape | music_generator.py:96-98 | Every melody event is on track 0, channel 0, with a duration of 0.5, 1 or 2 beats and a velocity in [85, 110]. |
| Composer.MelodyTiming | music_generator.py:96-99 | The first note starts at 0. Each start is the previous start plus the previous duration. |
| Composer.StartTimeMonotone | music_generator.py:99 | The running time never decreases. |
| Composer.MelodyStartsOrdered | music_generator.py:98-99 | Melody start times are nondecreasing. |
| Composer.MelodyFollowsWalk | music_generator.py:85-93 | The melody's scale indices form a ±3 walk inside the scale, and event i's pitch is the pitch of scale entry i of that walk. |
| Composer.MelodyPlaysEveryWalk | music_generator.py:85-93 | Any ±3 walk inside the scale is played by the draws that pick it. |
| Composer.DurationPick | music_generator.py:96 | For each duration 0.5, 1 or 2 beats, a choice index that yields exactly that duration. |
| Composer.DrawsFor | music_generator.py:85-97 | Draws whose picks are `WalkPicks(w)`, and whose duration and velocity draws yield the given durations and velocities. |
| Composer.StartTimeSum | music_generator.py:99 | Note i starts at the sum of the durations of the notes before it. |
| Composer.MelodyPlaysEveryMelody | music_generator.py:83-99 | Every melody the loop can play is played by some draws. For any ±3 walk inside the scale, any durations among 0.5, 1 and 2 beats, and any velocities in [85, 110], note i plays scale entry w[i] with duration durations[i] and velocity velocities[i], starting at the sum of the earlier durations. |
| Composer.PlayNote | music_generator.py:85-99 | One pass of the melody loop moves the index, the time and the event list from note i's state to note i + 1's. |
| Composer.MelodyTrack | music_generator.py:83-99 | The melody loop emits exactly the melody events of max(length, 0) notes. |
| Composer.ChordNote | music_generator.py:121-122 | A chord note: track 1, channel 0, the note's pitch, starting at slot s's bar (4s beats), lasting 4 beats at velocity 70. Its form is in `Composer.SlotChordShape` and `Composer.ChordEventsShape`. |
| Composer.TriadIndex | music_generator.py:110-117 | A triad member's index wraps to lie inside the scale. |
| Composer.SlotChord | music_generator.py:110-122 | A slot emits a three-note chord exactly when (d-1)*2 < len(scale), and nothing otherwise. |
| Composer.SlotChordShape | music_generator.py:114-122 | Every chord note of slot s is on track 1, channel 0, starting at 4s beats, lasting 4 beats, with velocity 70. |
| Composer.SlotChordAt | music_generator.py:114-122 | When the root fits, the three notes play scale indices (d-1)*2, ((d-1)*2+2) mod len and ((d-1)*2+4) mod len. |
| Composer.SlotNotes | music_generator.py:114-122 | The body of one slot emits the slot's chord. |
| Composer.ChordEvents | music_generator.py:107-124 | The chord notes of the first `slots` progression slots, one bar each, slot s playing degree s % 4. Its length is in `Composer.ChordEventsAtMost` and `Composer.ChordEventsLength`, its events in `Composer.ChordEventsAt` and their form in `Composer.ChordEventsShape`. |
| Composer.ChordEventsStep | music_generator.py:107-124 | In pass c through the progression, slot (bar) 4·c + j plays degree j of the progression. |
| Composer.CycleChords | music_generator.py:108-124 | One pass of the outer chord loop appends the chords of the progression's four slots, bars 4c to 4c + 3. The cursor advances by a four-beat bar per slot, whether or not a chord is emitted. |
| Composer.ChordTrack | music_generator.py:102-124 | The chord loop emits the chords of (length // 4) · 4 progression slots. |
| Composer.ChordEventsShape | music_generator.py:102-124 | Every chord event is on track 1, channel 0, lasts 4 beats, has velocity 70, and starts on a bar line (a multiple of 4 beats) before the last slot's bar ends. |
| Composer.ChordEventsAtMost | music_generator.py:107-124 | At most three notes are emitted per slot. |
| Composer.ChordEventsLength | music_generator.py:107-124 | When every root of the progression fits, exactly three notes are emitted per slot. |
| Composer.ChordEventsAt | music_generator.py:107-124 | When every root fits, chord event k is triad member k % 3 of the slot-k/3 degree, starting at slot k/3's bar. |
| Composer.ProgressionRootsFit | music_generator.py:80-114 | With more than 12 scale entries (two octaves give 14), every root of either progression lies inside the scale. |
| Composer.DrumEvent | music_generator.py:130 | A hit becomes a note on track 2, channel 9, with key DRUM_NOTES[voice] at the hit's offset, lasting 0.25 beat at velocity 100. |
| Composer.DrumEvents | music_generator.py:127-130 | The drum notes of m measures of the pattern. Their closed form and count are in `Composer.DrumEventsAt`. |
| Composer.HitEvents | music_generator.py:129-130 | One drum event is emitted per hit. |
| Composer.TiledKnownVoices | music_generator.py:5-10 | Every voice of the pattern has a percussion key. |
| Composer.HitEventsAt | music_generator.py:129-130 | Drum event k is the note of hit k, in the pattern's order. |
| Composer.DrumEventsAt | music_generator.py:127-130 | m measures give 12·m drum events. Event k plays hit k % 12 of the measure on track 2, channel 9, with duration 0.25 beat and velocity 100, at most 3.5 beats in. |
| Composer.DrumTrack | music_generator.py:127-130 | The drum loop emits the drum events of length // 4 measures. |
| Composer.Composition | music_generator.py:66-130 | What generate_midi hands the MIDI writer, or get_scale's error. It records the tempo, programs 0, 48 and 0, the melody, the chords when enabled and the drums when enabled. Its failures are in `Composer.CompositionFailures`, its sizes in `Composer.CompositionSizes`, and its pitch ranges in `Composer.MelodyPitchRange` and `Composer.ChordPitchRange`. |
| Composer.GenerateMidi | music_generator.py:66-130 | generate_midi builds the two-octave scale, then the melody, the chords when enabled and the drums when enabled, or fails as get_scale does. |
| Composer.CompositionFailures | music_generator.py:80 | A composition fails exactly for an unknown key or an unknown scale type, with that error. |
| Composer.CompositionSizes | music_generator.py:70-130 | A composition records the tempo and the programs 0, 48 and 0. It has `NoteCount(length)` melody notes, none for a negative length. With chords enabled it has 12 chord notes per pass through the four-bar progression (3 per bar). With drums enabled it has 12 drum notes per measure of the pattern. That they all start within the first bar is `Composer.DrumEventsAt`'s `start <= 14`. |
| Composer.MelodyPitchRange | music_generator.py:80-93 | Every melody pitch lies in the scale's two octaves, [12(base+1), 12(base+3)). |
| Composer.ChordPitchRange | music_generator.py:102-122 | Every chord pitch lies in the scale's two octaves, [12(base+1), 12(base+3)). |

## Left out

- MIDI writing: `MIDIFile`, `addTempo`, `addProgramChange`, `addNote` and `writeFile` are a
  foreign library plus binary file output. The score records the tempo, the three program
  numbers and the note events that would be passed to `addNote`. The file name parameter and
  the file itself are not modelled.
- The `random` module: it is replaced by the draws each melody note consumes. The model covers
  every outcome, but not the pseudo-random generator or its distribution.
- The web front end (`app.py`: routes, temporary files, logging) and the browser player
  (`static/js/app.js`): these are I/O and a foreign audio library, so they are not part of
  this model.
- Floating-point times: every time in the source is a multiple of 0.25 beat, so they are
  modelled exactly as whole quarter beats.
- Default argument values: the model has no default parameters, so every argument of the
  modelled functions is explicit.
- The three-note inner loop of the chord slot: it is written out as three appends in
  `Composer.SlotNotes`, which emit the same notes in the same order.
- Composer.MelodyTrack: requires a nonempty scale when `length > 0`. On an empty scale the
  source's `random.randint(0, -1)` raises, which is not modelled. `generate_midi` never builds
  an empty scale.
- Composer.ChordPitchRange: stated for compositions with chords enabled. With chords disabled
  the chord track is empty.
