/** The body of generate_midi in music_generator.py: the melody, chord and drum
    loops, with the MIDI writer replaced by the list of events it is handed.
    Times and durations are counted in quarter beats: 0.5 beat is 2, one bar (four beats) is 16. */
module Composer {
  import opened Wrappers
  import opened Theory
  import opened Drums

  /** One call of the MIDI writer's addNote: track, channel, pitch, start time,
      duration and velocity. */
  datatype NoteEvent = NoteEvent(track: nat, channel: nat, pitch: int, start: nat, duration: nat, velocity: nat)

  /** The random draws one melody note consumes, in the order the source makes them:
      the scale index (random.choice or random.randint), the duration and the velocity.
      random.choice(xs) is modelled as xs[k % |xs|] and random.randint(a, b) as
      a + k % (b - a + 1), so every outcome of the source is reached by some draw. */
  datatype Draw = Draw(pick: nat, durationPick: nat, velocityPick: nat)

  /** The melody's possible durations, 0.5, 1 and 2 beats. */
  const DurationChoices: seq<nat> := [2, 4, 8]

  /** The duration random.choice([0.5, 1, 2]) yields for a draw. */
  function DurationOf(d: Draw): (r: nat)
    ensures r == 2 || r == 4 || r == 8
  {
    DurationChoices[d.durationPick % |DurationChoices|]
  }

  /** The velocity random.randint(85, 110) yields for a draw. */
  function VelocityOf(d: Draw): (r: nat)
    ensures 85 <= r <= 110
  {
    85 + d.velocityPick % 26
  }

  /** Every duration and every velocity the source can draw is drawn by some draw. */
  lemma DrawsReachEveryOutcome(j: nat, velocity: nat)
    requires j < 3 && 85 <= velocity <= 110
    ensures DurationOf(Draw(0, j, velocity - 85)) == DurationChoices[j]
    ensures VelocityOf(Draw(0, j, velocity - 85)) == velocity
  {
    SmallMod(j, 3);
    SmallMod(velocity - 85, 26);
  }

  /** The number of iterations of range(length). */
  function NoteCount(length: int): nat
  {
    if length < 0 then 0 else length
  }

  /** length // 4 as range() sees it: the number of passes through the chord progression
      (four bars each) and the number of drum-pattern measures. */
  function Cycles(length: int): nat
  {
    if length < 0 then 0 else length / 4
  }

  // ---------------------------------------------------------------------------
  // Melody: a random walk over scale indices

  /** max(0, prev - 3), the lowest index the next note may take. */
  function WindowLow(prev: nat): nat
  {
    if prev < 3 then 0 else prev - 3
  }

  /** min(n, prev + 4), one past the highest index the next note may take. */
  function WindowHigh(prev: nat, n: nat): nat
  {
    if n < prev + 4 then n else prev + 4
  }

  /** The scale index a draw picks: any index of the scale for the first note;
      afterwards an index of the window [prev - 3, prev + 3] clamped to the scale. */
  function NextIndex(n: nat, prev: Option<nat>, pick: nat): (r: nat)
    requires n > 0 && (prev.Some? ==> prev.value < n)
    ensures r < n
    ensures prev.Some? ==> prev.value <= r + 3 && r <= prev.value + 3
  {
    match prev
    case None => pick % n
    case Some(p) => WindowLow(p) + pick % (WindowHigh(p, n) - WindowLow(p))
  }

  /** A sequence of scale indices the melody can take: every index is inside a
      scale of n entries and consecutive indices differ by at most 3. */
  predicate IsWalk(n: nat, w: seq<nat>)
  {
    && (forall i :: 0 <= i < |w| ==> w[i] < n)
    && (forall i :: 0 < i < |w| ==> w[i - 1] <= w[i] + 3 && w[i] <= w[i - 1] + 3)
  }

  /** The indices the melody loop chooses for a sequence of picks. */
  function Walk(n: nat, picks: seq<nat>): (w: seq<nat>)
    requires picks != [] ==> n > 0
    ensures |w| == |picks|
    ensures w != [] ==> w[|w| - 1] < n
  {
    if picks == [] then []
    else
      var w := Walk(n, picks[..|picks| - 1]);
      w + [NextIndex(n, if w == [] then None else Some(w[|w| - 1]), picks[|picks| - 1])]
  }

  /** Walk always yields a walk. */
  lemma {:induction false} WalkIsWalk(n: nat, picks: seq<nat>)
    requires picks != [] ==> n > 0
    ensures IsWalk(n, Walk(n, picks))
  {
    if picks != [] {
      WalkIsWalk(n, picks[..|picks| - 1]);
    }
  }

  /** The pick that makes NextIndex choose x (any pick when x is below the window). */
  function PickFor(prev: Option<nat>, x: nat): nat
  {
    match prev
    case None => x
    case Some(p) => if x < WindowLow(p) then 0 else x - WindowLow(p)
  }

  /** Every index the window allows is chosen by some pick: the oracle model loses
      none of the source's outcomes. */
  lemma NextIndexReaches(n: nat, prev: Option<nat>, x: nat)
    requires n > 0 && (prev.Some? ==> prev.value < n)
    requires x < n && (prev.Some? ==> prev.value <= x + 3 && x <= prev.value + 3)
    ensures NextIndex(n, prev, PickFor(prev, x)) == x
  {
    match prev
    case None =>
      SmallMod(x, n);
    case Some(p) =>
      SmallMod(x - WindowLow(p), WindowHigh(p, n) - WindowLow(p));
  }

  /** A number below the modulus is its own remainder. */
  lemma SmallMod(a: nat, m: nat)
    requires a < m
    ensures a % m == a
  {
  }

  /** The picks that reproduce a given sequence of indices. */
  function WalkPicks(w: seq<nat>): (picks: seq<nat>)
    ensures |picks| == |w|
  {
    if w == [] then [] else
      var last := |w| - 1;
      WalkPicks(w[..last]) + [PickFor(if last == 0 then None else Some(w[last - 1]), w[last])]
  }

  /** A prefix of a walk is a walk. */
  lemma WalkPrefix(n: nat, w: seq<nat>, k: nat)
    requires IsWalk(n, w) && k <= |w|
    ensures IsWalk(n, w[..k])
  {
  }

  /** Extending a walk that its picks reproduce by one admissible index: the
      picks extended by PickFor reproduce the longer walk. */
  lemma WalkExtend(n: nat, front: seq<nat>, x: nat)
    requires x < n && Walk(n, WalkPicks(front)) == front
    requires front != [] ==> front[|front| - 1] < n && front[|front| - 1] <= x + 3 && x <= front[|front| - 1] + 3
    ensures Walk(n, WalkPicks(front + [x])) == front + [x]
  {
    var w := front + [x];
    var picks := WalkPicks(w);
    assert w[..|front|] == front;
    assert picks[..|front|] == WalkPicks(front);
    var prev: Option<nat> := if front == [] then None else Some(front[|front| - 1]);
    NextIndexReaches(n, prev, x);
  }

  /** The melody's index sequences are exactly the walks: Walk always yields one
      (WalkIsWalk), and every walk is produced by some sequence of picks. */
  lemma {:induction false} WalkComplete(n: nat, w: seq<nat>)
    requires IsWalk(n, w) && (w != [] ==> n > 0)
    ensures Walk(n, WalkPicks(w)) == w
  {
    if w != [] {
      var last := |w| - 1;
      var front := w[..last];
      WalkPrefix(n, w, last);
      WalkComplete(n, front);
      assert w == front + [w[last]];
      WalkExtend(n, front, w[last]);
    }
  }

  /** The scale-index picks of the first n draws. */
  function Picks(draws: seq<Draw>, n: nat): (picks: seq<nat>)
    requires n <= |draws|
    ensures |picks| == n
  {
    seq(n, i requires 0 <= i < n => draws[i].pick)
  }

  /** The start time of melody note i: the durations of the notes before it, added up. */
  function StartTime(draws: seq<Draw>, i: nat): nat
    requires i <= |draws|
  {
    if i == 0 then 0 else StartTime(draws, i - 1) + DurationOf(draws[i - 1])
  }

  /** The melody note for draw `d` when it picked scale index `idx` and starts at `start`. */
  function MelodyNote(scale: seq<ScaleDegree>, d: Draw, idx: nat, start: nat): NoteEvent
    requires ValidScale(scale) && idx < |scale|
  {
    NoteEvent(0, 0, PitchOf(scale[idx]), start, DurationOf(d), VelocityOf(d))
  }

  /** The melody note events for the first n draws. */
  function MelodyEvents(scale: seq<ScaleDegree>, draws: seq<Draw>, n: nat): (events: seq<NoteEvent>)
    requires ValidScale(scale) && n <= |draws| && (n > 0 ==> |scale| > 0)
    ensures |events| == n
  {
    if n == 0 then [] else
      MelodyEvents(scale, draws, n - 1) +
      [MelodyNote(scale, draws[n - 1], Walk(|scale|, Picks(draws, n))[n - 1], StartTime(draws, n - 1))]
  }

  /** The walk over one more pick extends the walk over the earlier picks. */
  lemma WalkStep(n: nat, draws: seq<Draw>, i: nat)
    requires i < |draws| && n > 0
    ensures Walk(n, Picks(draws, i + 1)) ==
      Walk(n, Picks(draws, i)) + [NextIndex(n, if i == 0 then None else Some(Walk(n, Picks(draws, i))[i - 1]), draws[i].pick)]
  {
    assert Picks(draws, i + 1)[..i] == Picks(draws, i);
  }

  /** One iteration of the melody loop: the walk grows by the chosen index and
      the events by the note that index selects. */
  lemma MelodyEventsStep(scale: seq<ScaleDegree>, draws: seq<Draw>, i: nat, noteIdx: nat)
    requires ValidScale(scale) && i < |draws| && |scale| > 0
    requires noteIdx == NextIndex(|scale|, if i == 0 then None else Some(Walk(|scale|, Picks(draws, i))[i - 1]), draws[i].pick)
    ensures Walk(|scale|, Picks(draws, i + 1))[i] == noteIdx
    ensures StartTime(draws, i + 1) == StartTime(draws, i) + DurationOf(draws[i])
    ensures MelodyEvents(scale, draws, i + 1) ==
      MelodyEvents(scale, draws, i) + [MelodyNote(scale, draws[i], noteIdx, StartTime(draws, i))]
  {
    WalkStep(|scale|, draws, i);
  }

  /** The walk over a prefix of the picks is the prefix of the walk: a later pick
      never changes an earlier choice. */
  lemma {:induction false} WalkPrefixStable(n: nat, picks: seq<nat>, k: nat)
    requires (picks != [] ==> n > 0) && k <= |picks|
    ensures Walk(n, picks[..k]) == Walk(n, picks)[..k]
  {
    if k < |picks| {
      var front := picks[..|picks| - 1];
      WalkPrefixStable(n, front, k);
      assert front[..k] == picks[..k];
    } else {
      assert picks[..k] == picks;
    }
  }

  /** The picks of the first k draws are a prefix of the picks of the first n. */
  lemma PicksPrefix(draws: seq<Draw>, n: nat, k: nat)
    requires k <= n <= |draws|
    ensures Picks(draws, n)[..k] == Picks(draws, k)
  {
  }

  /** Melody event i, in closed form: the note of scale index i of the walk, at
      start time StartTime(draws, i), with the duration and velocity of draw i. */
  lemma {:induction false} MelodyEventsAt(scale: seq<ScaleDegree>, draws: seq<Draw>, n: nat, i: nat)
    requires ValidScale(scale) && n <= |draws| && |scale| > 0 && i < n
    ensures Walk(|scale|, Picks(draws, n))[i] < |scale|
    ensures MelodyEvents(scale, draws, n)[i] ==
      MelodyNote(scale, draws[i], Walk(|scale|, Picks(draws, n))[i], StartTime(draws, i))
  {
    WalkIsWalk(|scale|, Picks(draws, n));
    if i < n - 1 {
      MelodyEventsAt(scale, draws, n - 1, i);
      WalkPrefixStable(|scale|, Picks(draws, n), n - 1);
      PicksPrefix(draws, n, n - 1);
    }
  }

  /** Every melody note is on track 0, channel 0, lasts 0.5, 1 or 2 beats and has a
      velocity in [85, 110]. */
  lemma MelodyNoteShape(scale: seq<ScaleDegree>, draws: seq<Draw>, n: nat, i: nat)
    requires ValidScale(scale) && n <= |draws| && |scale| > 0 && i < n
    ensures MelodyEvents(scale, draws, n)[i].track == 0 && MelodyEvents(scale, draws, n)[i].channel == 0
    ensures MelodyEvents(scale, draws, n)[i].duration in {2, 4, 8}
    ensures 85 <= MelodyEvents(scale, draws, n)[i].velocity <= 110
  {
    MelodyEventsAt(scale, draws, n, i);
  }

  /** The melody starts at time 0 and each note starts where the previous one ends. */
  lemma MelodyTiming(scale: seq<ScaleDegree>, draws: seq<Draw>, n: nat, i: nat)
    requires ValidScale(scale) && n <= |draws| && |scale| > 0 && i + 1 < n
    ensures MelodyEvents(scale, draws, n)[0].start == 0
    ensures MelodyEvents(scale, draws, n)[i + 1].start ==
      MelodyEvents(scale, draws, n)[i].start + MelodyEvents(scale, draws, n)[i].duration
  {
    MelodyEventsAt(scale, draws, n, 0);
    MelodyEventsAt(scale, draws, n, i);
    MelodyEventsAt(scale, draws, n, i + 1);
  }

  /** Start times never decrease along the draws. */
  lemma {:induction false} StartTimeMonotone(draws: seq<Draw>, i: nat, j: nat)
    requires i <= j <= |draws|
    ensures StartTime(draws, i) <= StartTime(draws, j)
  {
    if i < j {
      StartTimeMonotone(draws, i, j - 1);
    }
  }

  /** Melody notes are in order of start time. */
  lemma MelodyStartsOrdered(scale: seq<ScaleDegree>, draws: seq<Draw>, n: nat, i: nat, j: nat)
    requires ValidScale(scale) && n <= |draws| && |scale| > 0 && i <= j < n
    ensures MelodyEvents(scale, draws, n)[i].start <= MelodyEvents(scale, draws, n)[j].start
  {
    MelodyEventsAt(scale, draws, n, i);
    MelodyEventsAt(scale, draws, n, j);
    StartTimeMonotone(draws, i, j);
  }

  /** The melody's pitches are those of a walk over the scale: indices inside the
      scale, consecutive ones at most three apart. */
  lemma MelodyFollowsWalk(scale: seq<ScaleDegree>, draws: seq<Draw>, n: nat)
    requires ValidScale(scale) && n <= |draws| && |scale| > 0
    ensures IsWalk(|scale|, Walk(|scale|, Picks(draws, n)))
    ensures forall i :: 0 <= i < n ==>
      MelodyEvents(scale, draws, n)[i].pitch == PitchOf(scale[Walk(|scale|, Picks(draws, n))[i]])
  {
    WalkIsWalk(|scale|, Picks(draws, n));
    forall i | 0 <= i < n
      ensures MelodyEvents(scale, draws, n)[i].pitch == PitchOf(scale[Walk(|scale|, Picks(draws, n))[i]])
    {
      MelodyEventsAt(scale, draws, n, i);
    }
  }

  /** Every walk over the scale is played by some draws: those whose picks are
      WalkPicks(w) play scale entry w[i] as note i. */
  lemma MelodyPlaysEveryWalk(scale: seq<ScaleDegree>, draws: seq<Draw>, w: seq<nat>, i: nat)
    requires ValidScale(scale) && |scale| > 0 && IsWalk(|scale|, w) && |w| <= |draws| && i < |w|
    requires Picks(draws, |w|) == WalkPicks(w)
    ensures MelodyEvents(scale, draws, |w|)[i].pitch == PitchOf(scale[w[i]])
  {
    WalkComplete(|scale|, w);
    MelodyEventsAt(scale, draws, |w|, i);
  }

  /** The duration pick under which random.choice([0.5, 1, 2]) yields `duration`. */
  function DurationPick(duration: nat): (j: nat)
    requires duration == 2 || duration == 4 || duration == 8
    ensures j < |DurationChoices| && DurationChoices[j] == duration
  {
    if duration == 2 then 0 else if duration == 4 then 1 else 2
  }

  /** One duration of 0.5, 1 or 2 beats and one velocity in [85, 110] for each note
      of the walk `w`: the values the source's draws can produce. */
  predicate Playable(w: seq<nat>, durations: seq<nat>, velocities: seq<nat>)
  {
    && |durations| == |w| && |velocities| == |w|
    && (forall i :: 0 <= i < |durations| ==> durations[i] == 2 || durations[i] == 4 || durations[i] == 8)
    && (forall i :: 0 <= i < |velocities| ==> 85 <= velocities[i] <= 110)
  }

  /** The draws that pick walk `w` with the given durations and velocities. */
  function DrawsFor(w: seq<nat>, durations: seq<nat>, velocities: seq<nat>): (draws: seq<Draw>)
    requires Playable(w, durations, velocities)
    ensures |draws| == |w| && Picks(draws, |w|) == WalkPicks(w)
    ensures forall i :: 0 <= i < |draws| ==> DurationOf(draws[i]) == durations[i]
    ensures forall i :: 0 <= i < |draws| ==> VelocityOf(draws[i]) == velocities[i]
  {
    seq(|w|, i requires 0 <= i < |w| => Draw(WalkPicks(w)[i], DurationPick(durations[i]), velocities[i] - 85))
  }

  /** When draw k yields duration durations[k] for every k, note i starts at the sum
      of the durations before it. */
  lemma {:induction false} StartTimeSum(draws: seq<Draw>, durations: seq<nat>, i: nat)
    requires |durations| == |draws| && i <= |draws|
    requires forall k :: 0 <= k < |draws| ==> DurationOf(draws[k]) == durations[k]
    ensures StartTime(draws, i) == Sum(durations[..i])
  {
    if i > 0 {
      StartTimeSum(draws, durations, i - 1);
      SumPrefixStep(durations, i - 1);
    }
  }

  /** Every melody the loop can play is played by some draws: for any walk over the
      scale and any durations and velocities the source can draw, the draws
      DrawsFor(w, durations, velocities) make note i scale entry w[i], with duration
      durations[i] and velocity velocities[i], starting when the notes before it end. */
  lemma MelodyPlaysEveryMelody(scale: seq<ScaleDegree>, w: seq<nat>, durations: seq<nat>,
                               velocities: seq<nat>, i: nat)
    requires ValidScale(scale) && |scale| > 0 && IsWalk(|scale|, w)
    requires Playable(w, durations, velocities) && i < |w|
    ensures MelodyEvents(scale, DrawsFor(w, durations, velocities), |w|)[i] ==
      NoteEvent(0, 0, PitchOf(scale[w[i]]), Sum(durations[..i]), durations[i], velocities[i])
  {
    var draws := DrawsFor(w, durations, velocities);
    WalkComplete(|scale|, w);
    MelodyEventsAt(scale, draws, |w|, i);
    StartTimeSum(draws, durations, i);
  }

  /** The index choice of the melody loop: random.randint(0, len(scale) - 1) for the
      first note, random.choice over list(range(max(0, prev - 3), min(len(scale), prev + 4)))
      afterwards. */
  method ChooseNoteIndex(n: nat, prevNoteIdx: Option<nat>, pick: nat) returns (noteIdx: nat)
    requires n > 0 && (prevNoteIdx.Some? ==> prevNoteIdx.value < n)
    ensures noteIdx == NextIndex(n, prevNoteIdx, pick)
  {
    if prevNoteIdx.Some? {
      var p := prevNoteIdx.value;
      var lo := if p < 3 then 0 else p - 3;
      var hi := if n < p + 4 then n else p + 4;
      var possibleIndices := seq(hi - lo, j requires 0 <= j < hi - lo => lo + j);
      noteIdx := possibleIndices[pick % |possibleIndices|];
    } else {
      noteIdx := pick % n;
    }
  }

  /** One pass of the melody loop: choose the next scale index, look up its pitch,
      draw the duration and the velocity, append the note at the running time and
      advance the time by the duration. */
  method PlayNote(scale: seq<ScaleDegree>, draws: seq<Draw>, i: nat, prevNoteIdx: Option<nat>,
                  time0: nat, events0: seq<NoteEvent>)
    returns (noteIdx: nat, time: nat, events: seq<NoteEvent>)
    requires ValidScale(scale) && |scale| > 0 && i < |draws|
    requires prevNoteIdx == if i == 0 then None else Some(Walk(|scale|, Picks(draws, i))[i - 1])
    requires time0 == StartTime(draws, i) && events0 == MelodyEvents(scale, draws, i)
    ensures noteIdx == Walk(|scale|, Picks(draws, i + 1))[i]
    ensures time == StartTime(draws, i + 1) && events == MelodyEvents(scale, draws, i + 1)
  {
    noteIdx := ChooseNoteIndex(|scale|, prevNoteIdx, draws[i].pick);
    MelodyEventsStep(scale, draws, i, noteIdx);
    var midiNote := MidiNumber(scale[noteIdx].note, scale[noteIdx].octave).value;
    var duration := DurationChoices[draws[i].durationPick % |DurationChoices|];
    var velocity := 85 + draws[i].velocityPick % 26;
    assert NoteEvent(0, 0, midiNote, time0, duration, velocity) == MelodyNote(scale, draws[i], noteIdx, time0);
    events := events0 + [NoteEvent(0, 0, midiNote, time0, duration, velocity)];
    time := time0 + duration;
  }

  /** The melody loop of generate_midi: for each of `length` notes, choose a scale
      index (anywhere for the first note, within three of the previous one after),
      map it to a pitch, draw a duration and a velocity, and emit the note at the
      running time, which then advances by the duration. */
  method MelodyTrack(scale: seq<ScaleDegree>, length: int, draws: seq<Draw>) returns (events: seq<NoteEvent>)
    requires ValidScale(scale) && (length > 0 ==> |scale| > 0) && NoteCount(length) <= |draws|
    ensures events == MelodyEvents(scale, draws, NoteCount(length))
  {
    var time := 0;
    var prevNoteIdx: Option<nat> := None;
    events := [];
    var i := 0;
    while i < length
      invariant 0 <= i <= NoteCount(length)
      invariant time == StartTime(draws, i)
      invariant prevNoteIdx == if i == 0 then None else Some(Walk(|scale|, Picks(draws, i))[i - 1])
      invariant events == MelodyEvents(scale, draws, i)
    {
      var noteIdx;
      noteIdx, time, events := PlayNote(scale, draws, i, prevNoteIdx, time, events);
      prevNoteIdx := Some(noteIdx);
      i := i + 1;
    }
    assert i == NoteCount(length);
  }

  // ---------------------------------------------------------------------------
  // Chords: one triad per progression slot, one bar per slot

  /** The length of one chord, four beats. */
  const ChordDuration: nat := 16

  /** A chord note: track 1, channel 0, the whole bar of slot `slot`, velocity 70. */
  function ChordNote(d: ScaleDegree, slot: nat): NoteEvent
    requires d.note in Notes
  {
    NoteEvent(1, 0, PitchOf(d), 16 * slot, ChordDuration, 70)
  }

  /** The scale index of triad member t (root, third, fifth for t = 0, 1, 2) of the
      chord on degree `degree`: skip-two indexing from (degree - 1) * 2, wrapped
      around the scale. */
  function TriadIndex(n: nat, degree: nat, t: nat): (r: nat)
    requires n > 0 && degree >= 1
    ensures r < n
  {
    ((degree - 1) * 2 + 2 * t) % n
  }

  /** The notes slot `slot` emits for degree `degree`: the triad when its root lies
      inside the scale, nothing otherwise. */
  function SlotChord(scale: seq<ScaleDegree>, degree: nat, slot: nat): (notes: seq<NoteEvent>)
    requires ValidScale(scale) && degree >= 1
    ensures |notes| == 3 <==> (degree - 1) * 2 < |scale|
    ensures |notes| == 0 <==> (degree - 1) * 2 >= |scale|
  {
    var root := (degree - 1) * 2;
    if root < |scale| then
      [ChordNote(scale[root], slot),
       ChordNote(scale[(root + 2) % |scale|], slot),
       ChordNote(scale[(root + 4) % |scale|], slot)]
    else []
  }

  /** A progression of four degrees, each at least 1, as get_chord_progression returns. */
  predicate ValidProgression(progression: seq<nat>)
  {
    |progression| == 4 && forall i :: 0 <= i < |progression| ==> progression[i] >= 1
  }

  /** The chord events of the first `slots` progression slots, the progression
      repeating every four slots. */
  function ChordEvents(scale: seq<ScaleDegree>, progression: seq<nat>, slots: nat): seq<NoteEvent>
    requires ValidScale(scale) && ValidProgression(progression)
  {
    if slots == 0 then [] else
      ChordEvents(scale, progression, slots - 1) +
      SlotChord(scale, progression[(slots - 1) % 4], slots - 1)
  }

  /** Slot j of progression cycle `cycle` (bar 4 * cycle + j) plays progression entry j. */
  lemma ChordEventsStep(scale: seq<ScaleDegree>, progression: seq<nat>, cycle: nat, j: nat)
    requires ValidScale(scale) && ValidProgression(progression) && j < 4
    ensures ChordEvents(scale, progression, 4 * cycle + j + 1) ==
      ChordEvents(scale, progression, 4 * cycle + j) + SlotChord(scale, progression[j], 4 * cycle + j)
  {
    assert (4 * cycle + j) % 4 == j;
  }

  /** Every note of a slot's chord lasts the slot's bar. */
  lemma SlotChordShape(scale: seq<ScaleDegree>, degree: nat, slot: nat, t: nat)
    requires ValidScale(scale) && degree >= 1 && t < |SlotChord(scale, degree, slot)|
    ensures SlotChord(scale, degree, slot)[t].track == 1 && SlotChord(scale, degree, slot)[t].channel == 0
    ensures SlotChord(scale, degree, slot)[t].duration == ChordDuration
    ensures SlotChord(scale, degree, slot)[t].velocity == 70
    ensures SlotChord(scale, degree, slot)[t].start == 16 * slot
  {
  }

  /** Every chord note is on track 1, channel 0, lasts a bar (four beats) at
      velocity 70, and starts on a bar line inside the first `slots` bars. */
  lemma {:induction false} ChordEventsShape(scale: seq<ScaleDegree>, progression: seq<nat>, slots: nat, k: nat)
    requires ValidScale(scale) && ValidProgression(progression)
    requires k < |ChordEvents(scale, progression, slots)|
    ensures ChordEvents(scale, progression, slots)[k].track == 1
    ensures ChordEvents(scale, progression, slots)[k].channel == 0
    ensures ChordEvents(scale, progression, slots)[k].duration == ChordDuration
    ensures ChordEvents(scale, progression, slots)[k].velocity == 70
    ensures ChordEvents(scale, progression, slots)[k].start % ChordDuration == 0
    ensures ChordEvents(scale, progression, slots)[k].start < 16 * slots
  {
    var last := slots - 1;
    var front := ChordEvents(scale, progression, last);
    var chord := SlotChord(scale, progression[last % 4], last);
    assert ChordEvents(scale, progression, slots) == front + chord;
    if k < |front| {
      ChordEventsShape(scale, progression, last, k);
    } else {
      SlotChordShape(scale, progression[last % 4], last, k - |front|);
    }
  }

  /** Every slot emits at most three notes. */
  lemma {:induction false} ChordEventsAtMost(scale: seq<ScaleDegree>, progression: seq<nat>, slots: nat)
    requires ValidScale(scale) && ValidProgression(progression)
    ensures |ChordEvents(scale, progression, slots)| <= 3 * slots
  {
    if slots > 0 {
      ChordEventsAtMost(scale, progression, slots - 1);
    }
  }

  /** The root of every degree of the progression lies inside the scale. */
  predicate RootsFit(scale: seq<ScaleDegree>, progression: seq<nat>)
    requires ValidProgression(progression)
  {
    forall i :: 0 <= i < |progression| ==> (progression[i] - 1) * 2 < |scale|
  }

  /** A slot whose root fits emits the root, third and fifth of its triad. */
  lemma SlotChordAt(scale: seq<ScaleDegree>, degree: nat, slot: nat, t: nat)
    requires ValidScale(scale) && degree >= 1 && (degree - 1) * 2 < |scale| && t < 3
    ensures |SlotChord(scale, degree, slot)| == 3
    ensures SlotChord(scale, degree, slot)[t] == ChordNote(scale[TriadIndex(|scale|, degree, t)], slot)
  {
    SmallMod((degree - 1) * 2, |scale|);
  }

  /** Position t of group q, for groups of three. */
  lemma TriadPosition(q: nat, t: nat)
    requires t < 3
    ensures (3 * q + t) / 3 == q && (3 * q + t) % 3 == t
  {
  }

  /** When every root fits, every slot emits three notes. */
  lemma {:induction false} ChordEventsLength(scale: seq<ScaleDegree>, progression: seq<nat>, slots: nat)
    requires ValidScale(scale) && ValidProgression(progression) && RootsFit(scale, progression)
    ensures |ChordEvents(scale, progression, slots)| == 3 * slots
  {
    if slots > 0 {
      ChordEventsLength(scale, progression, slots - 1);
      SlotChordAt(scale, progression[(slots - 1) % 4], slots - 1, 0);
    }
  }

  /** When every root fits, each slot emits its full triad: note k is triad member
      k % 3 of the chord of slot k / 3, starting at that slot's bar. */
  lemma {:induction false} ChordEventsAt(scale: seq<ScaleDegree>, progression: seq<nat>, slots: nat, k: nat)
    requires ValidScale(scale) && |scale| > 0 && ValidProgression(progression) && RootsFit(scale, progression)
    requires k < 3 * slots
    ensures |ChordEvents(scale, progression, slots)| == 3 * slots
    ensures ChordEvents(scale, progression, slots)[k] ==
      ChordNote(scale[TriadIndex(|scale|, progression[(k / 3) % 4], k % 3)], k / 3)
  {
    ChordEventsLength(scale, progression, slots);
    var last := slots - 1;
    ChordEventsLength(scale, progression, last);
    var front := ChordEvents(scale, progression, last);
    var chord := SlotChord(scale, progression[last % 4], last);
    assert ChordEvents(scale, progression, slots) == front + chord;
    if k < 3 * last {
      ChordEventsAt(scale, progression, last, k);
    } else {
      var t := k - 3 * last;
      TriadPosition(last, t);
      SlotChordAt(scale, progression[last % 4], last, t);
    }
  }

  /** get_chord_progression's degrees all have their root inside a scale of more
      than twelve entries, such as the two-octave scale generate_midi builds. */
  lemma ProgressionRootsFit(scale: seq<ScaleDegree>, scaleType: string)
    requires |scale| > 12
    ensures ValidProgression(ChordProgression(scaleType))
    ensures RootsFit(scale, ChordProgression(scaleType))
  {
  }

  /** The body of one chord slot: the root, third and fifth of the chord on
      degree chordIdx, as notes lasting the bar that starts at `time`; nothing when
      the root falls outside the scale. */
  method SlotNotes(scale: seq<ScaleDegree>, chordIdx: nat, time: nat, ghost slot: nat) returns (notes: seq<NoteEvent>)
    requires ValidScale(scale) && chordIdx >= 1 && time == 16 * slot
    ensures notes == SlotChord(scale, chordIdx, slot)
  {
    var rootIdx := (chordIdx - 1) * 2;
    var thirdIdx := rootIdx + 2;
    var fifthIdx := rootIdx + 4;
    notes := [];
    if rootIdx < |scale| {
      var root := scale[rootIdx];
      var third := scale[thirdIdx % |scale|];
      var fifth := scale[fifthIdx % |scale|];
      notes := notes + [NoteEvent(1, 0, MidiNumber(root.note, root.octave).value, time, ChordDuration, 70)];
      notes := notes + [NoteEvent(1, 0, MidiNumber(third.note, third.octave).value, time, ChordDuration, 70)];
      notes := notes + [NoteEvent(1, 0, MidiNumber(fifth.note, fifth.octave).value, time, ChordDuration, 70)];
    }
  }

  /** One pass of the chord loop's outer loop: the four progression slots of
      progression cycle `cycle`, bars 4 * cycle to 4 * cycle + 3, each advancing the
      time cursor by a bar whether or not it emits. */
  method CycleChords(scale: seq<ScaleDegree>, progression: seq<nat>, cycle: nat,
                   time0: nat, events0: seq<NoteEvent>) returns (time: nat, events: seq<NoteEvent>)
    requires ValidScale(scale) && ValidProgression(progression)
    requires time0 == 16 * (4 * cycle) && events0 == ChordEvents(scale, progression, 4 * cycle)
    ensures time == 16 * (4 * (cycle + 1))
    ensures events == ChordEvents(scale, progression, 4 * (cycle + 1))
  {
    time, events := time0, events0;
    var j := 0;
    ghost var slot := 4 * cycle;
    while j < |progression|
      invariant 0 <= j <= 4 && slot == 4 * cycle + j
      invariant time == 16 * slot
      invariant events == ChordEvents(scale, progression, slot)
    {
      ChordEventsStep(scale, progression, cycle, j);
      var notes := SlotNotes(scale, progression[j], time, slot);
      events := events + notes;
      time := time + ChordDuration;
      j := j + 1;
      slot := slot + 1;
    }
    assert slot == 4 * (cycle + 1);
    assert j == 4;
  }

  /** The chord loop of generate_midi: for each of the length // 4 progression
      cycles and each degree of the progression, emit the triad on that degree (when
      its root is inside the scale) at the time cursor, then advance the cursor by a
      bar of four beats. */
  method ChordTrack(scale: seq<ScaleDegree>, scaleType: string, length: int) returns (events: seq<NoteEvent>)
    requires ValidScale(scale)
    ensures events == ChordEvents(scale, ChordProgression(scaleType), 4 * Cycles(length))
  {
    events := [];
    var time := 0;
    var progression := ChordProgression(scaleType);
    var cycle := 0;
    while cycle < length / 4
      invariant 0 <= cycle <= Cycles(length)
      invariant time == 16 * (4 * cycle)
      invariant events == ChordEvents(scale, progression, 4 * cycle)
    {
      time, events := CycleChords(scale, progression, cycle, time, events);
      cycle := cycle + 1;
    }
    assert cycle == Cycles(length);
  }

  // ---------------------------------------------------------------------------
  // Drums: the drum pattern mapped to percussion notes

  /** Every hit's voice has a key in DRUM_NOTES. */
  predicate KnownVoices(hits: seq<Hit>)
  {
    forall i :: 0 <= i < |hits| ==> hits[i].voice in DrumNotes
  }

  /** A drum note: track 2, percussion channel 9, the voice's key, a quarter beat
      long, velocity 100. */
  function DrumEvent(h: Hit): NoteEvent
    requires h.voice in DrumNotes
  {
    NoteEvent(2, 9, DrumNotes[h.voice], h.offset, 1, 100)
  }

  /** The drum notes of a list of hits, in order. */
  function HitEvents(hits: seq<Hit>): (events: seq<NoteEvent>)
    requires KnownVoices(hits)
    ensures |events| == |hits|
  {
    if hits == [] then [] else
      HitEvents(hits[..|hits| - 1]) + [DrumEvent(hits[|hits| - 1])]
  }

  /** Every voice of the pattern has a key in DRUM_NOTES. */
  lemma TiledKnownVoices(measures: nat)
    ensures KnownVoices(Tiled(measures))
  {
    if measures > 0 {
      TiledAt(measures, 0);
    }
    forall k | 0 <= k < |Tiled(measures)|
      ensures Tiled(measures)[k].voice in DrumNotes
    {
      TiledAt(measures, k);
    }
  }

  /** The drum notes of `measures` measures of the pattern. */
  function DrumEvents(measures: nat): seq<NoteEvent>
  {
    TiledKnownVoices(measures);
    HitEvents(Tiled(measures))
  }

  /** Drum note k is the note of hit k. */
  lemma {:induction false} HitEventsAt(hits: seq<Hit>, k: nat)
    requires KnownVoices(hits) && k < |hits|
    ensures HitEvents(hits)[k] == DrumEvent(hits[k])
  {
    if k < |hits| - 1 {
      HitEventsAt(hits[..|hits| - 1], k);
    }
  }

  /** The drum track holds twelve notes per measure of the pattern, all within the
      first bar: note k is hit k % 12 of the measure, on track 2, channel 9, with the
      voice's key, a quarter beat at velocity 100, at the hit's offset, which lies
      between beat 0 and beat 3.5. */
  lemma DrumEventsAt(measures: nat, k: nat)
    requires k < 12 * measures
    ensures |DrumEvents(measures)| == 12 * measures
    ensures DrumEvents(measures)[k] == DrumEvent(MeasureHits[k % 12])
    ensures DrumEvents(measures)[k].track == 2 && DrumEvents(measures)[k].channel == 9
    ensures DrumEvents(measures)[k].duration == 1 && DrumEvents(measures)[k].velocity == 100
    ensures DrumEvents(measures)[k].start <= 14
  {
    TiledKnownVoices(measures);
    TiledAt(measures, k);
    HitEventsAt(Tiled(measures), k);
  }

  /** The drum loop of generate_midi: generate length // 4 measures of the
      pattern and emit one percussion note per hit. */
  method DrumTrack(length: int) returns (events: seq<NoteEvent>)
    ensures events == DrumEvents(Cycles(length))
  {
    var drumPattern := GenerateDrumPattern(length / 4);
    TiledKnownVoices(Cycles(length));
    events := [];
    var i := 0;
    while i < |drumPattern|
      invariant i <= |drumPattern| && KnownVoices(drumPattern[..i])
      invariant events == HitEvents(drumPattern[..i])
    {
      var hit := drumPattern[i];
      assert drumPattern[..i + 1][..i] == drumPattern[..i];
      events := events + [NoteEvent(2, 9, DrumNotes[hit.voice], hit.offset, 1, 100)];
      i := i + 1;
    }
    assert drumPattern[..i] == drumPattern;
  }

  // ---------------------------------------------------------------------------
  // generate_midi: the three tracks over the two-octave scale

  /** The instrument of each track: piano, strings, piano. */
  const Programs: seq<nat> := [0, 48, 0]

  /** What generate_midi hands the MIDI writer: the tempo and instrument of the
      three tracks and the note events of the melody, chord and drum tracks. */
  datatype Score = Score(tempo: int, programs: seq<nat>, melody: seq<NoteEvent>, chords: seq<NoteEvent>, drums: seq<NoteEvent>)

  /** What generate_midi hands the MIDI writer, or the error get_scale raises, for
      its arguments and the random draws of the melody. */
  function Composition(tempo: int, key: string, scaleType: string, baseOctave: int, length: int,
                       enableChords: bool, enableDrums: bool, draws: seq<Draw>): Result<Score, ScaleError>
    requires NoteCount(length) <= |draws|
  {
    match ExpectedScale(key, scaleType, 2, baseOctave)
    case Err(e) => Err(e)
    case Ok(scale) =>
      ScaleShape(key, scaleType, 2, baseOctave);
      ProgressionRootsFit(scale, scaleType);
      Ok(Score(tempo, Programs,
               MelodyEvents(scale, draws, NoteCount(length)),
               if enableChords then ChordEvents(scale, ChordProgression(scaleType), 4 * Cycles(length)) else [],
               if enableDrums then DrumEvents(Cycles(length)) else []))
  }

  /** generate_midi: build the two-octave scale, then the melody, the chords when
      enabled and the drums when enabled. */
  method GenerateMidi(tempo: int, key: string, scaleType: string, baseOctave: int, length: int,
                      enableChords: bool, enableDrums: bool, draws: seq<Draw>) returns (r: Result<Score, ScaleError>)
    requires NoteCount(length) <= |draws|
    ensures r == Composition(tempo, key, scaleType, baseOctave, length, enableChords, enableDrums, draws)
  {
    var scale :- GetScale(key, scaleType, 2, baseOctave);
    ScaleShape(key, scaleType, 2, baseOctave);
    var melody := MelodyTrack(scale, length, draws);
    var chords := [];
    if enableChords {
      chords := ChordTrack(scale, scaleType, length);
    }
    var drums := [];
    if enableDrums {
      drums := DrumTrack(length);
    }
    r := Ok(Score(tempo, Programs, melody, chords, drums));
  }

  /** generate_midi fails exactly when get_scale does: for an unknown key, or for a
      scale type other than "major" and "minor". */
  lemma CompositionFailures(tempo: int, key: string, scaleType: string, baseOctave: int, length: int,
                            enableChords: bool, enableDrums: bool, draws: seq<Draw>)
    requires NoteCount(length) <= |draws|
    ensures Composition(tempo, key, scaleType, baseOctave, length, enableChords, enableDrums, draws).Err? <==>
      key !in Notes || Intervals(scaleType).None?
    ensures key !in Notes ==>
      Composition(tempo, key, scaleType, baseOctave, length, enableChords, enableDrums, draws) == Err(UnknownKey(key))
    ensures key in Notes && Intervals(scaleType).None? ==>
      Composition(tempo, key, scaleType, baseOctave, length, enableChords, enableDrums, draws) == Err(UnknownScaleType(scaleType))
  {
    ScaleFailures(key, scaleType, 2, baseOctave);
  }

  /** A successful composition has NoteCount(length) melody notes (none for a
      negative length); twelve chord notes per progression cycle of four bars
      (three per bar) when chords are enabled; and twelve drum notes per measure of
      the pattern when drums are enabled (DrumEventsAt places them all in the first
      bar). The three tracks play programs 0, 48 and 0 at the tempo. */
  lemma CompositionSizes(tempo: int, key: string, scaleType: string, baseOctave: int, length: int,
                         enableChords: bool, enableDrums: bool, draws: seq<Draw>)
    requires NoteCount(length) <= |draws|
    requires Composition(tempo, key, scaleType, baseOctave, length, enableChords, enableDrums, draws).Ok?
    ensures var score := Composition(tempo, key, scaleType, baseOctave, length, enableChords, enableDrums, draws).value;
      && score.tempo == tempo && score.programs == [0, 48, 0]
      && |score.melody| == NoteCount(length)
      && |score.chords| == (if enableChords then 12 * Cycles(length) else 0)
      && |score.drums| == (if enableDrums then 12 * Cycles(length) else 0)
  {
    var scale := ExpectedScale(key, scaleType, 2, baseOctave).value;
    ScaleShape(key, scaleType, 2, baseOctave);
    ProgressionRootsFit(scale, scaleType);
    ChordEventsLength(scale, ChordProgression(scaleType), 4 * Cycles(length));
    if Cycles(length) > 0 {
      DrumEventsAt(Cycles(length), 0);
    }
  }

  /** An index of the two-octave scale lies in octave block baseOctave or baseOctave + 1. */
  lemma TwoOctaves(idx: nat, baseOctave: int)
    requires idx < 14
    ensures 12 * (baseOctave + 1) <= 12 * (baseOctave + idx / 7 + 1)
    ensures 12 * (baseOctave + idx / 7 + 2) <= 12 * (baseOctave + 3)
  {
  }

  /** Every melody note sounds within the two octaves starting at base_octave:
      between 12 * (base_octave + 1) and 12 * (base_octave + 3) - 1. */
  lemma MelodyPitchRange(tempo: int, key: string, scaleType: string, baseOctave: int, length: int,
                         enableChords: bool, enableDrums: bool, draws: seq<Draw>, i: nat)
    requires NoteCount(length) <= |draws|
    requires Composition(tempo, key, scaleType, baseOctave, length, enableChords, enableDrums, draws).Ok?
    requires i < NoteCount(length)
    ensures var score := Composition(tempo, key, scaleType, baseOctave, length, enableChords, enableDrums, draws).value;
      && i < |score.melody|
      && 12 * (baseOctave + 1) <= score.melody[i].pitch < 12 * (baseOctave + 3)
  {
    var scale := ExpectedScale(key, scaleType, 2, baseOctave).value;
    ScaleShape(key, scaleType, 2, baseOctave);
    MelodyEventsAt(scale, draws, NoteCount(length), i);
    var idx := Walk(|scale|, Picks(draws, NoteCount(length)))[i];
    assert MelodyEvents(scale, draws, NoteCount(length))[i].pitch == PitchOf(scale[idx]);
    ScalePitchRange(key, scaleType, 2, baseOctave, idx);
    TwoOctaves(idx, baseOctave);
  }

  /** Every chord note sounds within the same two octaves. */
  lemma ChordPitchRange(tempo: int, key: string, scaleType: string, baseOctave: int, length: int,
                        enableDrums: bool, draws: seq<Draw>, k: nat)
    requires NoteCount(length) <= |draws|
    requires Composition(tempo, key, scaleType, baseOctave, length, true, enableDrums, draws).Ok?
    requires k < 12 * Cycles(length)
    ensures var score := Composition(tempo, key, scaleType, baseOctave, length, true, enableDrums, draws).value;
      && k < |score.chords|
      && 12 * (baseOctave + 1) <= score.chords[k].pitch < 12 * (baseOctave + 3)
  {
    var scale := ExpectedScale(key, scaleType, 2, baseOctave).value;
    ScaleShape(key, scaleType, 2, baseOctave);
    var progression := ChordProgression(scaleType);
    ProgressionRootsFit(scale, scaleType);
    ChordEventsAt(scale, progression, 4 * Cycles(length), k);
    var idx := TriadIndex(|scale|, progression[(k / 3) % 4], k % 3);
    assert ChordEvents(scale, progression, 4 * Cycles(length))[k].pitch == PitchOf(scale[idx]);
    ScalePitchRange(key, scaleType, 2, baseOctave, idx);
    TwoOctaves(idx, baseOctave);
  }
}
