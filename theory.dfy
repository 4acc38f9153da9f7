/** Scale building and pitch mapping: get_scale, get_chord_progression and
    note_to_midi_number of music_generator.py. */
module Theory {
  import opened Wrappers

  /** The chromatic note names, in ascending order from C. */
  const Notes: seq<string> := ["C", "C#", "D", "D#", "E", "F", "F#", "G", "G#", "A", "A#", "B"]

  /** The semitone offset of each note name above C, as note_to_midi_number's own table gives it. */
  const NoteOffsets: map<string, int> :=
    map["C" := 0, "C#" := 1, "D" := 2, "D#" := 3, "E" := 4, "F" := 5,
        "F#" := 6, "G" := 7, "G#" := 8, "A" := 9, "A#" := 10, "B" := 11]

  /** The failures of the scale builder: an unknown key name or an unknown scale type. */
  datatype ScaleError = UnknownKey(key: string) | UnknownScaleType(scaleType: string)

  /** One entry of a scale: a note name with the octave number it is played in. */
  datatype ScaleDegree = ScaleDegree(note: string, octave: int)

  /** Every note name of the scale is one of the twelve chromatic names. */
  predicate ValidScale(scale: seq<ScaleDegree>)
  {
    forall i :: 0 <= i < |scale| ==> scale[i].note in Notes
  }

  /** Position of the first occurrence of `x` in `s` (list.index), or None where list.index raises. */
  function IndexOf(s: seq<string>, x: string): (r: Option<nat>)
    ensures r.None? <==> x !in s
    ensures r.Some? ==> r.value < |s| && s[r.value] == x && x !in s[..r.value]
  {
    if s == [] then None
    else if s[0] == x then Some(0)
    else match IndexOf(s[1..], x)
      case None => None
      case Some(i) =>
        assert s[..i + 1] == [s[0]] + s[1..][..i];
        Some(i + 1)
  }

  /** The sum of a sequence of semitone steps. */
  function Sum(s: seq<nat>): nat
  {
    if s == [] then 0 else Sum(s[..|s| - 1]) + s[|s| - 1]
  }

  /** The interval table: the seven semitone steps of a major or a minor scale,
      None for any other scale type (where the table lookup raises). */
  function Intervals(scaleType: string): (r: Option<seq<nat>>)
    ensures r.Some? <==> scaleType == "major" || scaleType == "minor"
    ensures r.Some? ==> |r.value| == 7
  {
    if scaleType == "major" then Some([2, 2, 1, 2, 2, 2, 1])
    else if scaleType == "minor" then Some([2, 1, 2, 2, 1, 2, 2])
    else None
  }

  /** The first `j` notes of one octave block: the walk over the chromatic names
      that starts at `start` and takes the steps of `pattern`, every entry in
      octave `octave`. */
  function OctaveWalk(start: nat, pattern: seq<nat>, octave: int, j: nat): seq<ScaleDegree>
    requires start < 12 && j <= |pattern|
  {
    if j == 0 then
      []
    else
      OctaveWalk(start, pattern, octave, j - 1) + [ScaleDegree(Notes[(start + Sum(pattern[..j - 1])) % 12], octave)]
  }

  /** The blocks for octaves baseOctave .. baseOctave + octaves - 1, concatenated. */
  function Blocks(start: nat, pattern: seq<nat>, octaves: nat, baseOctave: int): seq<ScaleDegree>
    requires start < 12 && |pattern| == 7
  {
    if octaves == 0 then []
    else Blocks(start, pattern, octaves - 1, baseOctave) + OctaveWalk(start, pattern, baseOctave + octaves - 1, 7)
  }

  /** What get_scale's octave loop produces from the key's chromatic index `start`. */
  function ScaleFrom(start: nat, scaleType: string, octaves: int, baseOctave: int)
    : Result<seq<ScaleDegree>, ScaleError>
    requires start < 12
  {
    if octaves <= 0 then Ok([])
    else match Intervals(scaleType)
      case None => Err(UnknownScaleType(scaleType))
      case Some(pattern) => Ok(Blocks(start, pattern, octaves, baseOctave))
  }

  /** What get_scale returns or raises for its four arguments. */
  function ExpectedScale(key: string, scaleType: string, octaves: int, baseOctave: int)
    : Result<seq<ScaleDegree>, ScaleError>
  {
    match IndexOf(Notes, key)
    case None => Err(UnknownKey(key))
    case Some(start) => ScaleFrom(start, scaleType, octaves, baseOctave)
  }

  /** Extending a prefix by one element adds that element to its sum. */
  lemma SumPrefixStep(s: seq<nat>, j: nat)
    requires j < |s|
    ensures Sum(s[..j + 1]) == Sum(s[..j]) + s[j]
  {
    assert s[..j + 1][..j] == s[..j];
  }

  /** The note index after a step, reduced modulo 12. */
  lemma ModStep(start: nat, s: nat, step: nat)
    ensures ((start + s) % 12 + step) % 12 == (start + s + step) % 12
  {
  }

  /** The inner loop of get_scale: one octave of notes, walking `pattern` from
      `start` and advancing the chromatic index modulo 12 after each note. */
  method OctaveNotes(start: nat, pattern: seq<nat>, octave: int) returns (octaveNotes: seq<ScaleDegree>)
    requires start < 12 && |pattern| == 7
    ensures octaveNotes == OctaveWalk(start, pattern, octave, 7)
  {
    var current := start;
    octaveNotes := [];
    var j := 0;
    while j < |pattern|
      invariant 0 <= j <= 7
      invariant current == (start + Sum(pattern[..j])) % 12
      invariant octaveNotes == OctaveWalk(start, pattern, octave, j)
    {
      octaveNotes := octaveNotes + [ScaleDegree(Notes[current], octave)];
      assert octaveNotes == OctaveWalk(start, pattern, octave, j + 1);
      SumPrefixStep(pattern, j);
      ModStep(start, Sum(pattern[..j]), pattern[j]);
      current := (current + pattern[j]) % 12;
      j := j + 1;
    }
  }

  /** The octave loop of get_scale, from the key's chromatic index on: the interval
      table is consulted inside the loop, so an unknown scale type fails only when
      at least one octave is requested. */
  method ScaleBlocks(start: nat, scaleType: string, octaves: int, baseOctave: int)
    returns (r: Result<seq<ScaleDegree>, ScaleError>)
    requires start < 12
    ensures r == ScaleFrom(start, scaleType, octaves, baseOctave)
  {
    var scaleNotes: seq<ScaleDegree> := [];
    var octave := 0;
    ghost var table := Intervals(scaleType);
    while octave < octaves
      invariant 0 <= octave && (octaves <= 0 ==> octave == 0) && (octaves >= 0 ==> octave <= octaves)
      invariant octave == 0 ==> scaleNotes == []
      invariant octave > 0 ==> table.Some? && scaleNotes == Blocks(start, table.value, octave, baseOctave)
    {
      var intervals := Intervals(scaleType);
      if intervals.None? {
        return Err(UnknownScaleType(scaleType));
      }
      var octaveNotes := OctaveNotes(start, intervals.value, baseOctave + octave);
      scaleNotes := scaleNotes + octaveNotes;
      assert scaleNotes == Blocks(start, intervals.value, octave + 1, baseOctave);
      octave := octave + 1;
    }
    r := Ok(scaleNotes);
  }

  /** get_scale: the key's chromatic index (list.index fails for an unknown name),
      then one block of seven notes per octave. */
  method GetScale(key: string, scaleType: string, octaves: int, baseOctave: int)
    returns (r: Result<seq<ScaleDegree>, ScaleError>)
    ensures r == ExpectedScale(key, scaleType, octaves, baseOctave)
  {
    var found := IndexOf(Notes, key);
    if found.None? {
      return Err(UnknownKey(key));
    }
    r := ScaleBlocks(found.value, scaleType, octaves, baseOctave);
  }

  // ---------------------------------------------------------------------------
  // Properties of the scale

  /** Each octave block holds one note per interval step. */
  lemma {:induction false} OctaveWalkLength(start: nat, pattern: seq<nat>, octave: int, j: nat)
    requires start < 12 && j <= |pattern|
    ensures |OctaveWalk(start, pattern, octave, j)| == j
  {
    if j > 0 {
      OctaveWalkLength(start, pattern, octave, j - 1);
    }
  }

  /** Entry i of a block is the note reached after the first i interval steps. */
  lemma {:induction false} OctaveWalkAt(start: nat, pattern: seq<nat>, octave: int, j: nat, i: nat)
    requires start < 12 && j <= |pattern| && i < j
    ensures |OctaveWalk(start, pattern, octave, j)| == j
    ensures OctaveWalk(start, pattern, octave, j)[i] ==
      ScaleDegree(Notes[(start + Sum(pattern[..i])) % 12], octave)
  {
    OctaveWalkLength(start, pattern, octave, j);
    if i < j - 1 {
      OctaveWalkAt(start, pattern, octave, j - 1, i);
    }
  }

  /** Quotient and remainder of a position inside the block of octave q. */
  lemma BlockPosition(q: nat, i: nat)
    requires i < 7
    ensures (7 * q + i) / 7 == q && (7 * q + i) % 7 == i
  {
  }

  /** Each scale of `octaves` blocks holds seven entries per octave. */
  lemma {:induction false} BlocksLength(start: nat, pattern: seq<nat>, octaves: nat, baseOctave: int)
    requires start < 12 && |pattern| == 7
    ensures |Blocks(start, pattern, octaves, baseOctave)| == 7 * octaves
  {
    if octaves > 0 {
      BlocksLength(start, pattern, octaves - 1, baseOctave);
      OctaveWalkLength(start, pattern, baseOctave + octaves - 1, 7);
    }
  }

  /** Closed form of the whole scale: entry k lies in octave baseOctave + k / 7 and
      is the note reached after the first k % 7 interval steps from the key. */
  lemma {:induction false} BlocksAt(start: nat, pattern: seq<nat>, octaves: nat, baseOctave: int, k: nat)
    requires start < 12 && |pattern| == 7 && k < 7 * octaves
    ensures |Blocks(start, pattern, octaves, baseOctave)| == 7 * octaves
    ensures Blocks(start, pattern, octaves, baseOctave)[k] ==
      ScaleDegree(Notes[(start + Sum(pattern[..k % 7])) % 12], baseOctave + k / 7)
  {
    BlocksLength(start, pattern, octaves, baseOctave);
    BlocksLength(start, pattern, octaves - 1, baseOctave);
    if k < 7 * (octaves - 1) {
      BlocksAt(start, pattern, octaves - 1, baseOctave, k);
    } else {
      var i := k - 7 * (octaves - 1);
      BlockPosition(octaves - 1, i);
      OctaveWalkAt(start, pattern, baseOctave + octaves - 1, 7, i);
    }
  }

  /** Both interval tables close the octave: their seven steps add up to twelve
      semitones, so the walk comes back to the key after a full block. */
  lemma IntervalsCloseOctave(scaleType: string, start: nat)
    requires Intervals(scaleType).Some? && start < 12
    ensures Sum(Intervals(scaleType).value) == 12
    ensures (start + Sum(Intervals(scaleType).value)) % 12 == start
  {
    var p := Intervals(scaleType).value;
    assert p[..0] == [];
    SumPrefixStep(p, 0);
    SumPrefixStep(p, 1);
    SumPrefixStep(p, 2);
    SumPrefixStep(p, 3);
    SumPrefixStep(p, 4);
    SumPrefixStep(p, 5);
    SumPrefixStep(p, 6);
    assert p[..7] == p;
  }

  /** get_scale fails exactly for an unknown key, or for an unknown scale type when
      at least one octave is requested; the key is looked up first. */
  lemma ScaleFailures(key: string, scaleType: string, octaves: int, baseOctave: int)
    ensures ExpectedScale(key, scaleType, octaves, baseOctave).Err? <==>
      key !in Notes || (octaves > 0 && Intervals(scaleType).None?)
    ensures key !in Notes ==> ExpectedScale(key, scaleType, octaves, baseOctave) == Err(UnknownKey(key))
    ensures key in Notes && octaves > 0 && Intervals(scaleType).None? ==>
      ExpectedScale(key, scaleType, octaves, baseOctave) == Err(UnknownScaleType(scaleType))
    ensures key in Notes && octaves <= 0 ==> ExpectedScale(key, scaleType, octaves, baseOctave) == Ok([])
  {
  }

  /** A successful octave loop returns octaves * 7 entries; entry k lies in octave
      baseOctave + k / 7 and is named by the walk of k % 7 interval steps from the key. */
  lemma ScaleEntry(start: nat, scaleType: string, octaves: int, baseOctave: int, k: int)
    requires start < 12 && Intervals(scaleType).Some? && 0 <= k < 7 * octaves
    ensures ScaleFrom(start, scaleType, octaves, baseOctave).Ok?
    ensures |ScaleFrom(start, scaleType, octaves, baseOctave).value| == 7 * octaves
    ensures ScaleFrom(start, scaleType, octaves, baseOctave).value[k] ==
      ScaleDegree(Notes[(start + Sum(Intervals(scaleType).value[..k % 7])) % 12], baseOctave + k / 7)
  {
    BlocksAt(start, Intervals(scaleType).value, octaves, baseOctave, k);
  }

  /** Every octave block restarts at the key: each block's first entry is the key's
      name. */
  lemma ScaleBlocksStartAtKey(start: nat, scaleType: string, octaves: int, baseOctave: int, q: nat)
    requires start < 12 && Intervals(scaleType).Some? && q < octaves
    ensures ScaleFrom(start, scaleType, octaves, baseOctave).Ok?
    ensures |ScaleFrom(start, scaleType, octaves, baseOctave).value| == 7 * octaves
    ensures ScaleFrom(start, scaleType, octaves, baseOctave).value[7 * q] == ScaleDegree(Notes[start], baseOctave + q)
  {
    assert 7 * q < 7 * octaves;
    ScaleEntry(start, scaleType, octaves, baseOctave, 7 * q);
    BlockPosition(q, 0);
    assert Intervals(scaleType).value[..0] == [];
  }

  /** All octave blocks hold the same note names: entry k + 7 has entry k's note
      name one octave higher. */
  lemma ScaleBlocksRepeat(start: nat, scaleType: string, octaves: int, baseOctave: int, k: nat)
    requires start < 12 && Intervals(scaleType).Some? && k + 7 < 7 * octaves
    ensures ScaleFrom(start, scaleType, octaves, baseOctave).Ok?
    ensures |ScaleFrom(start, scaleType, octaves, baseOctave).value| == 7 * octaves
    ensures var scale := ScaleFrom(start, scaleType, octaves, baseOctave).value;
      scale[k + 7] == ScaleDegree(scale[k].note, scale[k].octave + 1)
  {
    ScaleEntry(start, scaleType, octaves, baseOctave, k);
    ScaleEntry(start, scaleType, octaves, baseOctave, k + 7);
    BlockPosition(k / 7, k % 7);
    BlockPosition(k / 7 + 1, k % 7);
  }

  /** Every note name of a successfully built scale is a chromatic name, so the pitch
      mapper's table lookup never fails on it. */
  lemma ScaleIsValid(start: nat, scaleType: string, octaves: int, baseOctave: int)
    requires start < 12 && ScaleFrom(start, scaleType, octaves, baseOctave).Ok?
    ensures ValidScale(ScaleFrom(start, scaleType, octaves, baseOctave).value)
  {
    if octaves > 0 {
      var scale := ScaleFrom(start, scaleType, octaves, baseOctave).value;
      ScaleEntry(start, scaleType, octaves, baseOctave, 0);
      forall k | 0 <= k < |scale| ensures scale[k].note in Notes {
        ScaleEntry(start, scaleType, octaves, baseOctave, k);
      }
    }
  }

  /** A scale get_scale returns holds 7 entries per requested octave, all with
      chromatic names. */
  lemma ScaleShape(key: string, scaleType: string, octaves: int, baseOctave: int)
    requires ExpectedScale(key, scaleType, octaves, baseOctave).Ok?
    ensures ValidScale(ExpectedScale(key, scaleType, octaves, baseOctave).value)
    ensures |ExpectedScale(key, scaleType, octaves, baseOctave).value| == if octaves <= 0 then 0 else 7 * octaves
  {
    match IndexOf(Notes, key)
    case Some(start) =>
      ScaleIsValid(start, scaleType, octaves, baseOctave);
      if octaves > 0 {
        ScaleEntry(start, scaleType, octaves, baseOctave, 0);
      }
  }

  /** A is entry 9 of the chromatic list. */
  lemma IndexOfA()
    ensures IndexOf(Notes, "A") == Some(9)
  {
    assert Notes[9] == "A";
    NotesDistinct(IndexOf(Notes, "A").value, 9);
  }

  /** From A (entry 9), the major pattern's first step reaches B (entry 11),
      in the block's octave. */
  lemma AMajorSecond()
    ensures ScaleFrom(9, "major", 1, 4).Ok? && |ScaleFrom(9, "major", 1, 4).value| == 7
    ensures ScaleFrom(9, "major", 1, 4).value[1] == ScaleDegree(Notes[11], 4)
  {
    var p := Intervals("major").value;
    assert Sum(p[..1]) == 2 by {
      assert p[0] == 2 && p[..0] == [];
      SumPrefixStep(p, 0);
    }
    ScaleEntry(9, "major", 1, 4, 1);
    assert 1 % 7 == 1 && 1 / 7 == 0 && (9 + 2) % 12 == 11;
  }

  /** From A (entry 9), the major pattern's first two steps reach C# (entry 1),
      still in the block's octave. */
  lemma AMajorThird()
    ensures ScaleFrom(9, "major", 1, 4).Ok? && |ScaleFrom(9, "major", 1, 4).value| == 7
    ensures ScaleFrom(9, "major", 1, 4).value[2] == ScaleDegree(Notes[1], 4)
  {
    var p := Intervals("major").value;
    assert Sum(p[..2]) == 4 by {
      assert p[0] == 2 && p[1] == 2 && p[..0] == [];
      SumPrefixStep(p, 0);
      SumPrefixStep(p, 1);
    }
    ScaleEntry(9, "major", 1, 4, 2);
    assert 2 % 7 == 2 && 2 / 7 == 0 && (9 + 4) % 12 == 1;
  }

  /** The octave number of an entry is its block's, even after the chromatic walk
      wraps past B: A major in octave 4 runs A4, B4, C#4, and C#4 sounds lower
      than both the B4 it directly follows and the key A4. */
  lemma ScaleWrapKeepsOctave()
    ensures ExpectedScale("A", "major", 1, 4).Ok?
    ensures |ExpectedScale("A", "major", 1, 4).value| == 7
    ensures ExpectedScale("A", "major", 1, 4).value[0] == ScaleDegree("A", 4)
    ensures ExpectedScale("A", "major", 1, 4).value[1] == ScaleDegree("B", 4)
    ensures ExpectedScale("A", "major", 1, 4).value[2] == ScaleDegree("C#", 4)
    ensures PitchOf(ScaleDegree("A", 4)) == 69 && PitchOf(ScaleDegree("B", 4)) == 71
    ensures PitchOf(ScaleDegree("C#", 4)) == 61
  {
    IndexOfA();
    ScaleBlocksStartAtKey(9, "major", 1, 4, 0);
    AMajorSecond();
    AMajorThird();
    assert Notes[1] == "C#" && Notes[9] == "A" && Notes[11] == "B";
    OffsetsMatchNotes();
  }

  // ---------------------------------------------------------------------------
  // Chord progressions

  /** get_chord_progression: I-IV-V-I for "major", i-vi-iv-v for every other scale type. */
  function ChordProgression(scaleType: string): (r: seq<nat>)
    ensures |r| == 4 && r[0] == 1
    ensures r[3] == 1 <==> scaleType == "major"
    ensures forall i :: 0 <= i < |r| ==> 1 <= r[i] <= 7
  {
    if scaleType == "major" then [1, 4, 5, 1] else [1, 6, 4, 5]
  }

  // ---------------------------------------------------------------------------
  // Pitch mapping

  /** The offset table of note_to_midi_number agrees with the chromatic list:
      every listed name has its own position as offset, and no other name is in it. */
  lemma OffsetsMatchNotes()
    ensures forall i :: 0 <= i < |Notes| ==> Notes[i] in NoteOffsets && NoteOffsets[Notes[i]] == i
    ensures forall n :: n in NoteOffsets ==> n in Notes
  {
  }

  /** No name occurs twice in the chromatic list. */
  lemma NotesDistinct(i: nat, j: nat)
    requires i < |Notes| && j < |Notes| && Notes[i] == Notes[j]
    ensures i == j
  {
    OffsetsMatchNotes();
  }

  /** note_to_midi_number: 60 for C in octave 4, twelve per octave and one per
      semitone; the table lookup fails for a name outside the chromatic list. */
  function MidiNumber(note: string, octave: int): Option<int>
  {
    if note in NoteOffsets then Some(60 + NoteOffsets[note] + (octave - 4) * 12) else None
  }

  /** note_to_midi_number succeeds exactly on the chromatic names, and its result
      lies in the twelve pitches of octave block octave + 1, at the position of the
      name in the chromatic list. */
  lemma MidiNumberSpec(note: string, octave: int)
    ensures MidiNumber(note, octave).Some? <==> note in Notes
    ensures MidiNumber(note, octave).Some? ==>
      && 12 * (octave + 1) <= MidiNumber(note, octave).value < 12 * (octave + 2)
      && Notes[MidiNumber(note, octave).value - 12 * (octave + 1)] == note
  {
    OffsetsMatchNotes();
  }

  /** The pitch of a scale entry whose name is in the chromatic list. */
  function PitchOf(d: ScaleDegree): int
    requires d.note in Notes
  {
    MidiNumberSpec(d.note, d.octave);
    MidiNumber(d.note, d.octave).value
  }

  /** The (name, octave) pair a pitch stands for: the inverse of MidiNumber. */
  function NoteOfPitch(p: int): ScaleDegree
  {
    ScaleDegree(Notes[p % 12], p / 12 - 1)
  }

  /** Middle C is 60, and raising the octave by one raises every pitch by twelve. */
  lemma MidiNumberSteps(note: string, octave: int)
    requires note in Notes
    ensures MidiNumber("C", 4) == Some(60)
    ensures MidiNumber(note, octave + 1).value == MidiNumber(note, octave).value + 12
  {
    MidiNumberSpec(note, octave);
    MidiNumberSpec(note, octave + 1);
    MidiNumberSpec("C", 4);
    var i := MidiNumber(note, octave).value - 12 * (octave + 1);
    var j := MidiNumber(note, octave + 1).value - 12 * (octave + 2);
    NotesDistinct(i, j);
    assert "C" == Notes[0];
  }

  /** Entry k of a scale get_scale returns sounds in octave block baseOctave + k / 7:
      its pitch lies in the twelve semitones starting at 12 * (baseOctave + k / 7 + 1). */
  lemma ScalePitchRange(key: string, scaleType: string, octaves: int, baseOctave: int, k: nat)
    requires ExpectedScale(key, scaleType, octaves, baseOctave).Ok?
    requires k < |ExpectedScale(key, scaleType, octaves, baseOctave).value|
    ensures ExpectedScale(key, scaleType, octaves, baseOctave).value[k].note in Notes
    ensures 12 * (baseOctave + k / 7 + 1) <= PitchOf(ExpectedScale(key, scaleType, octaves, baseOctave).value[k])
    ensures PitchOf(ExpectedScale(key, scaleType, octaves, baseOctave).value[k]) < 12 * (baseOctave + k / 7 + 2)
  {
    ScaleShape(key, scaleType, octaves, baseOctave);
    var d := ExpectedScale(key, scaleType, octaves, baseOctave).value[k];
    match IndexOf(Notes, key)
    case Some(start) =>
      ScaleEntry(start, scaleType, octaves, baseOctave, k);
      MidiNumberSpec(d.note, d.octave);
  }

  /** The pitch of chromatic name i in octave o: twelve per octave block, one per
      semitone. */
  lemma PitchOfIndex(i: nat, octave: int)
    requires i < 12
    ensures PitchOf(ScaleDegree(Notes[i], octave)) == 12 * (octave + 1) + i
  {
    OffsetsMatchNotes();
  }

  /** A prefix of a sequence of naturals sums to at most the whole sequence. */
  lemma {:induction false} SumPrefixAtMost(s: seq<nat>, j: nat)
    requires j <= |s|
    ensures Sum(s[..j]) <= Sum(s)
    decreases |s| - j
  {
    if j < |s| {
      SumPrefixStep(s, j);
      SumPrefixAtMost(s, j + 1);
    } else {
      assert s[..j] == s;
    }
  }

  /** Every step of both interval tables is a semitone or a whole tone. */
  lemma IntervalStep(scaleType: string, j: nat)
    requires Intervals(scaleType).Some? && j < 7
    ensures 1 <= Intervals(scaleType).value[j] <= 2
  {
  }

  /** Two chromatic positions a < b below 24 and less than an octave apart:
      reduced modulo 12, b falls below a exactly when b has passed 12 and a has
      not, and lies above a otherwise. */
  lemma WrapStep(a: nat, b: nat)
    requires a < b < 24 && b < a + 12
    ensures b % 12 < a % 12 <==> a < 12 <= b
    ensures !(a < 12 <= b) ==> a % 12 < b % 12
  {
    if a < 12 {
      assert a % 12 == a;
      if b >= 12 { assert b % 12 == b - 12; } else { assert b % 12 == b; }
    } else {
      assert a % 12 == a - 12 && b % 12 == b - 12;
    }
  }

  /** Entry i of octave block q, as ScaleEntry gives it for index 7 * q + i. */
  lemma ScaleEntryInBlock(start: nat, scaleType: string, octaves: int, baseOctave: int, q: nat, i: nat)
    requires start < 12 && Intervals(scaleType).Some? && q < octaves && i < 7
    ensures ScaleFrom(start, scaleType, octaves, baseOctave).Ok?
    ensures |ScaleFrom(start, scaleType, octaves, baseOctave).value| == 7 * octaves
    ensures ScaleFrom(start, scaleType, octaves, baseOctave).value[7 * q + i] ==
      ScaleDegree(Notes[(start + Sum(Intervals(scaleType).value[..i])) % 12], baseOctave + q)
  {
    assert 7 * q + i < 7 * octaves;
    ScaleEntry(start, scaleType, octaves, baseOctave, 7 * q + i);
    BlockPosition(q, i);
  }

  /** Inside an octave block both neighbours keep the block's octave, so entry i + 1
      of block q sounds lower than entry i exactly when that step carries the
      chromatic walk past B: the walk from the key stands below 12 before the step
      and reaches 12 with it. At every other step of the block the scale rises. */
  lemma ScaleStepDown(start: nat, scaleType: string, octaves: int, baseOctave: int, q: nat, i: nat)
    requires start < 12 && Intervals(scaleType).Some? && q < octaves && i < 6
    ensures ScaleFrom(start, scaleType, octaves, baseOctave).Ok?
    ensures |ScaleFrom(start, scaleType, octaves, baseOctave).value| == 7 * octaves
    ensures ValidScale(ScaleFrom(start, scaleType, octaves, baseOctave).value)
    ensures var scale := ScaleFrom(start, scaleType, octaves, baseOctave).value;
      var p := Intervals(scaleType).value;
      PitchOf(scale[7 * q + i + 1]) < PitchOf(scale[7 * q + i]) <==>
        start + Sum(p[..i]) < 12 <= start + Sum(p[..i + 1])
    ensures var scale := ScaleFrom(start, scaleType, octaves, baseOctave).value;
      var p := Intervals(scaleType).value;
      !(start + Sum(p[..i]) < 12 <= start + Sum(p[..i + 1])) ==>
        PitchOf(scale[7 * q + i]) < PitchOf(scale[7 * q + i + 1])
  {
    var p := Intervals(scaleType).value;
    var scale := ScaleFrom(start, scaleType, octaves, baseOctave).value;
    var a := start + Sum(p[..i]);
    var b := start + Sum(p[..i + 1]);
    ScaleEntryInBlock(start, scaleType, octaves, baseOctave, q, i);
    ScaleEntryInBlock(start, scaleType, octaves, baseOctave, q, i + 1);
    assert a < b < 24 && b < a + 12 by {
      IntervalStep(scaleType, i);
      SumPrefixStep(p, i);
      SumPrefixAtMost(p, i + 1);
      IntervalsCloseOctave(scaleType, start);
    }
    var octave := baseOctave + q;
    assert scale[7 * q + i] == ScaleDegree(Notes[a % 12], octave);
    assert 7 * q + i + 1 == 7 * q + (i + 1);
    assert scale[7 * q + i + 1] == ScaleDegree(Notes[b % 12], octave);
    PitchOfIndex(a % 12, octave);
    PitchOfIndex(b % 12, octave);
    assert PitchOf(scale[7 * q + i]) == 12 * (octave + 1) + a % 12;
    assert PitchOf(scale[7 * q + i + 1]) == 12 * (octave + 1) + b % 12;
    WrapStep(a, b);
    ScaleIsValid(start, scaleType, octaves, baseOctave);
  }

  /** From the last entry of block q to the first of block q + 1 the scale rises:
      the key one octave up lies above every entry of block q, so the only falls
      of a scale are the wraps past B inside a block. */
  lemma ScaleBlockBoundaryRise(start: nat, scaleType: string, octaves: int, baseOctave: int, q: nat)
    requires start < 12 && Intervals(scaleType).Some? && q + 1 < octaves
    ensures ScaleFrom(start, scaleType, octaves, baseOctave).Ok?
    ensures |ScaleFrom(start, scaleType, octaves, baseOctave).value| == 7 * octaves
    ensures ValidScale(ScaleFrom(start, scaleType, octaves, baseOctave).value)
    ensures var scale := ScaleFrom(start, scaleType, octaves, baseOctave).value;
      PitchOf(scale[7 * q + 6]) < PitchOf(scale[7 * (q + 1)])
  {
    var scale := ScaleFrom(start, scaleType, octaves, baseOctave).value;
    var p := Intervals(scaleType).value;
    var a := start + Sum(p[..6]);
    ScaleEntryInBlock(start, scaleType, octaves, baseOctave, q, 6);
    ScaleBlocksStartAtKey(start, scaleType, octaves, baseOctave, q + 1);
    assert a < start + 12 by {
      IntervalStep(scaleType, 6);
      SumPrefixStep(p, 6);
      IntervalsCloseOctave(scaleType, start);
      assert p[..7] == p;
    }
    var octave := baseOctave + q;
    assert scale[7 * q + 6] == ScaleDegree(Notes[a % 12], octave);
    assert scale[7 * (q + 1)] == ScaleDegree(Notes[start], octave + 1);
    PitchOfIndex(a % 12, octave);
    PitchOfIndex(start, octave + 1);
    assert PitchOf(scale[7 * q + 6]) == 12 * (octave + 1) + a % 12;
    assert PitchOf(scale[7 * (q + 1)]) == 12 * (octave + 2) + start;
    ScaleIsValid(start, scaleType, octaves, baseOctave);
  }


  /** Every pitch is the MIDI number of exactly one (name, octave) pair. */
  lemma PitchRoundTrip(p: int)
    ensures MidiNumber(NoteOfPitch(p).note, NoteOfPitch(p).octave) == Some(p)
  {
    var d := NoteOfPitch(p);
    MidiNumberSpec(d.note, d.octave);
    var r := MidiNumber(d.note, d.octave).value;
    NotesDistinct(r - 12 * (d.octave + 1), p % 12);
  }

  /** Mapping a chromatic name and octave to a pitch and back gives them again. */
  lemma NoteRoundTrip(note: string, octave: int)
    requires note in Notes
    ensures NoteOfPitch(MidiNumber(note, octave).value) == ScaleDegree(note, octave)
  {
    MidiNumberSpec(note, octave);
    var r := MidiNumber(note, octave).value;
    assert r % 12 == r - 12 * (octave + 1) && r / 12 == octave + 1;
  }
}
