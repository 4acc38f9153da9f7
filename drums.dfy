/** The percussion part: DRUM_NOTES and generate_drum_pattern of music_generator.py.
    Beat offsets are counted in quarter beats, so 0.5 beat is 2 and 3.5 beats is 14. */
module Drums {

  /** A percussion hit: the voice's name and its offset in quarter beats. */
  datatype Hit = Hit(voice: string, offset: nat)

  /** The General MIDI percussion keys of the four voices. */
  const DrumNotes: map<string, int> := map["kick" := 36, "snare" := 38, "hihat" := 42, "ride" := 51]

  /** The hits of one measure in emission order: for each of the four beats, a
      kick on beats 0 and 2 or a snare on beats 1 and 3, then a hi-hat on the beat
      and one on the following eighth. */
  const MeasureHits: seq<Hit> := [
    Hit("kick", 0), Hit("hihat", 0), Hit("hihat", 2),
    Hit("snare", 4), Hit("hihat", 4), Hit("hihat", 6),
    Hit("kick", 8), Hit("hihat", 8), Hit("hihat", 10),
    Hit("snare", 12), Hit("hihat", 12), Hit("hihat", 14)]

  /** `measures` copies of the measure, one after the other. */
  function Tiled(measures: nat): seq<Hit>
  {
    if measures == 0 then [] else Tiled(measures - 1) + MeasureHits
  }

  /** The number of hits of voice `voice` in `hits`. */
  function CountVoice(hits: seq<Hit>, voice: string): nat
  {
    if hits == [] then 0
    else (if hits[0].voice == voice then 1 else 0) + CountVoice(hits[1..], voice)
  }

  /** The hits that beat `beat` of a measure contributes, three per beat. */
  lemma BeatHits(beat: nat)
    requires beat < 4
    ensures MeasureHits[..3 * beat + 3] == MeasureHits[..3 * beat] +
      (if beat == 0 || beat == 2 then [Hit("kick", 4 * beat)] else [Hit("snare", 4 * beat)]) +
      [Hit("hihat", 4 * beat), Hit("hihat", 4 * beat + 2)]
  {
  }

  /** generate_drum_pattern: for every measure and every beat, append the beat's
      kick or snare and its two hi-hats. No per-measure offset is added, so every
      measure repeats the same offsets 0 .. 3.5 beats. */
  method GenerateDrumPattern(measures: int) returns (pattern: seq<Hit>)
    ensures pattern == Tiled(if measures < 0 then 0 else measures)
  {
    pattern := [];
    var m := 0;
    while m < measures
      invariant 0 <= m && (measures <= 0 ==> m == 0) && (measures >= 0 ==> m <= measures)
      invariant pattern == Tiled(m)
    {
      var beat := 0;
      while beat < 4
        invariant 0 <= beat <= 4
        invariant pattern == Tiled(m) + MeasureHits[..3 * beat]
      {
        BeatHits(beat);
        if beat == 0 || beat == 2 {
          pattern := pattern + [Hit("kick", 4 * beat)];
        }
        if beat == 1 || beat == 3 {
          pattern := pattern + [Hit("snare", 4 * beat)];
        }
        pattern := pattern + [Hit("hihat", 4 * beat)];
        pattern := pattern + [Hit("hihat", 4 * beat + 2)];
        beat := beat + 1;
      }
      assert MeasureHits[..12] == MeasureHits;
      m := m + 1;
    }
  }

  /** The pattern holds twelve hits per measure, and hit k is hit k % 12 of the measure. */
  lemma {:induction false} TiledAt(measures: nat, k: nat)
    requires k < 12 * measures
    ensures |Tiled(measures)| == 12 * measures
    ensures Tiled(measures)[k] == MeasureHits[k % 12]
  {
    if k < 12 * (measures - 1) {
      TiledAt(measures - 1, k);
    } else {
      if measures > 1 {
        TiledAt(measures - 1, 0);
      }
      var i := k - 12 * (measures - 1);
      assert k == 12 * (measures - 1) + i && i < 12;
      assert k % 12 == i;
    }
  }

  /** Every hit of the pattern falls within the first bar, between beat 0 and beat
      3.5, and its voice has a key in DrumNotes. */
  lemma TiledHitsInFirstBar(measures: nat, k: nat)
    requires k < 12 * measures
    ensures |Tiled(measures)| == 12 * measures
    ensures Tiled(measures)[k].offset <= 14
    ensures Tiled(measures)[k].voice in DrumNotes
  {
    TiledAt(measures, k);
  }

  /** Every voice occurs `measures` times as often as in one measure. */
  lemma {:induction false} TiledVoiceCount(measures: nat, voice: string)
    ensures CountVoice(Tiled(measures), voice) == measures * CountVoice(MeasureHits, voice)
  {
    if measures > 0 {
      var c := CountVoice(MeasureHits, voice);
      TiledVoiceCount(measures - 1, voice);
      CountVoiceAppend(Tiled(measures - 1), MeasureHits, voice);
      assert (measures - 1) * c + c == measures * c;
    }
  }

  /** Over `measures` measures there are two kicks, two snares and eight hi-hats
      per measure, and no ride. */
  lemma TiledVoiceCounts(measures: nat)
    ensures CountVoice(Tiled(measures), "kick") == 2 * measures
    ensures CountVoice(Tiled(measures), "snare") == 2 * measures
    ensures CountVoice(Tiled(measures), "hihat") == 8 * measures
    ensures CountVoice(Tiled(measures), "ride") == 0
  {
    TiledVoiceCount(measures, "kick");
    TiledVoiceCount(measures, "snare");
    TiledVoiceCount(measures, "hihat");
    TiledVoiceCount(measures, "ride");
    MeasureKicks();
    MeasureSnares();
    MeasureHiHats();
    MeasureRides();
  }

  /** Counting voices distributes over concatenation. */
  lemma {:induction false} CountVoiceAppend(a: seq<Hit>, b: seq<Hit>, voice: string)
    ensures CountVoice(a + b, voice) == CountVoice(a, voice) + CountVoice(b, voice)
  {
    if a != [] {
      assert (a + b)[1..] == a[1..] + b;
      CountVoiceAppend(a[1..], b, voice);
    } else {
      assert a + b == b;
    }
  }

  /** One measure holds two kicks. */
  lemma MeasureKicks()
    ensures CountVoice(MeasureHits, "kick") == 2
  {
  }

  /** One measure holds two snares. */
  lemma MeasureSnares()
    ensures CountVoice(MeasureHits, "snare") == 2
  {
  }

  /** One measure holds eight hi-hats. */
  lemma MeasureHiHats()
    ensures CountVoice(MeasureHits, "hihat") == 8
  {
  }

  /** One measure holds no ride. */
  lemma MeasureRides()
    ensures CountVoice(MeasureHits, "ride") == 0
  {
  }
}
