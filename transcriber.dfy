/**
 * The placeholder transcription pipeline of src/transcription/transcriber.py.
 *
 * The transcriber loads audio (an outside decoder), records its length and
 * duration as a feature record, and writes a MIDI file holding a fixed
 * C-major scale whose length depends only on the duration: two notes per
 * second, at most eight. The decoder and the MIDI writer are outside the
 * model; their outcomes are parameters.
 */
module Transcriber {
  import opened Wrappers

  /** Rate every loaded buffer is resampled to (samples per second). */
  const DefaultSampleRate: int := 16000
  /** Duration assumed when a feature record has no `duration` entry. */
  const DefaultDuration: real := 4.0
  const NotesPerSecond: real := 2.0
  const MaxNotes: nat := 8
  const NoteVelocity: int := 64
  /** Start of note i is i * NoteSpacing; each note lasts NoteLength. */
  const NoteSpacing: real := 0.5
  const NoteLength: real := 0.4
  /** C4 up to C5. */
  const CMajor: seq<int> := [60, 62, 64, 65, 67, 69, 71, 72]
  const PianoProgram: int := 0
  const PianoName: string := "Piano"

  /** A note of a MIDI instrument: times in seconds. */
  datatype Note = Note(velocity: int, pitch: int, start: real, end: real)

  datatype Instrument = Instrument(program: int, name: string, notes: seq<Note>)

  /** The in-memory MIDI file, as the writer receives it. */
  datatype Midi = Midi(instruments: seq<Instrument>)

  /** The feature dictionary: each key may be missing. */
  datatype Features = Features(duration: Option<real>, sampleRate: Option<int>, samples: Option<nat>)

  /** A note as a MIDI file can hold it: 7-bit pitch and a nonzero velocity, positive length. */
  predicate ValidNote(n: Note) {
    0 <= n.pitch <= 127 && 1 <= n.velocity <= 127 && 0.0 <= n.start < n.end
  }

  /** Every note ends before any later note starts. */
  predicate NonOverlapping(notes: seq<Note>) {
    forall i, j :: 0 <= i < j < |notes| ==> notes[i].end < notes[j].start
  }

  predicate AscendingPitch(notes: seq<Note>) {
    forall i, j :: 0 <= i < j < |notes| ==> notes[i].pitch < notes[j].pitch
  }

  function Min(a: int, b: int): int {
    if a <= b then a else b
  }

  /** Python's `int(x)` on a float: truncation toward zero. */
  function TruncToInt(x: real): (n: int)
    ensures 0.0 <= x ==> n as real <= x < n as real + 1.0
    ensures x < 0.0 ==> n as real - 1.0 < x <= n as real
  {
    if x >= 0.0 then x.Floor else -((-x).Floor)
  }

  /**
   * How many notes `range(min(8, int(duration * 2)))` yields: the largest
   * count of at most eight that fits two per second into the duration.
   */
  function NumNotes(duration: real): (n: nat)
    ensures n <= MaxNotes
    ensures n == 0 || n as real <= duration * NotesPerSecond
    ensures n == MaxNotes || duration * NotesPerSecond < n as real + 1.0
  {
    var k := Min(MaxNotes, TruncToInt(duration * NotesPerSecond));
    if k < 0 then 0 else k
  }

  /** The i-th note of the placeholder scale: a valid note of 0.4 s on the scale, at velocity 64. */
  function NoteAt(i: nat): (n: Note)
    ensures ValidNote(n) && n.velocity == NoteVelocity
    ensures n.end - n.start == NoteLength && n.pitch in CMajor
  {
    Note(NoteVelocity, CMajor[i % |CMajor|], i as real * NoteSpacing, i as real * NoteSpacing + NoteLength)
  }

  /** The notes written for a given duration, in the order they are appended. */
  function Schedule(duration: real): (notes: seq<Note>)
    ensures |notes| == NumNotes(duration) <= MaxNotes
    ensures forall i :: 0 <= i < |notes| ==> ValidNote(notes[i])
  {
    seq(NumNotes(duration), i requires 0 <= i => NoteAt(i))
  }

  /** `features.get('duration', 4.0)`. */
  function EffectiveDuration(features: Features): (d: real)
    ensures features.duration.Some? ==> d == features.duration.value
    ensures features.duration.None? ==> d == DefaultDuration
  {
    features.duration.GetOr(DefaultDuration)
  }

  /** The MIDI object that is handed to the writer: one piano track of at most eight notes. */
  function MidiFor(features: Features): (midi: Midi)
    ensures |midi.instruments| == 1
    ensures midi.instruments[0].program == PianoProgram && midi.instruments[0].name == PianoName
    ensures |midi.instruments[0].notes| <= MaxNotes
  {
    Midi([Instrument(PianoProgram, PianoName, Schedule(EffectiveDuration(features)))])
  }

  /** The three conditions on NumNotes pin down a single count. */
  lemma NumNotesUnique(duration: real, m: nat)
    requires m <= MaxNotes
    requires m == 0 || m as real <= duration * NotesPerSecond
    requires m == MaxNotes || duration * NotesPerSecond < m as real + 1.0
    ensures m == NumNotes(duration)
  {
  }

  /** At most eight notes; none below half a second; all eight from four seconds on. */
  lemma ScheduleCount(duration: real)
    ensures |Schedule(duration)| <= MaxNotes
    ensures duration < 0.5 ==> Schedule(duration) == []
    ensures duration >= 4.0 ==> |Schedule(duration)| == MaxNotes
  {
  }

  /** Note i starts at 0.5 i, lasts 0.4, and has pitch CMajor[i] and velocity 64. */
  lemma ScheduleNotes(duration: real)
    ensures forall i :: 0 <= i < |Schedule(duration)| ==>
      && Schedule(duration)[i].start == NoteSpacing * i as real
      && Schedule(duration)[i].end - Schedule(duration)[i].start == NoteLength
      && Schedule(duration)[i].pitch == CMajor[i]
      && Schedule(duration)[i].velocity == NoteVelocity
  {
    var notes := Schedule(duration);
    forall i | 0 <= i < |notes|
      ensures notes[i].start == NoteSpacing * i as real && notes[i].end - notes[i].start == NoteLength
      ensures notes[i].pitch == CMajor[i] && notes[i].velocity == NoteVelocity
    {
      assert notes[i] == NoteAt(i);
    }
  }

  /** Consecutive notes are 0.1 s apart, so no two notes overlap and starts strictly increase. */
  lemma ScheduleNonOverlapping(duration: real)
    ensures forall i :: 0 <= i < |Schedule(duration)| - 1 ==>
      Schedule(duration)[i + 1].start - Schedule(duration)[i].end == NoteSpacing - NoteLength
    ensures NonOverlapping(Schedule(duration))
    ensures forall i, j :: 0 <= i < j < |Schedule(duration)| ==> Schedule(duration)[i].start < Schedule(duration)[j].start
  {
  }

  /** Pitches strictly ascend and stay on the C-major scale between C4 and C5. */
  lemma SchedulePitches(duration: real)
    ensures AscendingPitch(Schedule(duration))
    ensures forall i :: 0 <= i < |Schedule(duration)| ==>
      Schedule(duration)[i].pitch in CMajor && 60 <= Schedule(duration)[i].pitch <= 72
  {
  }

  /** Every scheduled note is a well-formed MIDI note of velocity 64. */
  lemma ScheduleValid(duration: real)
    ensures forall i :: 0 <= i < |Schedule(duration)| ==>
      ValidNote(Schedule(duration)[i]) && Schedule(duration)[i].velocity == NoteVelocity
  {
  }

  /** A feature record without a duration yields the whole scale. */
  lemma DefaultDurationFullScale(sampleRate: Option<int>, samples: Option<nat>)
    ensures var notes := MidiFor(Features(None, sampleRate, samples)).instruments[0].notes;
      |notes| == MaxNotes && forall i :: 0 <= i < MaxNotes ==> notes[i].pitch == CMajor[i]
  {
    ScheduleNotes(DefaultDuration);
  }

  /**
   * For a buffer of `samples` samples at 16000 Hz, `int(duration * 2)` is
   * `samples / 8000`, so the count is `min(8, samples / 8000)`.
   */
  lemma AnalyzedCount(samples: nat)
    ensures NumNotes(samples as real / DefaultSampleRate as real) == Min(MaxNotes, samples / 8000)
  {
  }

  /** The transcriber; `sampleRate` is a public attribute callers may reassign. */
  class AudioTranscriber {
    var sampleRate: int

    constructor ()
      ensures sampleRate == DefaultSampleRate
    {
      sampleRate := DefaultSampleRate;
    }

    /**
     * The feature record of a loaded buffer. Division by a zero rate raises
     * in the source, which the handler turns into None.
     */
    function AnalyzeAudio(audio: seq<real>): (f: Option<Features>)
      reads this
      ensures f.None? <==> sampleRate == 0
      ensures f.Some? ==> f.value.samples == Some(|audio|) && f.value.sampleRate == Some(sampleRate)
      ensures f.Some? ==> f.value.duration.Some? && f.value.duration.value * sampleRate as real == |audio| as real
    {
      if sampleRate == 0 then None
      else Some(Features(Some(|audio| as real / sampleRate as real), Some(sampleRate), Some(|audio|)))
    }

    /**
     * Builds the piano track note by note and hands it to the writer;
     * `writeSucceeds` is the writer's outcome. `written` is the file content
     * when the write succeeded.
     */
    method CreateMidiFromAnalysis(features: Features, writeSucceeds: bool) returns (ok: bool, written: Option<Midi>)
      ensures ok == writeSucceeds
      ensures ok <==> written.Some?
      ensures written.Some? ==> written.value == MidiFor(features)
    {
      var duration := features.duration.GetOr(DefaultDuration);
      var numNotes := Min(MaxNotes, TruncToInt(duration * NotesPerSecond));
      var notes: seq<Note> := [];
      var i := 0;
      while i < numNotes
        invariant 0 <= i
        invariant i <= numNotes || i == 0
        invariant |notes| == i
        invariant forall k :: 0 <= k < i ==> notes[k] == NoteAt(k)
      {
        var noteStart := i as real * NoteSpacing;
        var noteEnd := noteStart + NoteLength;
        var notePitch := CMajor[i % |CMajor|];
        notes := notes + [Note(NoteVelocity, notePitch, noteStart, noteEnd)];
        i := i + 1;
      }
      assert notes == Schedule(duration);
      var midi := Midi([Instrument(PianoProgram, PianoName, notes)]);
      if writeSucceeds {
        ok, written := true, Some(midi);
      } else {
        ok, written := false, None;
      }
    }

    /**
     * Load, analyze, create: `loaded` is the decoder's result (None when it
     * raised). A missing stage result stops the pipeline before any write.
     */
    method Transcribe(loaded: Option<seq<real>>, writeSucceeds: bool) returns (ok: bool, written: Option<Midi>)
      ensures ok <==> written.Some?
      ensures ok <==> loaded.Some? && sampleRate != 0 && writeSucceeds
      ensures written.Some? ==>
        written.value.instruments == [Instrument(PianoProgram, PianoName, Schedule(|loaded.value| as real / sampleRate as real))]
      ensures written.Some? && sampleRate == DefaultSampleRate ==>
        |written.value.instruments[0].notes| == Min(MaxNotes, |loaded.value| / 8000)
    {
      if loaded.None? {
        return false, None;
      }
      var features := AnalyzeAudio(loaded.value);
      if features.None? {
        return false, None;
      }
      ok, written := CreateMidiFromAnalysis(features.value, writeSucceeds);
      if ok && sampleRate == DefaultSampleRate {
        AnalyzedCount(|loaded.value|);
      }
    }
  }

  /** An empty buffer gives duration 0 and no samples, hence no notes. */
  lemma EmptyAudio(t: AudioTranscriber)
    requires t.sampleRate == DefaultSampleRate
    ensures t.AnalyzeAudio([]) == Some(Features(Some(0.0), Some(DefaultSampleRate), Some(0)))
    ensures Schedule(EffectiveDuration(t.AnalyzeAudio([]).value)) == []
  {
  }
}
