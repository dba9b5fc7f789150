# audio-to-midi-backend, modelled in Dafny

The backend accepts an uploaded recording, checks its name, stores it under a
fresh id, runs the transcriber and answers with a MIDI file. The transcriber
in this repository is a placeholder: it loads the audio, records its length
and duration, and writes a C-major scale from C4 to C5, two notes per second,
at most eight notes, whatever the audio contains. This project models that
behaviour and proves what it guarantees.

- `wrappers.dfy` (module `Wrappers`): `Option`, Python's `None` or a value.
- `transcriber.dfy` (module `Transcriber`): the `AudioTranscriber` class of
  `src/transcription/transcriber.py`. It covers the `sample_rate` attribute,
  the feature record of `analyze_audio`, the note loop of
  `create_midi_from_analysis` and the early-return pipeline of `transcribe`.
  The note schedule is the function `Schedule`. The loop method is proved
  equal to it, and lemmas state its properties: count, timing,
  non-overlap, pitch order, velocity.
- `upload.dfy` (module `Upload`): the `/transcribe` endpoint of `app.py`. It
  covers `allowed_file`, `rsplit('.', 1)`, `lower()`, the order of the
  request checks, the stored and download names, and the reply as a whole.

Some inputs are parameters of the model:

- `Transcribe.loaded` is the decoder's result. It is `None` when loading
  raised.
- `writeSucceeds` is the MIDI writer's outcome.
- In `Upload.HandleUpload`, `fileId` is the fresh uuid string and
  `secureName` is the sanitised upload name.
- `transcribed` is the transcriber's outcome.
- `listing` is the order in which Python happens to iterate the accepted
  extension set when it builds the error message. `IsListing` requires it
  to hold each of the four types exactly once, in any order.

Durations are exact `real`s. Python's `int()` is truncation toward zero
(`TruncToInt`), and `range` of a negative count is empty. A reassigned zero
`sample_rate` makes `analyze_audio` divide by zero. The source catches that
and returns `None`, and the model does the same.

The analysis is a placeholder. src/transcription/transcriber.py:64-69 only
lists onset, pitch, velocity and duration estimation in comments, and the
notes written do not depend on the audio beyond its length.

A name such as `.wav` passes `allowed_file`. If sanitising removes its dot,
taking the extension at app.py:79 raises `IndexError`. The generic handler
then answers 500 "Internal server error". `DeriveNames` returns `None` in
that case, and `DotlessSanitisedNameIsServerError` shows the resulting reply.

## Model

| member | source | states |
|---|---|---|
| Transcriber.TruncToInt | src/transcription/transcriber.py:109 | `int()` of a float: the result is within one of x, on the side of zero (floor for x >= 0, ceiling below) |
| Transcriber.NumNotes | src/transcription/transcriber.py:108-109 | the note count is at most 8; it is 0 or fits into 2·duration; it is 8 or 2·duration is below count + 1 |
| Transcriber.NumNotesUnique | src/transcription/transcriber.py:108-109 | those three conditions pin the count down: any count meeting them equals NumNotes |
| Transcriber.NoteAt | src/transcription/transcriber.py:115-124 | note i is a valid MIDI note of velocity 64, lasts 0.4 s, and its pitch is on the C-major scale |
| Transcriber.Schedule | src/transcription/transcriber.py:109-125 | the note list has NumNotes(duration) entries, at most 8, each a valid MIDI note |
| Transcriber.EffectiveDuration | src/transcription/transcriber.py:107 | `get('duration', 4.0)`: the recorded duration when present, 4.0 otherwise |
| Transcriber.MidiFor | src/transcription/transcriber.py:100-128 | the MIDI object holds exactly one instrument, program 0 named "Piano", with at most 8 notes |
| Transcriber.ScheduleCount | src/transcription/transcriber.py:107-114 | never more than 8 notes, no notes for a duration under 0.5 s, all 8 from 4 s on |
| Transcriber.ScheduleNotes | src/transcription/transcriber.py:112-124 | note i starts at 0.5·i, lasts 0.4 s, has pitch CMajor[i] and velocity 64 |
| Transcriber.ScheduleNonOverlapping | src/transcription/transcriber.py:114-116 | consecutive notes are 0.1 s apart; no two notes overlap; start times strictly increase |
| Transcriber.SchedulePitches | src/transcription/transcriber.py:112-117 | pitches strictly ascend, lie on the C-major scale and within 60..72 |
| Transcriber.ScheduleValid | src/transcription/transcriber.py:114-125 | every note has a 7-bit pitch, velocity 64 (nonzero), start >= 0 and end after start |
| Transcriber.DefaultDurationFullScale | src/transcription/transcriber.py:107-117 | a feature record without `duration` defaults to 4.0 s and yields all eight scale notes in order |
| Transcriber.AnalyzedCount | src/transcription/transcriber.py:71-109 | for n samples at 16000 Hz the count `min(8, int(duration*2))` equals `min(8, n / 8000)` |
| Transcriber.AudioTranscriber.constructor | src/transcription/transcriber.py:27-29 | a new transcriber has sample rate 16000 |
| Transcriber.AudioTranscriber.AnalyzeAudio | src/transcription/transcriber.py:51-85 | None exactly when the rate is zero (the division raises); otherwise samples = buffer length, the rate, and a duration that times the rate gives the sample count |
| Transcriber.EmptyAudio | src/transcription/transcriber.py:71-78 | an empty buffer gives duration 0.0 and 0 samples, and so an empty note schedule |
| Transcriber.AudioTranscriber.CreateMidiFromAnalysis | src/transcription/transcriber.py:87-137 | the loop builds exactly the schedule for the record's duration (4.0 when absent) in one piano instrument; the result is True iff the write succeeds, and the written MIDI is that object |
| Transcriber.AudioTranscriber.Transcribe | src/transcription/transcriber.py:139-175 | True iff loading produced audio, analysis produced features and the write succeeded; nothing is written after a failed stage; the file holds the schedule for the buffer's duration, `min(8, n / 8000)` notes at 16000 Hz |
| Upload.Lower | app.py:35 | lower-casing keeps the length and every dot position and leaves no upper-case letter |
| Upload.LastDot | app.py:35 | None iff the string has no dot; otherwise a dot position with no dot after it |
| Upload.RSplitOnce | app.py:35 | `rsplit('.', 1)`: one part (the string) iff there is no dot; otherwise stem + "." + extension rebuilds the string and the extension has no dot |
| Upload.RSplitOnceOfJoin | app.py:35 | the converse: splitting stem + "." + extension, with no dot in extension, gives back exactly [stem, extension] |
| Upload.AllowedFile | app.py:32-35 | an accepted name contains a dot (and so has at least four characters) |
| Upload.AllowedFileOfJoin | app.py:34-35 | stem + "." + extension is accepted iff the lower-cased extension is an accepted type, whatever the stem |
| Upload.NoDotRejected | app.py:34 | a name without a dot is refused |
| Upload.TrailingDotRejected | app.py:34-35 | a name ending in a dot has an empty extension and is refused |
| Upload.AcceptedSetExact | app.py:30-35 | a lower-case extension is accepted iff it is one of wav, mp3, flac, m4a |
| Upload.AllowedFileCaseInsensitive | app.py:35 | a name and its lower-cased form are accepted alike |
| Upload.MixedCaseLastExtensionAccepted | app.py:35 | "x.tar.WAV" is accepted |
| Upload.TextExtensionRefused | app.py:35 | "wav.txt" is refused: only the last extension counts |
| Upload.TestTextRefused | app.py:30-35 | "test.txt" is refused |
| Upload.Join | app.py:73 | `", ".join(...)` starts with the first part and ends with the last |
| Upload.JoinMentionsEach | app.py:73 | every part of a join occurs in the joined text |
| Upload.ErrorMessage | app.py:62-74 | the missing-field and empty-name messages are their fixed texts; the type message starts with "File type not supported. Allowed types: " |
| Upload.UnsupportedMessageListsEveryType | app.py:72-74 | for every iteration order of the set, the type message names each of wav, mp3, flac and m4a |
| Upload.Validate | app.py:60-74 | no error iff the field is present and the name is accepted; missing field, empty name and bad type are reported exactly in their own cases, in that order |
| Upload.ValidationOrder | app.py:61-74 | missing field gives 400 "No audio file provided", then empty name 400 "No file selected", then a refused name 400 with the type message, whatever follows |
| Upload.TextUploadRefused | app.py:70-74 | an upload named "test.txt" is answered 400 "File type not supported. Allowed types: …" |
| Upload.DeriveNames | app.py:76-81 | names are derived iff the sanitised name has a dot |
| Upload.StoredNamesOfJoin | app.py:77-81 | for sanitised stem.ext: audio `id.` + lower(ext), MIDI `id.mid`, download `stem.mid` |
| Upload.DownloadNameReplacesExtension | app.py:79-111 | stem, dot and extension rebuild the sanitised name; the download name splits into that stem and "mid" |
| Upload.StoredAudioNameAccepted | app.py:77-81 | when the sanitised name is accepted, the stored audio's extension is an accepted type and the audio and MIDI names differ |
| Upload.HandleUpload | app.py:51-119 | the reply is the MIDI file iff the name is accepted, the sanitised name has a dot and transcription succeeded; every error is 400 or 500, and 400 exactly for a failed check; a sanitised name without a dot gives 500 "Internal server error"; a failed transcription gives 500 "Transcription failed" |
| Upload.DotlessSanitisedNameIsServerError | app.py:76-119 | ".wav" is accepted, and if sanitising yields "wav" the reply is 500 "Internal server error" |
| Upload.SuccessfulReply | app.py:76-113 | an accepted, transcribed upload with sanitised name stem.ext is answered with `id.mid` offered as `stem.mid` |

## Left out

- Audio decoding and resampling (`librosa.load`) and MIDI serialisation (`pretty_midi` objects and `write`) are outside libraries. Their outcomes are the parameters `loaded` and `writeSucceeds`. The PrettyMIDI and Instrument objects are values holding the note list.
- Transcriber.NumNotes: durations and note times are exact reals. IEEE rounding of `duration * 2`, `0.5 * i` and `+ 0.4` may differ at boundaries.
- Transcriber.AudioTranscriber.AnalyzeAudio: only the buffer's length is used. A non-integer `sample_rate` attribute and a buffer without a length are not modelled.
- Upload.Lower: folds ASCII A-Z only. Python's `str.lower()` also folds other Unicode letters.
- Upload.HandleUpload: `werkzeug.secure_filename` and `uuid.uuid4` are the parameters `secureName` and `fileId`. Saving and removing the upload, the output folder paths and `send_file` are not modelled. The transcription outcome is the parameter `transcribed`, not a call to the transcriber model.
- Logging, the health and supported-formats endpoints, the 404/413/500 handlers and the upload size limit are request plumbing. They are not modelled.
- `config.py` lists a larger extension set that the endpoint does not use. The model uses the set of app.py:30.
- The helper scripts, the test-audio generator and the setup script run I/O only. They are not modelled.
