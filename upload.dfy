/**
 * The upload checks and file naming of the `/transcribe` endpoint in app.py.
 *
 * A request is refused, in this order, when it has no `audio_file` field,
 * when the file name is empty, or when the name's last extension is not one
 * of the four accepted audio types. An accepted upload is stored under a
 * fresh id with its extension, the MIDI output under the same id with
 * `.mid`, and the reply offers the MIDI file under the uploaded name with its
 * extension replaced by `.mid`. The fresh id, the sanitised name and the
 * transcription outcome are parameters.
 */
module Upload {
  import opened Wrappers

  const AllowedExtensions: set<string> := {"wav", "mp3", "flac", "m4a"}
  const MidiExtension: string := "mid"

  const BadRequest: int := 400
  const ServerError: int := 500

  const NoAudioFileMessage: string := "No audio file provided"
  const NoFileSelectedMessage: string := "No file selected"
  const UnsupportedTypePrefix: string := "File type not supported. Allowed types: "
  const InternalErrorMessage: string := "Internal server error"
  const TranscriptionFailedMessage: string := "Transcription failed"

  /** ASCII case folding of one character. */
  function LowerChar(c: char): char {
    if 'A' <= c <= 'Z' then (c as int + 32) as char else c
  }

  /** `str.lower()`: folds upper-case letters and leaves every other character, dots included, in place. */
  function Lower(s: string): (r: string)
    ensures |r| == |s|
    ensures forall i :: 0 <= i < |s| ==> (r[i] == '.' <==> s[i] == '.')
    ensures forall i :: 0 <= i < |s| ==> !('A' <= r[i] <= 'Z')
  {
    seq(|s|, i requires 0 <= i < |s| => LowerChar(s[i]))
  }

  /** Position of the last '.' in `s`, if any. */
  function LastDot(s: string): (k: Option<nat>)
    ensures k.None? <==> '.' !in s
    ensures k.Some? ==> k.value < |s| && s[k.value] == '.' && '.' !in s[k.value + 1..]
  {
    if |s| == 0 then None
    else if s[|s| - 1] == '.' then Some(|s| - 1)
    else
      var k := LastDot(s[..|s| - 1]);
      assert s == s[..|s| - 1] + [s[|s| - 1]];
      k
  }

  /**
   * `s.rsplit('.', 1)`: the whole string when it has no dot, otherwise the
   * part before and the part after the last dot.
   */
  function RSplitOnce(s: string): (parts: seq<string>)
    ensures |parts| == 1 || |parts| == 2
    ensures |parts| == 2 <==> '.' in s
    ensures |parts| == 1 ==> parts[0] == s
    ensures |parts| == 2 ==> s == parts[0] + "." + parts[1] && '.' !in parts[1]
  {
    match LastDot(s)
    case None => [s]
    case Some(k) =>
      assert s == s[..k] + "." + s[k + 1..];
      [s[..k], s[k + 1..]]
  }

  /** `allowed_file`: a dot, and the last extension, lower-cased, is an accepted type. */
  function AllowedFile(filename: string): (ok: bool)
    ensures ok ==> '.' in filename && |filename| >= 4
  {
    '.' in filename && Lower(RSplitOnce(filename)[1]) in AllowedExtensions
  }

  datatype UploadError = NoAudioFile | NoFileSelected | UnsupportedType

  /**
   * The request checks in the order the endpoint makes them; `upload` is
   * None when the form has no `audio_file` field, otherwise the file name.
   */
  function Validate(upload: Option<string>): (r: Option<UploadError>)
    ensures r.None? <==> upload.Some? && AllowedFile(upload.value)
    ensures r == Some(NoAudioFile) <==> upload.None?
    ensures r == Some(NoFileSelected) <==> upload == Some("")
    ensures r == Some(UnsupportedType) <==> upload.Some? && upload.value != "" && !AllowedFile(upload.value)
  {
    if upload.None? then Some(NoAudioFile)
    else if upload.value == "" then Some(NoFileSelected)
    else if !AllowedFile(upload.value) then Some(UnsupportedType)
    else None
  }

  /** `t` occurs in `s` starting at position `i`. */
  predicate OccursAt(s: string, t: string, i: nat) {
    i + |t| <= |s| && s[i..i + |t|] == t
  }

  /** `t in s` on Python strings: `t` is a substring of `s`. */
  ghost predicate Mentions(s: string, t: string) {
    exists i: nat :: OccursAt(s, t, i)
  }

  /** `sep.join(parts)`: it starts with the first part and ends with the last. */
  function Join(parts: seq<string>, sep: string): (r: string)
    ensures |parts| > 0 ==> OccursAt(r, parts[0], 0)
    ensures |parts| > 0 ==> |parts[|parts| - 1]| <= |r| && r[|r| - |parts[|parts| - 1]|..] == parts[|parts| - 1]
  {
    if |parts| == 0 then ""
    else if |parts| == 1 then parts[0]
    else parts[0] + sep + Join(parts[1..], sep)
  }

  /**
   * An order in which the accepted-extension set can be iterated: each of
   * the four types exactly once. The source does not fix which.
   */
  predicate IsListing(listing: seq<string>) {
    multiset(listing) == multiset{"wav", "mp3", "flac", "m4a"}
  }

  /** The error text of each refusal; `listing` is the set's iteration order. */
  function ErrorMessage(e: UploadError, listing: seq<string>): (m: string)
    requires IsListing(listing)
    ensures e == NoAudioFile ==> m == NoAudioFileMessage
    ensures e == NoFileSelected ==> m == NoFileSelectedMessage
    ensures e == UnsupportedType ==> OccursAt(m, UnsupportedTypePrefix, 0)
  {
    match e
    case NoAudioFile => NoAudioFileMessage
    case NoFileSelected => NoFileSelectedMessage
    case UnsupportedType => UnsupportedTypePrefix + Join(listing, ", ")
  }

  /** Stored upload name, MIDI output name, and the name the download is offered under. */
  datatype StoredNames = StoredNames(audioName: string, midiName: string, downloadName: string)

  /**
   * Names derived from the fresh id and the sanitised upload name. Taking the
   * extension of a sanitised name without a dot raises in the source: None.
   */
  function DeriveNames(fileId: string, secureName: string): (r: Option<StoredNames>)
    ensures r.Some? <==> '.' in secureName
  {
    var parts := RSplitOnce(secureName);
    if |parts| < 2 then None
    else
      var extension := Lower(parts[1]);
      Some(StoredNames(fileId + "." + extension, fileId + "." + MidiExtension, parts[0] + "." + MidiExtension))
  }

  datatype Response =
    | ErrorReply(status: int, error: string)
    | MidiReply(midiName: string, downloadName: string)

  /**
   * The `/transcribe` request as a decision: checks, name derivation, then
   * the transcription outcome `transcribed`.
   */
  function HandleUpload(upload: Option<string>, listing: seq<string>, fileId: string, secureName: string,
                        transcribed: bool): (r: Response)
    requires IsListing(listing)
    ensures r.MidiReply? <==> upload.Some? && AllowedFile(upload.value) && '.' in secureName && transcribed
    ensures r.ErrorReply? ==> (r.status == BadRequest <==> Validate(upload).Some?)
    ensures r.ErrorReply? ==> r.status == BadRequest || r.status == ServerError
    ensures Validate(upload).None? && '.' !in secureName ==> r == ErrorReply(ServerError, InternalErrorMessage)
    ensures Validate(upload).None? && '.' in secureName && !transcribed ==>
      r == ErrorReply(ServerError, TranscriptionFailedMessage)
  {
    match Validate(upload)
    case Some(e) => ErrorReply(BadRequest, ErrorMessage(e, listing))
    case None =>
      match DeriveNames(fileId, secureName)
      case None => ErrorReply(ServerError, InternalErrorMessage)
      case Some(names) =>
        if !transcribed then ErrorReply(ServerError, TranscriptionFailedMessage)
        else MidiReply(names.midiName, names.downloadName)
  }

  // ---------------------------------------------------------------------------
  // Properties of the string functions

  /** Lower-casing commutes with concatenation. */
  lemma LowerAppend(a: string, b: string)
    ensures Lower(a + b) == Lower(a) + Lower(b)
  {
  }

  lemma LowerIdempotent(s: string)
    ensures Lower(Lower(s)) == Lower(s)
  {
  }

  /** Splitting at the last dot is undone by rejoining, and only that split does so. */
  lemma {:induction false} RSplitOnceOfJoin(stem: string, extension: string)
    requires '.' !in extension
    ensures RSplitOnce(stem + "." + extension) == [stem, extension]
  {
    var s := stem + "." + extension;
    assert s[|stem|] == '.';
    var k := LastDot(s).value;
    assert k == |stem|;
    assert s[..k] == stem;
    assert s[k + 1..] == extension;
  }

  // ---------------------------------------------------------------------------
  // Properties of allowed_file

  /** Only the text after the last dot decides, regardless of case. */
  lemma AllowedFileOfJoin(stem: string, extension: string)
    requires '.' !in extension
    ensures AllowedFile(stem + "." + extension) <==> Lower(extension) in AllowedExtensions
  {
    RSplitOnceOfJoin(stem, extension);
  }

  /** A name without a dot is never accepted. */
  lemma NoDotRejected(filename: string)
    requires '.' !in filename
    ensures !AllowedFile(filename)
  {
  }

  /** A name ending in a dot has an empty extension and is refused. */
  lemma TrailingDotRejected(stem: string)
    ensures !AllowedFile(stem + ".")
  {
  }

  /** Exactly the four audio types are accepted when written in lower case. */
  lemma AcceptedSetExact(stem: string, extension: string)
    requires '.' !in extension && Lower(extension) == extension
    ensures AllowedFile(stem + "." + extension) <==> extension in {"wav", "mp3", "flac", "m4a"}
  {
    AllowedFileOfJoin(stem, extension);
  }

  /** Lower-casing neither adds nor removes dots. */
  lemma LowerKeepsDots(s: string)
    ensures ('.' in Lower(s)) == ('.' in s)
  {
  }

  /** Case is ignored: a name and its lower-cased form are judged alike. */
  lemma {:induction false} AllowedFileCaseInsensitive(filename: string)
    ensures AllowedFile(Lower(filename)) == AllowedFile(filename)
  {
    LowerKeepsDots(filename);
    if '.' in filename {
      var parts := RSplitOnce(filename);
      var stem, extension := parts[0], parts[1];
      LowerAppend(stem + ".", extension);
      LowerAppend(stem, ".");
      assert Lower(".") == ".";
      LowerKeepsDots(extension);
      RSplitOnceOfJoin(Lower(stem), Lower(extension));
      LowerIdempotent(extension);
    }
  }

  /** Only the last extension counts, in any case: "x.tar.WAV" is accepted. */
  lemma MixedCaseLastExtensionAccepted()
    ensures AllowedFile("x.tar.WAV")
  {
    assert "x.tar" + "." + "WAV" == "x.tar.WAV";
    AllowedFileOfJoin("x.tar", "WAV");
    assert Lower("WAV")[0] == 'w' && Lower("WAV")[1] == 'a' && Lower("WAV")[2] == 'v';
    assert Lower("WAV") == "wav";
  }

  /** An audio type before the last dot does not help: "wav.txt" is refused. */
  lemma TextExtensionRefused()
    ensures !AllowedFile("wav.txt")
  {
  }

  /** The text upload of the endpoint's tests is refused. */
  lemma TestTextRefused()
    ensures !AllowedFile("test.txt")
  {
  }

  /** Every part of a join occurs in the joined text. */
  lemma {:induction false} JoinMentionsEach(parts: seq<string>, sep: string, k: nat)
    requires k < |parts|
    ensures Mentions(Join(parts, sep), parts[k])
  {
    if k == 0 {
      assert OccursAt(Join(parts, sep), parts[0], 0);
    } else {
      JoinMentionsEach(parts[1..], sep, k - 1);
      var rest := Join(parts[1..], sep);
      var i: nat :| OccursAt(rest, parts[k], i);
      var head := parts[0] + sep;
      assert Join(parts, sep) == head + rest;
      assert (head + rest)[|head| + i..|head| + i + |parts[k]|] == rest[i..i + |parts[k]|];
      assert OccursAt(Join(parts, sep), parts[k], |head| + i);
    }
  }

  /** The unsupported-type message names each of the four accepted types, in whatever order. */
  lemma UnsupportedMessageListsEveryType(listing: seq<string>)
    requires IsListing(listing)
    ensures forall x :: x in AllowedExtensions ==> Mentions(ErrorMessage(UnsupportedType, listing), x)
  {
    var joined := Join(listing, ", ");
    forall x | x in AllowedExtensions
      ensures Mentions(ErrorMessage(UnsupportedType, listing), x)
    {
      assert x in multiset(listing);
      var k :| 0 <= k < |listing| && listing[k] == x;
      JoinMentionsEach(listing, ", ", k);
      var i: nat :| OccursAt(joined, x, i);
      var m := UnsupportedTypePrefix + joined;
      assert m[|UnsupportedTypePrefix| + i..|UnsupportedTypePrefix| + i + |x|] == joined[i..i + |x|];
      assert OccursAt(m, x, |UnsupportedTypePrefix| + i);
    }
  }

  // ---------------------------------------------------------------------------
  // Properties of the request decision and the derived names

  /** Missing field first, then empty name, then unsupported type; each is a 400. */
  lemma ValidationOrder(filename: string, listing: seq<string>, fileId: string, secureName: string, transcribed: bool)
    requires IsListing(listing)
    ensures HandleUpload(None, listing, fileId, secureName, transcribed) == ErrorReply(BadRequest, NoAudioFileMessage)
    ensures HandleUpload(Some(""), listing, fileId, secureName, transcribed) == ErrorReply(BadRequest, NoFileSelectedMessage)
    ensures filename != "" && !AllowedFile(filename) ==>
      HandleUpload(Some(filename), listing, fileId, secureName, transcribed)
        == ErrorReply(BadRequest, UnsupportedTypePrefix + Join(listing, ", "))
  {
  }

  /** The text file of the endpoint's tests is refused as an unsupported type. */
  lemma TextUploadRefused(listing: seq<string>, fileId: string, secureName: string, transcribed: bool)
    requires IsListing(listing)
    ensures HandleUpload(Some("test.txt"), listing, fileId, secureName, transcribed)
      == ErrorReply(BadRequest, UnsupportedTypePrefix + Join(listing, ", "))
  {
  }

  /**
   * A name such as ".wav" passes the checks; when sanitising drops its dot,
   * taking the extension fails and the reply is a generic server error.
   */
  lemma DotlessSanitisedNameIsServerError(listing: seq<string>, fileId: string, transcribed: bool)
    requires IsListing(listing)
    ensures AllowedFile(".wav")
    ensures HandleUpload(Some(".wav"), listing, fileId, "wav", transcribed) == ErrorReply(ServerError, InternalErrorMessage)
  {
    assert "" + "." + "wav" == ".wav";
    AllowedFileOfJoin("", "wav");
    assert Lower("wav")[0] == 'w' && Lower("wav")[1] == 'a' && Lower("wav")[2] == 'v';
    assert Lower("wav") == "wav";
  }

  /**
   * Stored names share the id: the audio keeps the lower-cased extension,
   * the MIDI file ends in ".mid", and the download name is the sanitised
   * stem with ".mid".
   */
  lemma StoredNamesOfJoin(fileId: string, stem: string, extension: string)
    requires '.' !in extension
    ensures DeriveNames(fileId, stem + "." + extension)
      == Some(StoredNames(fileId + "." + Lower(extension), fileId + ".mid", stem + ".mid"))
  {
    RSplitOnceOfJoin(stem, extension);
    assert fileId + "." + MidiExtension == fileId + ".mid";
    assert stem + "." + MidiExtension == stem + ".mid";
  }

  /**
   * The download name is the sanitised name with its last extension replaced
   * by "mid"; stem, dot and extension rebuild the sanitised name.
   */
  lemma DownloadNameReplacesExtension(fileId: string, secureName: string)
    requires '.' in secureName
    ensures RSplitOnce(secureName)[0] + "." + RSplitOnce(secureName)[1] == secureName
    ensures RSplitOnce(DeriveNames(fileId, secureName).value.downloadName) == [RSplitOnce(secureName)[0], MidiExtension]
  {
    RSplitOnceOfJoin(RSplitOnce(secureName)[0], MidiExtension);
  }

  /**
   * When the sanitised name keeps an accepted extension, the stored audio
   * carries it and the audio and MIDI names never collide.
   */
  lemma StoredAudioNameAccepted(fileId: string, secureName: string)
    requires AllowedFile(secureName)
    ensures DeriveNames(fileId, secureName).Some?
    ensures RSplitOnce(DeriveNames(fileId, secureName).value.audioName)[1] in AllowedExtensions
    ensures DeriveNames(fileId, secureName).value.audioName != DeriveNames(fileId, secureName).value.midiName
  {
    var extension := Lower(RSplitOnce(secureName)[1]);
    RSplitOnceOfJoin(fileId, extension);
    RSplitOnceOfJoin(fileId, MidiExtension);
  }

  /** An accepted, transcribed upload is answered with the MIDI file under the derived names. */
  lemma SuccessfulReply(filename: string, listing: seq<string>, fileId: string, stem: string, extension: string)
    requires IsListing(listing)
    requires AllowedFile(filename) && '.' !in extension
    ensures HandleUpload(Some(filename), listing, fileId, stem + "." + extension, true)
      == MidiReply(fileId + ".mid", stem + ".mid")
  {
    StoredNamesOfJoin(fileId, stem, extension);
  }
}
