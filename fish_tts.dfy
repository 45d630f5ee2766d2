/** The Fish Audio text-to-speech adapter: the voices found in the reference
    folder, choosing a voice, the reference sample sent with a request and the
    request itself. */
module FishTts {
  import opened Wrappers
  import opened Paths
  import opened PyText

  newtype byte = b: int | 0 <= b < 256

  /** The reference-voice folder on disk: `scan` is what `glob` walks through,
      in its order, and `files` maps each name that exists to its bytes. */
  datatype Folder = Folder(scan: seq<string>, files: map<string, seq<byte>>)

  /** What an empty folder looks like; `__init__` creates the folder when it is missing. */
  const EmptyFolder := Folder([], map[])

  /** `ServeReferenceAudio`: a sample recording and its transcript. */
  datatype ReferenceAudio = ReferenceAudio(audio: seq<byte>, text: string)

  /** `ServeTTSRequest`, with its field defaults. */
  datatype TtsRequest = TtsRequest(
    text: string,
    chunkLength: int := 200,
    format: string := "mp3",
    mp3Bitrate: int := 128,
    references: seq<ReferenceAudio> := [],
    referenceId: Option<string> := None,
    normalize: bool := true,
    latency: string := "normal")

  /** A name the `*.mp3` pattern matches. */
  predicate IsMp3(name: string) {
    |name| >= 4 && name[|name| - 4..] == ".mp3"
  }

  /** `Path(name).stem` for a matched name: the name without `.mp3`, except
      for the bare name `.mp3`, which pathlib takes as a stem without suffix. */
  function Stem(name: string): string
    requires IsMp3(name)
  {
    if |name| > 4 then name[..|name| - 4] else name
  }

  /** `Path(name).with_suffix(".txt")` for a matched name. */
  function TextSibling(name: string): string
    requires IsMp3(name)
  {
    Stem(name) + ".txt"
  }

  /** A scanned name that is an `.mp3` with a transcript beside it. */
  predicate Paired(f: Folder, name: string) {
    IsMp3(name) && TextSibling(name) in f.files
  }

  /** The stems of the paired names among `scan`, in scan order. */
  function PairedStems(f: Folder, scan: seq<string>): seq<string> {
    if scan == [] then []
    else
      var last := scan[|scan| - 1];
      PairedStems(f, scan[..|scan| - 1]) + (if Paired(f, last) then [Stem(last)] else [])
  }

  /** The voice list `_load_voices` promises: the paired stems in scan order,
      or `["default"]` when the folder is missing or holds no pair. */
  function Voices(folder: Option<Folder>): (v: seq<string>)
    ensures v != []
  {
    match folder
    case None => ["default"]
    case Some(f) =>
      var stems := PairedStems(f, f.scan);
      if stems == [] then ["default"] else stems
  }

  /** `_load_voices`: the loop over the `*.mp3` files of the folder. */
  method LoadVoices(folder: Option<Folder>) returns (voices: seq<string>)
    ensures voices == Voices(folder)
  {
    if folder.None? {
      return ["default"];
    }
    var f := folder.value;
    voices := [];
    for i := 0 to |f.scan|
      invariant voices == PairedStems(f, f.scan[..i])
    {
      var audio := f.scan[i];
      assert f.scan[..i + 1][..i] == f.scan[..i];
      if IsMp3(audio) && TextSibling(audio) in f.files {
        voices := voices + [Stem(audio)];
      }
    }
    assert f.scan[..|f.scan|] == f.scan;
    if voices == [] {
      voices := ["default"];
    }
  }

  /** A name is among the paired stems exactly when some scanned `.mp3` with a
      transcript has it as its stem. */
  lemma {:induction false} PairedStemsMembers(f: Folder, scan: seq<string>, v: string)
    ensures v in PairedStems(f, scan) <==>
      exists k :: 0 <= k < |scan| && Paired(f, scan[k]) && Stem(scan[k]) == v
  {
    if scan != [] {
      var init := scan[..|scan| - 1];
      PairedStemsMembers(f, init, v);
      assert forall k :: 0 <= k < |init| ==> init[k] == scan[k];
      if exists k :: 0 <= k < |scan| && Paired(f, scan[k]) && Stem(scan[k]) == v {
        var k :| 0 <= k < |scan| && Paired(f, scan[k]) && Stem(scan[k]) == v;
        if k < |init| {
          assert Paired(f, init[k]) && Stem(init[k]) == v;
        }
      }
    }
  }

  /** Every voice offered is a discovered pair, or the fallback `"default"`
      when there is no pair to offer; and every discovered pair is offered. */
  lemma VoicesMembers(folder: Option<Folder>, v: string)
    ensures folder.None? ==> Voices(folder) == ["default"]
    ensures folder.Some? ==>
      (v in Voices(folder) <==>
        || (exists k :: 0 <= k < |folder.value.scan| &&
              Paired(folder.value, folder.value.scan[k]) && Stem(folder.value.scan[k]) == v)
        || (v == "default" && PairedStems(folder.value, folder.value.scan) == []))
  {
    if folder.Some? {
      PairedStemsMembers(folder.value, folder.value.scan, v);
    }
  }

  /** `set_voice`'s error message: `"Voice '<v>' not found. Available voices: "`
      followed by the voices joined with `", "`. */
  function VoiceNotFound(v: string, voices: seq<string>): string {
    "Voice '" + v + "' not found. Available voices: " + Join(", ", voices)
  }

  /** The message names the rejected voice and lists every available one. */
  lemma VoiceNotFoundNamesAll(v: string, voices: seq<string>)
    ensures OccursAt(VoiceNotFound(v, voices), v, 7)
    ensures forall w :: w in voices ==> Contains(VoiceNotFound(v, voices), w)
  {
    var prefix := "Voice '" + v + "' not found. Available voices: ";
    var list := Join(", ", voices);
    var msg := VoiceNotFound(v, voices);
    assert msg == prefix + list;
    assert msg[7..7 + |v|] == v;
    forall w | w in voices ensures Contains(msg, w) {
      var k :| 0 <= k < |voices| && voices[k] == w;
      JoinContainsEach(", ", voices, k);
      var i :| 0 <= i <= |list| && OccursAt(list, w, i);
      assert msg[|prefix|..|prefix| + |list|] == list;
      OccursInside(msg, list, |prefix|, w, i);
    }
  }

  /** `f"{speaker}"`: `None` is formatted as the text "None". */
  function SpeakerName(speaker: Option<string>): string {
    match speaker
    case None => "None"
    case Some(s) => s
  }

  /** `_get_reference_audio`: `"default"` has no reference; any other name has
      one exactly when both `<name>.mp3` and `<name>.txt` exist, and it carries
      their bytes and decoded text (`decode` stands for `read_text`). */
  function GetReferenceAudio(folder: Option<Folder>, speaker: Option<string>,
                             decode: seq<byte> -> string): (r: Option<ReferenceAudio>)
    ensures speaker == Some("default") ==> r.None?
    ensures var audio, text := SpeakerName(speaker) + ".mp3", SpeakerName(speaker) + ".txt";
      && (r.Some? <==>
            speaker != Some("default") && folder.Some? &&
            audio in folder.value.files && text in folder.value.files)
      && (r.Some? ==>
            r.value.audio == folder.value.files[audio] &&
            r.value.text == decode(folder.value.files[text]))
  {
    if speaker == Some("default") then None
    else
      var name := SpeakerName(speaker);
      var audio, text := name + ".mp3", name + ".txt";
      if folder.Some? && audio in folder.value.files && text in folder.value.files
      then Some(ReferenceAudio(folder.value.files[audio], decode(folder.value.files[text])))
      else None
  }

  /** A voice discovered from `<v>.mp3` and `<v>.txt` (and not called
      "default") has a reference, made of exactly those two files. */
  lemma DiscoveredVoiceHasReference(f: Folder, k: nat, decode: seq<byte> -> string)
    requires k < |f.scan| && Paired(f, f.scan[k]) && |f.scan[k]| > 4
    requires f.scan[k] in f.files && Stem(f.scan[k]) != "default"
    ensures GetReferenceAudio(Some(f), Some(Stem(f.scan[k])), decode) ==
      Some(ReferenceAudio(f.files[f.scan[k]], decode(f.files[TextSibling(f.scan[k])])))
  {
    var name := f.scan[k];
    assert Stem(name) + ".mp3" == name by {
      assert name == name[..|name| - 4] + name[|name| - 4..];
    }
  }

  /** The request's `references`: the found reference alone, or nothing. */
  function BuildRequest(text: string, reference: Option<ReferenceAudio>): (q: TtsRequest)
    ensures q.text == text
    ensures |q.references| == if reference.Some? then 1 else 0
    ensures reference.Some? ==> q.references[0] == reference.value
    ensures q.chunkLength == 200 && q.format == "mp3" && q.mp3Bitrate == 128
    ensures q.referenceId.None? && q.normalize && q.latency == "normal"
  {
    TtsRequest(text, references := if reference.Some? then [reference.value] else [])
  }

  /** The endpoint `tts_file` posts to. */
  const TtsUrl := "https://api.fish.audio/v1/tts"

  /** The value Python's truth test gives a path argument: `None` and `""` are false. */
  predicate Truthy(p: Option<string>) {
    p.Some? && p.value != ""
  }

  /** The headers `tts_file` sends. */
  function TtsHeaders(apiKey: string): (h: map<string, string>)
    ensures h.Keys == {"authorization", "content-type"}
    ensures h["content-type"] == "application/msgpack"
    ensures |h["authorization"]| >= 7 && h["authorization"][..7] == "Bearer "
    ensures h["authorization"][7..] == apiKey
  {
    map["authorization" := "Bearer " + apiKey, "content-type" := "application/msgpack"]
  }

  /** What `tts_file` sends and where it writes: the POST it makes (serialised
      with msgpack) and the file it streams the answer into. */
  datatype TtsCall = TtsCall(file: Target, url: string, headers: map<string, string>, request: TtsRequest)

  /** The Fish Audio adapter's own state. */
  class FishAudioTts {
    /** `voices`, loaded once at construction. */
    var voices: seq<string>
    /** `voice_name`, set by `set_voice`. */
    var voiceName: string
    /** `service_config.api_key`. */
    var apiKey: string
    /** `output_path`, from the base class. */
    var outputPath: Option<string>

    /** `__init__`: the reference folder is created if missing, then scanned. */
    constructor (existing: Option<Folder>, apiKey: string, voiceName: string, outputPath: Option<string>)
      ensures voices == Voices(Some(existing.GetOr(EmptyFolder)))
      ensures this.voiceName == voiceName && this.apiKey == apiKey && this.outputPath == outputPath
    {
      var found := LoadVoices(Some(existing.GetOr(EmptyFolder)));
      voices := found;
      this.voiceName := voiceName;
      this.apiKey := apiKey;
      this.outputPath := outputPath;
    }

    /** `set_voice`: a listed voice becomes the current one; any other raises
        with the message that names it and the listed voices, changing nothing. */
    method SetVoice(v: string) returns (r: Outcome<string>)
      modifies this`voiceName
      ensures v in voices ==> r == Pass && voiceName == v
      ensures v !in voices ==> r == Fail(VoiceNotFound(v, voices)) && voiceName == old(voiceName)
    {
      if v in voices {
        voiceName := v;
        r := Pass;
      } else {
        r := Fail(VoiceNotFound(v, voices));
      }
    }

    /** `_get_output_path("mp3")`: a fresh `output.mp3` name in `output_path`,
        or in the working directory `cwd` when that is not set. */
    function OutputFile(cwd: string): (t: Target)
      reads this
      ensures t.NextFree? && t.prefix == "output.mp3"
      ensures t.dir == if Truthy(outputPath) then outputPath.value else cwd
    {
      NextFree(if Truthy(outputPath) then outputPath.value else cwd, "output.mp3")
    }

    /** `tts_file`: the request carries the text and at most one reference,
        the speaker's; the bearer token is the current key; the file is the
        given one or a fresh output name. */
    function TtsFile(text: string, folder: Option<Folder>, decode: seq<byte> -> string, cwd: string,
                     fileNameOrPath: Option<string> := None, speaker: Option<string> := None): (c: TtsCall)
      reads this
      ensures c.url == TtsUrl && c.headers == TtsHeaders(apiKey)
      ensures c.request == BuildRequest(text, GetReferenceAudio(folder, speaker, decode))
      ensures Truthy(fileNameOrPath) ==> c.file == Exact(fileNameOrPath.value)
      ensures !Truthy(fileNameOrPath) ==> c.file == OutputFile(cwd)
    {
      var file := if Truthy(fileNameOrPath) then Exact(fileNameOrPath.value) else OutputFile(cwd);
      TtsCall(file, TtsUrl, TtsHeaders(apiKey), BuildRequest(text, GetReferenceAudio(folder, speaker, decode)))
    }
  }

  /** Without a speaker, `tts_file` looks for the voice files `None.mp3` and `None.txt`. */
  lemma NoSpeakerLooksUpNone(folder: Option<Folder>, decode: seq<byte> -> string)
    ensures GetReferenceAudio(folder, None, decode) == GetReferenceAudio(folder, Some("None"), decode)
  {
  }

  /** A missing reference folder behaves like an empty one. */
  lemma MissingFolderIsEmpty(speaker: Option<string>, decode: seq<byte> -> string)
    ensures Voices(None) == Voices(Some(EmptyFolder)) == ["default"]
    ensures GetReferenceAudio(None, speaker, decode) == GetReferenceAudio(Some(EmptyFolder), speaker, decode)
  {
  }
}
