/** `edge_audio_generator.py`: choosing the Edge voice for a speaker's gender, naming
    the cached clip, and synthesising it only when the clip is not already on disk. */
module EdgeAudio {
  import opened Text
  import opened Paths
  import opened Report

  const PradeepVoice := "bn-BD-PradeepNeural"
  const NabanitaVoice := "bn-BD-NabanitaNeural"

  /** `VOICE_MAPPING`. */
  const VoiceMapping: map<string, string> :=
    map["male" := PradeepVoice, "female" := NabanitaVoice, "unknown" := NabanitaVoice]

  /** A truthy gender: present and not the empty string. */
  predicate Given(gender: Option<string>) {
    gender.Some? && gender.value != []
  }

  /** `VOICE_MAPPING.get(gender.lower() if gender else "unknown", VOICE_MAPPING["unknown"])`. */
  function VoiceFor(gender: Option<string>): (voice: string)
    ensures voice == PradeepVoice || voice == NabanitaVoice
  {
    var key := if Given(gender) then Lower(gender.value) else "unknown";
    if key in VoiceMapping then VoiceMapping[key] else VoiceMapping["unknown"]
  }

  /** `f"_{gender}"` when the gender is truthy, as given (not lower-cased). */
  function GenderTag(gender: Option<string>): string {
    if Given(gender) then "_" + gender.value else ""
  }

  /** `f"edge_{index}{gender_tag}.mp3"`. */
  function ClipName(index: int, gender: Option<string>): string {
    "edge_" + IntToString(index) + GenderTag(gender) + ".mp3"
  }

  /** `os.path.join(audio_folder, f"edge_{index}{gender_tag}.mp3")`. */
  function ClipPath(folder: string, index: int, gender: Option<string>): string {
    Join(folder, ClipName(index, gender))
  }

  /** `f"+{per:0.0f}%"` with `per = 100 * speed - 100`, the speed given in percent. */
  function RateString(speedPercent: int): string {
    "+" + IntToString(speedPercent - 100) + "%"
  }

  /** The request handed to `edge_tts.Communicate(text, voice, rate=...)`. */
  datatype Synthesis = Synthesis(text: string, voice: string, rate: string)

  /** The exception type TTS raises on text it will not synthesise. */
  const TtsRejection := "AssertionError"

  /** `generate_edge_voice`: the clip path, the request sent to the TTS service (none
      when the clip is already cached), and the clip, or the exception `save_sync`
      raises when TTS rejects the text; `decode` is `AudioSegment.from_file`. A
      rejected synthesis is taken to write nothing. */
  method GenerateEdgeVoice(text: string, folder: string, index: int, gender: Option<string>, speedPercent: int,
                           fs: FileSystem, rejects: string -> bool, decode: string -> seq<int>)
    returns (clip: Raised<seq<int>>, audioPath: string, request: Option<Synthesis>)
    modifies fs
    ensures audioPath == ClipPath(folder, index, gender)
    ensures old(audioPath in fs.paths) ==>
              request == None && clip == Returned(decode(audioPath)) && fs.paths == old(fs.paths)
    ensures !old(audioPath in fs.paths) ==>
              request == Some(Synthesis(text, VoiceFor(gender), RateString(speedPercent)))
    ensures !old(audioPath in fs.paths) && rejects(text) ==>
              clip == Raised(TtsRejection) && fs.paths == old(fs.paths)
    ensures !old(audioPath in fs.paths) && !rejects(text) ==>
              clip == Returned(decode(audioPath)) && fs.paths == old(fs.paths) + {audioPath}
  {
    var voice := VoiceFor(gender);
    var genderTag := GenderTag(gender);
    audioPath := Join(folder, "edge_" + IntToString(index) + genderTag + ".mp3");
    if fs.Exists(audioPath) {
      return Returned(decode(audioPath)), audioPath, None;
    }
    var strPer := RateString(speedPercent);
    request := Some(Synthesis(text, voice, strPer));
    if rejects(text) {
      return Raised(TtsRejection), audioPath, request;
    }
    fs.Write(audioPath);
    clip := Returned(decode(audioPath));
  }

  /** The voice depends on the gender only through its lower-cased form; "male" in any
      case picks Pradeep, everything else (absent, empty, "female", unmapped) Nabanita. */
  lemma VoiceChoice(gender: Option<string>)
    ensures Given(gender) ==> VoiceFor(gender) == VoiceFor(Some(Lower(gender.value)))
    ensures VoiceFor(gender) == PradeepVoice <==> Given(gender) && Lower(gender.value) == "male"
    ensures !Given(gender) ==> VoiceFor(gender) == NabanitaVoice
  {
    if Given(gender) {
      LowerIdempotent(gender.value);
      assert |Lower(gender.value)| == |gender.value| > 0;
    }
  }

  /** Clips of different indices for the same gender never share a cache file. */
  lemma ClipPathsDistinct(folder: string, i: int, j: int, gender: Option<string>)
    requires i != j
    ensures ClipPath(folder, i, gender) != ClipPath(folder, j, gender)
  {
    IntToStringDistinct(i, j);
    ClipNamesDistinct(IntToString(i), IntToString(j), GenderTag(gender));
    JoinInjective(folder, ClipName(i, gender), ClipName(j, gender));
  }

  lemma ClipNamesDistinct(x: string, y: string, tag: string)
    requires x != y
    ensures "edge_" + x + tag + ".mp3" != "edge_" + y + tag + ".mp3"
    ensures ("edge_" + x + tag + ".mp3")[0] == 'e'
  {
    var t := tag + ".mp3";
    assert "edge_" + x + tag + ".mp3" == "edge_" + (x + t);
    assert "edge_" + y + tag + ".mp3" == "edge_" + (y + t);
    if "edge_" + (x + t) == "edge_" + (y + t) {
      PrefixCancel("edge_", x + t, y + t);
      SuffixCancel(x, y, t);
    }
  }

  /** Normal speed is `+0%`, a slower one `+-N%`. */
  lemma RateExamples()
    ensures RateString(100) == "+0%"
    ensures RateString(90) == "+-10%"
    ensures RateString(125) == "+25%"
  {
    assert NatToString(10) == NatToString(1) + [Digit(0)];
    assert NatToString(25) == NatToString(2) + [Digit(5)];
  }
}
