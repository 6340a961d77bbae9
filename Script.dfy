/** The `__main__` block of `generate_video.py`: the same paths as the desktop
    worker, all stages run once without progress callbacks, a single point-timing
    attempt whose exception ends the script, and the same skips of outputs that exist. */
module Script {
  import opened Report
  import opened Paths
  import opened Deck
  import opened Cues
  import opened Timing
  import opened Media
  import opened Initialize
  import opened DesktopApp

  /** The merge unless the final video exists; an exception of the merge ends the script. */
  function ScriptMerge(a: Artifacts, combined: string, fs: set<string>, missing: string -> string): (Raised<()>, set<string>) {
    if a.videoPath in fs then (Returned(()), fs)
    else
      match MergeResult(a.pptVideoPath, combined, a.videoPath, fs, missing)
      case Raised(e) => (Raised(e), fs)
      case Returned(_) => (Returned(()), fs + {a.videoPath})
  }

  /** The script's outcome, the filesystem and the deck's slides afterwards, when it is
      started in `cwd` on the deck `pptFile`. */
  ghost function ScriptSpec(cwd: string, pptFile: string, slides: seq<Slide>, fs: set<string>, host: Host)
    : (Raised<()>, set<string>, seq<Slide>)
    requires RenderEnds(host)
  {
    var a := ArtifactsOf(cwd, pptFile);
    var (audioMap, fs1, _) := Front(a, slides, EnsureDir(fs, a.videoDir), host);
    ScriptAfterAudio(a, slides, audioMap, fs1, host)
  }

  /** The script from duration measurement on, once the audio map is built: one
      point-timing attempt, whose exception ends the script, then the outputs. */
  ghost function ScriptAfterAudio(a: Artifacts, slides: seq<Slide>, audioMap: map<int, seq<string>>, fs1: set<string>, host: Host)
    : (Raised<()>, set<string>, seq<Slide>)
    requires RenderEnds(host)
  {
    match ApplyTimings(slides, MeasuredMap(audioMap, host.dur), host.timingFaults(0))
    case Raised(e) => (Raised(e), fs1, slides)
    case Returned(timed) =>
      var fs2 := RenderStage(a.pptVideoPath, fs1, host.feed).1;
      var fs3 := CombineStage(audioMap, CombinedAudio(a), fs2).1;
      var (r, fs4) := ScriptMerge(a, CombinedAudio(a), fs3, host.missing);
      (r, fs4, timed)
  }

  /** `if __name__ == "__main__":` with `PPT_FILE` the deck at `pptFile`. */
  method RunScript(cwd: string, pptFile: string, deck: DeckFile, fs: FileSystem, host: Host) returns (r: Raised<()>)
    requires RenderEnds(host)
    modifies deck, fs
    ensures (r, fs.paths, deck.slides) == ScriptSpec(cwd, pptFile, old(deck.slides), old(fs.paths), host)
  {
    var a := ScriptPaths(cwd, pptFile, fs);
    ghost var fs0, slides := fs.paths, deck.slides;
    var audioMap, _ := GenerateAudioFromPoints(deck.slides, a.audioDir, fs, host.rejects);
    ghost var fs1 := fs.paths;
    r := ScriptTiming(a, deck, audioMap, fs, host);
    ScriptSpecAt(cwd, pptFile, a, slides, old(fs.paths), fs0, audioMap, fs1, host);
  }

  lemma ScriptSpecAt(cwd: string, pptFile: string, a: Artifacts, slides: seq<Slide>, fs: set<string>,
                     fs0: set<string>, audioMap: map<int, seq<string>>, fs1: set<string>, host: Host)
    requires RenderEnds(host) && a == ArtifactsOf(cwd, pptFile) && fs0 == EnsureDir(fs, a.videoDir)
    requires (audioMap, fs1) == AudioRun(slides, a.audioDir, host.rejects, fs0)
    ensures ScriptSpec(cwd, pptFile, slides, fs, host) == ScriptAfterAudio(a, slides, audioMap, fs1, host)
  {
  }

  /** The script's paths, derived from `PPT_FILE` as the worker derives them; the
      video directory is created when missing. */
  method ScriptPaths(cwd: string, pptFile: string, fs: FileSystem) returns (a: Artifacts)
    modifies fs
    ensures a == ArtifactsOf(cwd, pptFile)
    ensures fs.paths == EnsureDir(old(fs.paths), a.videoDir)
  {
    var videoFileName := Stem(Basename(pptFile));
    var parentDir := Dirname(Abspath(cwd, pptFile));
    var videoDir := Join(parentDir, videoFileName);
    if !fs.Exists(videoDir) {
      fs.MakeDirs(videoDir);
    }
    var videoFile := Join(videoDir, videoFileName + ".mp4");
    var pptVideo := Join(videoDir, videoFileName + "_ppt.mp4");
    var audioDir := Join(videoDir, "audio");
    a := Artifacts(pptFile, videoDir, videoFile, pptVideo, audioDir);
  }

  /** Duration measurement, the single point-timing attempt and the outputs. */
  method ScriptTiming(a: Artifacts, deck: DeckFile, audioMap: map<int, seq<string>>, fs: FileSystem, host: Host)
    returns (r: Raised<()>)
    requires RenderEnds(host)
    modifies deck, fs
    ensures (r, fs.paths, deck.slides) == ScriptAfterAudio(a, old(deck.slides), audioMap, old(fs.paths), host)
  {
    ghost var slides := deck.slides;
    var durationsMap, _ := MeasureDurations(audioMap, host.dur);
    ghost var outcome := ApplyTimings(slides, durationsMap, host.timingFaults(0));
    var timing, _ := ApplyPointTimings(deck, durationsMap, host.timingFaults(0));
    if timing.Raised? {
      assert outcome == Raised(timing.error) && deck.slides == slides;
      return Raised(timing.error);
    }
    assert outcome.Returned? && deck.slides == outcome.value;
    r := ScriptOutputs(a, audioMap, fs, host);
  }

  /** Render, combine and merge, each skipped when its output exists. */
  method ScriptOutputs(a: Artifacts, audioMap: map<int, seq<string>>, fs: FileSystem, host: Host) returns (r: Raised<()>)
    requires RenderEnds(host)
    modifies fs
    ensures var fs2 := RenderStage(a.pptVideoPath, old(fs.paths), host.feed).1;
            var fs3 := CombineStage(audioMap, CombinedAudio(a), fs2).1;
            (r, fs.paths) == ScriptMerge(a, CombinedAudio(a), fs3, host.missing)
  {
    ghost var fs1 := fs.paths;
    if !fs.Exists(a.pptVideoPath) {
      var status, polls, _ := PptToVideo(a.pptVideoPath, fs, host.feed);
      PollsDetermined(host.feed, polls, RenderPolls(host.feed));
    }
    assert fs.paths == RenderStage(a.pptVideoPath, fs1, host.feed).1;
    ghost var fs2 := fs.paths;
    var combinedAudioFile := Join(a.videoDir, "combined_audio.mp3");
    if !fs.Exists(combinedAudioFile) {
      var _, _, _ := CombineAudio(audioMap, combinedAudioFile, fs, host.samples);
    }
    assert fs.paths == CombineStage(audioMap, combinedAudioFile, fs2).1;
    ghost var fs3 := fs.paths;
    if fs.Exists(a.videoPath) {
      return Returned(());
    }
    var merged, _ := MergeAudioVideo(a.pptVideoPath, combinedAudioFile, a.videoPath, fs, host.missing);
    if merged.Raised? {
      return Raised(merged.error);
    }
    assert merged == MergeResult(a.pptVideoPath, combinedAudioFile, a.videoPath, fs3, host.missing);
    r := Returned(());
  }

  /** The script's outcome `r` matches the worker's signals `sig`: it raises exactly
      when the last signal is an error, and with that error's message. */
  predicate SameOutcome(r: Raised<()>, sig: seq<Signal>) {
    |sig| > 0
    && (r.Raised? <==> sig[|sig| - 1].Error?)
    && (r.Raised? ==> sig[|sig| - 1] == Error(r.error))
  }

  /** The script's outputs after a successful first point timing. */
  lemma ScriptOutcome(cwd: string, pptFile: string, slides: seq<Slide>, fs: set<string>, host: Host)
    requires RenderEnds(host)
    requires var a := ArtifactsOf(cwd, pptFile);
             var audioMap := Front(a, slides, EnsureDir(fs, a.videoDir), host).0;
             ApplyTimings(slides, MeasuredMap(audioMap, host.dur), host.timingFaults(0)).Returned?
    ensures var a := ArtifactsOf(cwd, pptFile);
            var (audioMap, fs1, _) := Front(a, slides, EnsureDir(fs, a.videoDir), host);
            var fs3 := CombineStage(audioMap, CombinedAudio(a), RenderStage(a.pptVideoPath, fs1, host.feed).1).1;
            var m := ScriptMerge(a, CombinedAudio(a), fs3, host.missing);
            ScriptSpec(cwd, pptFile, slides, fs, host)
              == (m.0, m.1, ApplyTimings(slides, MeasuredMap(audioMap, host.dur), host.timingFaults(0)).value)
  {
  }

  /** The script's merge leaves the files the worker's merge stage leaves, and raises
      exactly when that stage ends with an error, with the same message. */
  lemma ScriptMergeAgrees(a: Artifacts, combined: string, fs: set<string>, missing: string -> string)
    ensures var script := ScriptMerge(a, combined, fs, missing);
            var stage := MergeStage(a, combined, fs, missing);
            script.1 == stage.1 && SameOutcome(script.0, stage.0)
  {
    MergeTerminal(a, combined, fs, missing);
    if a.videoPath !in fs {
      var ev := Stage("Merge: ", MergeEvents(a.pptVideoPath, combined, fs));
      match MergeResult(a.pptVideoPath, combined, a.videoPath, fs, missing)
      case Raised(e) =>
        assert MergeStage(a, combined, fs, missing).0 == ev + [Error(e)];
      case Returned(_) =>
        assert MergeStage(a, combined, fs, missing).0 == ev + [Progressed(100, "Done"), Finished(a.videoPath)];
    }
  }

  /** A run whose point timing succeeds ends as its outputs end. */
  lemma RunEndsWithOutputs(a: Artifacts, slides: seq<Slide>, fs: set<string>, host: Host)
    requires RenderEnds(host)
    requires var audioMap := Front(a, slides, fs, host).0;
             TimingRetry(slides, MeasuredMap(audioMap, host.dur), host.timingFaults, 0).0.Returned?
    ensures var (audioMap, fs1, _) := Front(a, slides, fs, host);
            var out := Outputs(a, audioMap, fs1, host);
            var run := RunSpec(a, slides, fs, host);
            |out.0| > 0 && run.0[|run.0| - 1] == out.0[|out.0| - 1] && run.1 == out.1
            && run.2 == TimingRetry(slides, MeasuredMap(audioMap, host.dur), host.timingFaults, 0).0.value
  {
    var (audioMap, fs1, front) := Front(a, slides, fs, host);
    var timing := TimingRetry(slides, MeasuredMap(audioMap, host.dur), host.timingFaults, 0);
    var out := Outputs(a, audioMap, fs1, host).0;
    OutputsTerminal(a, audioMap, fs1, host);
    assert RunSpec(a, slides, fs, host).0 == (front + timing.2) + out;
  }

  /** When the first point-timing attempt succeeds, the script and the desktop worker
      (created on the same filesystem) leave the same files and the same deck, and the
      script raises exactly when the worker ends with an error, with the same message. */
  lemma ScriptAgreesWithWorker(cwd: string, pptFile: string, slides: seq<Slide>, fs: set<string>, host: Host)
    requires RenderEnds(host)
    requires var a := ArtifactsOf(cwd, pptFile);
             var audioMap := Front(a, slides, EnsureDir(fs, a.videoDir), host).0;
             ApplyTimings(slides, MeasuredMap(audioMap, host.dur), host.timingFaults(0)).Returned?
    ensures var a := ArtifactsOf(cwd, pptFile);
            var script := ScriptSpec(cwd, pptFile, slides, fs, host);
            var worker := RunSpec(a, slides, EnsureDir(fs, a.videoDir), host);
            script.1 == worker.1 && script.2 == worker.2 && SameOutcome(script.0, worker.0)
  {
    var a := ArtifactsOf(cwd, pptFile);
    var fs0 := EnsureDir(fs, a.videoDir);
    var (audioMap, fs1, front) := Front(a, slides, fs0, host);
    ScriptOutcome(cwd, pptFile, slides, fs, host);
    var d := MeasuredMap(audioMap, host.dur);
    assert TimingRetry(slides, d, host.timingFaults, 0).0 == ApplyTimings(slides, d, host.timingFaults(0));
    RunEndsWithOutputs(a, slides, fs0, host);
    OutputsEnd(a, audioMap, fs1, host);
    var fs3 := CombineStage(audioMap, CombinedAudio(a), RenderStage(a.pptVideoPath, fs1, host.feed).1).1;
    ScriptMergeAgrees(a, CombinedAudio(a), fs3, host.missing);
  }

  /** The script does not retry: when the first point-timing attempt fails and the
      second would succeed, the script ends with the first exception and leaves the
      deck as it was, while the worker goes on with the second attempt's timings. */
  lemma ScriptDoesNotRetry(cwd: string, pptFile: string, slides: seq<Slide>, fs: set<string>, host: Host)
    requires RenderEnds(host)
    requires var a := ArtifactsOf(cwd, pptFile);
             var d := MeasuredMap(Front(a, slides, EnsureDir(fs, a.videoDir), host).0, host.dur);
             ApplyTimings(slides, d, host.timingFaults(0)).Raised? && ApplyTimings(slides, d, host.timingFaults(1)).Returned?
    ensures var a := ArtifactsOf(cwd, pptFile);
            var front := Front(a, slides, EnsureDir(fs, a.videoDir), host);
            var d := MeasuredMap(front.0, host.dur);
            ScriptSpec(cwd, pptFile, slides, fs, host) == (Raised(ApplyTimings(slides, d, host.timingFaults(0)).error), front.1, slides)
            && RunSpec(a, slides, EnsureDir(fs, a.videoDir), host).2 == ApplyTimings(slides, d, host.timingFaults(1)).value
  {
    var a := ArtifactsOf(cwd, pptFile);
    var d := MeasuredMap(Front(a, slides, EnsureDir(fs, a.videoDir), host).0, host.dur);
    var second := TimingRetry(slides, d, host.timingFaults, 1);
    assert second.0 == ApplyTimings(slides, d, host.timingFaults(1));
    assert TimingRetry(slides, d, host.timingFaults, 0).0 == second.0;
  }
}
