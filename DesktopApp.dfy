/** `desktop_app.py`'s `ConversionWorker`: the artifact paths derived from the deck
    path, and the stage sequence of `run` with its timing retries, its skips of
    outputs that already exist and its single terminal signal. */
module DesktopApp {
  import opened Text
  import opened Report
  import opened Paths
  import opened Deck
  import opened Cues
  import opened Timing
  import opened Media
  import opened Initialize

  /** What the worker emits: `progress(percent, message)`, `finished(path)` or `error(message)`. */
  datatype Signal = Progressed(percent: int, message: string) | Finished(path: string) | Error(message: string)

  predicate IsTerminal(s: Signal) {
    s.Finished? || s.Error?
  }

  /** The `progress` signals a stage's callback emits. */
  function Signals(events: seq<Progress>): (r: seq<Signal>)
    ensures |r| == |events|
    ensures forall i :: 0 <= i < |events| ==> r[i] == Progressed(events[i].percent, events[i].message)
  {
    seq(|events|, i requires 0 <= i < |events| => Progressed(events[i].percent, events[i].message))
  }

  predicate NoTerminal(signals: seq<Signal>) {
    forall i :: 0 <= i < |signals| ==> !IsTerminal(signals[i])
  }

  /** The signals of a stage whose callback prefixes every message with `prefix`. */
  function Stage(prefix: string, events: seq<Progress>): (r: seq<Signal>)
    ensures NoTerminal(r)
  {
    Signals(Prefixed(prefix, events))
  }

  /** What the host supplies: the TTS rejections, clip durations and samples, the
      fault (if any) raised when opening the deck in each timing attempt, the export
      job's status readings, and the loader's error for a missing media file. */
  datatype Host = Host(rejects: Rejects, dur: string -> real, timingFaults: nat -> Option<string>,
                       feed: StatusFeed, samples: string -> seq<int>, missing: string -> string)

  ghost predicate RenderEnds(host: Host) {
    exists n: nat :: !Rendering(host.feed(n))
  }

  /** The worker's paths. */
  datatype Artifacts = Artifacts(pptPath: string, videoDir: string, videoPath: string, pptVideoPath: string, audioDir: string)

  /** The paths `__init__` derives from the deck path, relative to the working directory `cwd`. */
  function ArtifactsOf(cwd: string, pptPath: string): Artifacts {
    var videoFileName := Stem(Basename(pptPath));
    var videoDir := VideoDir(cwd, pptPath);
    Artifacts(pptPath, videoDir, Join(videoDir, videoFileName + ".mp4"),
              Join(videoDir, videoFileName + "_ppt.mp4"), Join(videoDir, "audio"))
  }

  /** `os.path.join(self.video_dir, "combined_audio.mp3")`. */
  function CombinedAudio(a: Artifacts): string {
    Join(a.videoDir, "combined_audio.mp3")
  }

  function RetryMessage(e: string, attempt: nat): string {
    "Retrying point timing due to error: " + e + " (attempt " + IntToString(attempt + 2) + "/3)"
  }

  function FailureMessage(e: string): string {
    "Video generation failed during point timing: " + e
  }

  // ---------------------------------------------------------------------------
  // The run as a value.

  /** Audio generation and duration measurement, up to the start of point timing:
      the audio map, the filesystem and the signals so far. */
  ghost function Front(a: Artifacts, slides: seq<Slide>, fs: set<string>, host: Host)
    : (map<int, seq<string>>, set<string>, seq<Signal>)
  {
    var (audioMap, fs1) := AudioRun(slides, a.audioDir, host.rejects, fs);
    (audioMap, fs1, FrontSignals(|slides|, TotalItems(audioMap)))
  }

  /** The signals up to point timing, for a deck of `slideCount` slides and `cueCount` cues. */
  function FrontSignals(slideCount: nat, cueCount: nat): seq<Signal> {
    [Progressed(0, "Starting audio generation...")]
    + Stage("Audio: ", Ticks("Generating audio ", slideCount))
    + [Progressed(0, "Starting duration measurement...")]
    + Stage("Duration: ", Ticks("Measuring duration ", cueCount))
    + [Progressed(0, "Starting point timing...")]
  }

  /** The retry loop from attempt `attempt` on: the outcome, the number of attempts
      made in all, and the signals. A failed attempt leaves the deck as it was. */
  function Retry(result: nat -> Raised<seq<Slide>>, report: nat -> seq<Progress>, attempt: nat)
    : (r: (Raised<seq<Slide>>, nat, seq<Signal>))
    requires attempt < 3
    ensures attempt < r.1 <= 3 && (r.0.Raised? ==> r.1 == 3)
    decreases 3 - attempt
  {
    var ev := Stage("Point timing: ", report(attempt));
    match result(attempt)
    case Returned(timed) => (Returned(timed), attempt + 1, ev)
    case Raised(e) =>
      if attempt == 2 then (Raised(e), 3, ev + [Error(FailureMessage(e))])
      else
        var next := Retry(result, report, attempt + 1);
        var attempts: nat := next.1;
        (next.0, attempts, ev + [Progressed(0, RetryMessage(e, attempt))] + next.2)
  }

  /** Attempt `k` of the retry loop: `apply_point_timings` with the fault of attempt `k`. */
  function Attempts(slides: seq<Slide>, durations: map<int, seq<real>>, faults: nat -> Option<string>)
    : nat -> Raised<seq<Slide>>
  {
    (k: nat) => ApplyTimings(slides, durations, faults(k))
  }

  function AttemptEvents(slides: seq<Slide>, durations: map<int, seq<real>>, faults: nat -> Option<string>)
    : nat -> seq<Progress>
  {
    (k: nat) => ApplyTimingsEvents(slides, durations, faults(k))
  }

  /** The retry loop over the deck's slides, the measured durations and the deck-opening faults. */
  function TimingRetry(slides: seq<Slide>, durations: map<int, seq<real>>, faults: nat -> Option<string>, attempt: nat)
    : (r: (Raised<seq<Slide>>, nat, seq<Signal>))
    requires attempt < 3
  {
    Retry(Attempts(slides, durations, faults), AttemptEvents(slides, durations, faults), attempt)
  }

  ghost function RenderStage(pptVideoPath: string, fs: set<string>, feed: StatusFeed): (seq<Signal>, set<string>)
    requires exists n: nat :: !Rendering(feed(n))
  {
    if pptVideoPath in fs then ([], fs)
    else
      var polls := RenderPolls(feed);
      (Stage("Video: ", RenderEvents(polls, feed(polls))), if feed(polls) == 3 then fs + {pptVideoPath} else fs)
  }

  ghost function CombineStage(audioMap: map<int, seq<string>>, combined: string, fs: set<string>): (seq<Signal>, set<string>) {
    if combined in fs then ([], fs)
    else (Stage("Audio: ", Ticks("Combining audio ", TotalItems(audioMap)) + [Progress(100, "Combining audio completed.")]),
          fs + {combined})
  }

  /** The merge unless the final video exists, then the terminal signal(s). */
  function MergeStage(a: Artifacts, combined: string, fs: set<string>, missing: string -> string): (seq<Signal>, set<string>) {
    if a.videoPath in fs then ([Progressed(100, "Done"), Finished(a.videoPath)], fs)
    else
      var ev := Stage("Merge: ", MergeEvents(a.pptVideoPath, combined, fs));
      match MergeResult(a.pptVideoPath, combined, a.videoPath, fs, missing)
      case Raised(e) => (ev + [Error(e)], fs)
      case Returned(_) => (ev + [Progressed(100, "Done"), Finished(a.videoPath)], fs + {a.videoPath})
  }

  /** Everything after a successful point timing. */
  ghost function Outputs(a: Artifacts, audioMap: map<int, seq<string>>, fs: set<string>, host: Host): (seq<Signal>, set<string>)
    requires RenderEnds(host)
  {
    var (render, fs2) := RenderStage(a.pptVideoPath, fs, host.feed);
    var (combine, fs3) := CombineStage(audioMap, CombinedAudio(a), fs2);
    var (merge, fs4) := MergeStage(a, CombinedAudio(a), fs3, host.missing);
    ([Progressed(0, "Starting video generation...")] + render + [Progressed(0, "Starting audio combination...")]
     + combine + [Progressed(0, "Starting merge audio and video...")] + merge, fs4)
  }

  /** `run`: its signals, the filesystem and the deck's slides afterwards. */
  ghost function RunSpec(a: Artifacts, slides: seq<Slide>, fs: set<string>, host: Host): (seq<Signal>, set<string>, seq<Slide>)
    requires RenderEnds(host)
  {
    var (audioMap, fs1, front) := Front(a, slides, fs, host);
    var timing := TimingRetry(slides, MeasuredMap(audioMap, host.dur), host.timingFaults, 0);
    match timing.0
    case Raised(_) => (front + timing.2, fs1, slides)
    case Returned(timed) =>
      var (out, fs2) := Outputs(a, audioMap, fs1, host);
      (front + timing.2 + out, fs2, timed)
  }

  // ---------------------------------------------------------------------------
  // The worker.

  class ConversionWorker {
    var pptPath: string
    var videoDir: string
    var videoPath: string
    var pptVideoPath: string
    var audioDir: string

    function Paths(): Artifacts
      reads this
    {
      Artifacts(pptPath, videoDir, videoPath, pptVideoPath, audioDir)
    }

    /** `__init__`: derives the paths and creates the video directory when missing. */
    constructor (pptPath: string, cwd: string, fs: FileSystem)
      modifies fs
      ensures Paths() == ArtifactsOf(cwd, pptPath)
      ensures fs.paths == EnsureDir(old(fs.paths), VideoDir(cwd, pptPath))
    {
      this.pptPath := pptPath;
      var videoFileName := Stem(Basename(pptPath));
      var parentDir := Dirname(Abspath(cwd, pptPath));
      var dir := Join(parentDir, videoFileName);
      videoDir := dir;
      videoPath := Join(dir, videoFileName + ".mp4");
      pptVideoPath := Join(dir, videoFileName + "_ppt.mp4");
      audioDir := Join(dir, "audio");
      new;
      if !fs.Exists(dir) {
        fs.MakeDirs(dir);
      }
    }

    /** `run`, over the deck file at `pptPath`. */
    method Run(deck: DeckFile, fs: FileSystem, host: Host) returns (signals: seq<Signal>)
      requires RenderEnds(host)
      modifies deck, fs
      ensures (signals, fs.paths, deck.slides) == RunSpec(Paths(), old(deck.slides), old(fs.paths), host)
    {
      ghost var slides, fs0 := deck.slides, fs.paths;
      var audioMap, durationsMap;
      audioMap, durationsMap, signals := RunFront(deck, fs, host);
      ghost var fs1 := fs.paths;
      ghost var timing := TimingRetry(slides, durationsMap, host.timingFaults, 0);
      var timed, timingSignals := RetryPointTimings(deck, durationsMap, host.timingFaults);
      signals := signals + timingSignals;
      if !timed {
        assert timing.0.Raised?;
        return;
      }
      var outputSignals := RunOutputs(audioMap, fs, host);
      assert timing.0.Returned? && deck.slides == timing.0.value;
      signals := signals + outputSignals;
    }

    /** Audio generation and duration measurement, with their start messages. */
    method RunFront(deck: DeckFile, fs: FileSystem, host: Host)
      returns (audioMap: map<int, seq<string>>, durationsMap: map<int, seq<real>>, signals: seq<Signal>)
      modifies fs
      ensures (audioMap, fs.paths, signals) == Front(Paths(), deck.slides, old(fs.paths), host)
      ensures durationsMap == MeasuredMap(audioMap, host.dur)
    {
      signals := [Progressed(0, "Starting audio generation...")];
      var audioEvents;
      audioMap, audioEvents := GenerateAudioFromPoints(deck.slides, audioDir, fs, host.rejects);
      signals := signals + Stage("Audio: ", audioEvents);
      signals := signals + [Progressed(0, "Starting duration measurement...")];
      var durationEvents;
      durationsMap, durationEvents := MeasureDurations(audioMap, host.dur);
      signals := signals + Stage("Duration: ", durationEvents);
      signals := signals + [Progressed(0, "Starting point timing...")];
    }

    /** `for attempt in range(3)`: `apply_point_timings` until the first success; the
        third failure emits the error. */
    method RetryPointTimings(deck: DeckFile, durationsMap: map<int, seq<real>>, faults: nat -> Option<string>)
      returns (timed: bool, signals: seq<Signal>)
      modifies deck
      ensures var r := TimingRetry(old(deck.slides), durationsMap, faults, 0);
              timed == r.0.Returned? && signals == r.2
              && deck.slides == if r.0.Returned? then r.0.value else old(deck.slides)
    {
      ghost var slides := deck.slides;
      signals := [];
      var attempt := 0;
      ghost var result, report := Attempts(slides, durationsMap, faults), AttemptEvents(slides, durationsMap, faults);
      assert signals + Retry(result, report, 0).2 == Retry(result, report, 0).2;
      while attempt < 3
        invariant 0 <= attempt <= 2
        invariant deck.slides == slides
        invariant RetryFrom(result, report, attempt, signals)
        decreases 3 - attempt
      {
        var r, events := ApplyPointTimings(deck, durationsMap, faults(attempt));
        assert result(attempt) == ApplyTimings(slides, durationsMap, faults(attempt));
        assert events == report(attempt);
        var ev := Stage("Point timing: ", events);
        if r.Returned? {
          RetryStops(result, report, attempt, signals);
          signals := signals + ev;
          return true, signals;
        }
        if attempt == 2 {
          RetryStops(result, report, attempt, signals);
          signals := signals + ev + [Error(FailureMessage(r.error))];
          return false, signals;
        }
        RetryContinues(result, report, attempt, signals);
        signals := signals + ev + [Progressed(0, RetryMessage(r.error, attempt))];
        attempt := attempt + 1;
      }
      timed := false;
    }

    /** Render, combine and merge, each skipped when its output exists, then the terminal signal. */
    method RunOutputs(audioMap: map<int, seq<string>>, fs: FileSystem, host: Host) returns (signals: seq<Signal>)
      requires RenderEnds(host)
      modifies fs
      ensures (signals, fs.paths) == Outputs(Paths(), audioMap, old(fs.paths), host)
    {
      var render := RenderVideo(fs, host.feed);
      var combinedAudioFile := Join(videoDir, "combined_audio.mp3");
      var combine := CombineTrack(audioMap, combinedAudioFile, fs, host.samples);
      var merge := MergeAndFinish(combinedAudioFile, fs, host.missing);
      signals := [Progressed(0, "Starting video generation...")] + render + [Progressed(0, "Starting audio combination...")]
                 + combine + [Progressed(0, "Starting merge audio and video...")] + merge;
    }

    method RenderVideo(fs: FileSystem, feed: StatusFeed) returns (signals: seq<Signal>)
      requires exists n: nat :: !Rendering(feed(n))
      modifies fs
      ensures (signals, fs.paths) == RenderStage(pptVideoPath, old(fs.paths), feed)
    {
      signals := [];
      if !fs.Exists(pptVideoPath) {
        var status, polls, events := PptToVideo(pptVideoPath, fs, feed);
        PollsDetermined(feed, polls, RenderPolls(feed));
        signals := Stage("Video: ", events);
      }
    }

    method CombineTrack(audioMap: map<int, seq<string>>, combinedAudioFile: string, fs: FileSystem,
                        samples: string -> seq<int>) returns (signals: seq<Signal>)
      modifies fs
      ensures (signals, fs.paths) == CombineStage(audioMap, combinedAudioFile, old(fs.paths))
    {
      signals := [];
      if !fs.Exists(combinedAudioFile) {
        var _, _, events := CombineAudio(audioMap, combinedAudioFile, fs, samples);
        signals := Stage("Audio: ", events);
      }
    }

    method MergeAndFinish(combinedAudioFile: string, fs: FileSystem, missing: string -> string) returns (signals: seq<Signal>)
      modifies fs
      ensures (signals, fs.paths) == MergeStage(Paths(), combinedAudioFile, old(fs.paths), missing)
    {
      var done := [Progressed(100, "Done"), Finished(videoPath)];
      if fs.Exists(videoPath) {
        return done;
      }
      ghost var fs0 := fs.paths;
      var r, events := MergeAudioVideo(pptVideoPath, combinedAudioFile, videoPath, fs, missing);
      signals := Stage("Merge: ", events);
      if r.Raised? {
        signals := signals + [Error(r.error)];
        return;
      }
      assert r == MergeResult(pptVideoPath, combinedAudioFile, videoPath, fs0, missing);
      signals := signals + done;
    }
  }

  /** After `attempt` failed attempts, `done` are the signals so far and the rest of
      the loop finishes the whole loop. */
  ghost predicate RetryFrom(result: nat -> Raised<seq<Slide>>, report: nat -> seq<Progress>,
                            attempt: nat, done: seq<Signal>)
  {
    attempt < 3
    && var whole, rest := Retry(result, report, 0), Retry(result, report, attempt);
       whole == (rest.0, rest.1, done + rest.2)
  }

  lemma RetryStops(result: nat -> Raised<seq<Slide>>, report: nat -> seq<Progress>,
                   attempt: nat, done: seq<Signal>)
    requires RetryFrom(result, report, attempt, done)
    requires result(attempt).Returned? || attempt == 2
    ensures var whole := Retry(result, report, 0);
            var ev := Stage("Point timing: ", report(attempt));
            match result(attempt)
            case Returned(timed) => whole.0 == Returned(timed) && whole.2 == done + ev
            case Raised(e) => whole.0 == Raised(e) && whole.2 == done + ev + [Error(FailureMessage(e))]
  {
    var ev := Stage("Point timing: ", report(attempt));
    if result(attempt).Raised? {
      assert done + (ev + [Error(FailureMessage(result(attempt).error))])
          == done + ev + [Error(FailureMessage(result(attempt).error))];
    }
  }

  lemma RetryContinues(result: nat -> Raised<seq<Slide>>, report: nat -> seq<Progress>,
                       attempt: nat, done: seq<Signal>)
    requires RetryFrom(result, report, attempt, done)
    requires result(attempt).Raised? && attempt < 2
    ensures RetryFrom(result, report, attempt + 1,
                      done + Stage("Point timing: ", report(attempt))
                      + [Progressed(0, RetryMessage(result(attempt).error, attempt))])
  {
    var ev := Stage("Point timing: ", report(attempt));
    var m := [Progressed(0, RetryMessage(result(attempt).error, attempt))];
    var next := Retry(result, report, attempt + 1);
    var whole := Retry(result, report, 0);
    RetryUnfold(result, report, attempt);
    assert whole.0 == next.0 && whole.1 == next.1;
    assert whole.2 == done + (ev + m + next.2);
    SignalsAssoc(done, ev, m, next.2);
  }

  /** A failed attempt before the last is followed by its retry message and the next attempt. */
  lemma RetryUnfold(result: nat -> Raised<seq<Slide>>, report: nat -> seq<Progress>, attempt: nat)
    requires result(attempt).Raised? && attempt < 2
    ensures var next := Retry(result, report, attempt + 1);
            Retry(result, report, attempt)
            == (next.0, next.1, Stage("Point timing: ", report(attempt))
                                + [Progressed(0, RetryMessage(result(attempt).error, attempt))]
                                + next.2)
  {
  }

  lemma SignalsAssoc(a: seq<Signal>, b: seq<Signal>, c: seq<Signal>, d: seq<Signal>)
    ensures a + (b + c + d) == (a + b + c) + d
  {
  }

  // ---------------------------------------------------------------------------
  // Properties of the run.

  /** Exactly one terminal signal, and it comes last. */
  predicate OneTerminalLast(signals: seq<Signal>) {
    |signals| > 0 && IsTerminal(signals[|signals| - 1]) && NoTerminal(signals[..|signals| - 1])
  }

  lemma NoTerminalConcat(a: seq<Signal>, b: seq<Signal>)
    requires NoTerminal(a) && NoTerminal(b)
    ensures NoTerminal(a + b)
  {
    forall i | 0 <= i < |a + b|
      ensures !IsTerminal((a + b)[i])
    {
      if i >= |a| {
        assert (a + b)[i] == b[i - |a|];
      }
    }
  }

  lemma ThenOne(head: seq<Signal>, tail: seq<Signal>)
    requires NoTerminal(head) && OneTerminalLast(tail)
    ensures OneTerminalLast(head + tail)
    ensures (head + tail)[|head + tail| - 1] == tail[|tail| - 1]
    ensures |tail| >= 2 ==> (head + tail)[|head + tail| - 2] == tail[|tail| - 2]
  {
    var s := head + tail;
    assert s[..|s| - 1] == head + tail[..|tail| - 1];
    NoTerminalConcat(head, tail[..|tail| - 1]);
  }

  /** `apply_point_timings` runs at most three times and stops at the first success:
      every attempt before the last failed, the outcome is the last attempt's, and
      only three failures end the loop with an exception. */
  lemma {:induction false} RetryBound(result: nat -> Raised<seq<Slide>>, report: nat -> seq<Progress>, attempt: nat)
    requires attempt < 3
    ensures var r := Retry(result, report, attempt);
            attempt < r.1 <= 3
            && r.0 == result(r.1 - 1)
            && (forall k: nat :: attempt <= k < r.1 - 1 ==> result(k).Raised?)
            && (r.0.Raised? ==> r.1 == 3)
  {
    RetryOutcome(result, report, attempt);
    RetryEarlierFailed(result, report, attempt);
  }

  /** The loop's outcome is its last attempt's. */
  lemma {:induction false} RetryOutcome(result: nat -> Raised<seq<Slide>>, report: nat -> seq<Progress>, attempt: nat)
    requires attempt < 3
    ensures var r := Retry(result, report, attempt);
            r.0 == result(r.1 - 1)
    decreases 3 - attempt
  {
    if result(attempt).Raised? && attempt < 2 {
      RetryOutcome(result, report, attempt + 1);
    }
  }

  /** Every attempt before the loop's last one failed. */
  lemma {:induction false} RetryEarlierFailed(result: nat -> Raised<seq<Slide>>, report: nat -> seq<Progress>, attempt: nat)
    requires attempt < 3
    ensures var r := Retry(result, report, attempt);
            forall k: nat :: attempt <= k < r.1 - 1 ==> result(k).Raised?
    decreases 3 - attempt
  {
    if result(attempt).Raised? && attempt < 2 {
      RetryEarlierFailed(result, report, attempt + 1);
    }
  }

  /** The retry loop emits no terminal signal unless it gives up, and then exactly
      one, last: the point-timing failure. */
  lemma {:induction false} RetryTerminal(result: nat -> Raised<seq<Slide>>, report: nat -> seq<Progress>, attempt: nat)
    requires attempt < 3
    ensures Retry(result, report, attempt).0.Returned? ==> NoTerminal(Retry(result, report, attempt).2)
    ensures Retry(result, report, attempt).0.Raised? ==>
              EndsWith(Retry(result, report, attempt).2,
                       Error(FailureMessage(Retry(result, report, attempt).0.error)))
    decreases 3 - attempt
  {
    var outcome := result(attempt);
    if outcome.Raised? {
      var ev := Stage("Point timing: ", report(attempt));
      if attempt == 2 {
        GiveUpEnds(ev, FailureMessage(outcome.error));
      } else {
        RetryTerminal(result, report, attempt + 1);
        var next := Retry(result, report, attempt + 1);
        var retry := Progressed(0, RetryMessage(outcome.error, attempt));
        if next.0.Raised? {
          RetryStepEnds(ev, retry, true, next.2, Error(FailureMessage(next.0.error)));
        } else {
          RetryStepEnds(ev, retry, false, next.2, retry);
        }
      }
    }
  }

  /** `signals` has exactly one terminal signal, `last`, at its end. */
  predicate EndsWith(signals: seq<Signal>, last: Signal) {
    OneTerminalLast(signals) && signals[|signals| - 1] == last
  }

  lemma GiveUpEnds(ev: seq<Signal>, message: string)
    requires NoTerminal(ev)
    ensures EndsWith(ev + [Error(message)], Error(message))
  {
    var fail := [Error(message)];
    assert fail[..0] == [];
    ThenOne(ev, fail);
  }

  lemma RetryStepEnds(ev: seq<Signal>, retry: Signal, raised: bool, rest: seq<Signal>, last: Signal)
    requires NoTerminal(ev) && !IsTerminal(retry)
    requires raised ==> EndsWith(rest, last)
    requires !raised ==> NoTerminal(rest)
    ensures raised ==> EndsWith(ev + [retry] + rest, last)
    ensures !raised ==> NoTerminal(ev + [retry] + rest)
  {
    NoTerminalConcat(ev, [retry]);
    if raised {
      ThenOne(ev + [retry], rest);
    } else {
      NoTerminalConcat(ev + [retry], rest);
    }
  }

  /** The numbering of the retry announcements. */
  lemma RetryMessageNumbers(e: string)
    ensures RetryMessage(e, 0) == "Retrying point timing due to error: " + e + " (attempt 2/3)"
    ensures RetryMessage(e, 1) == "Retrying point timing due to error: " + e + " (attempt 3/3)"
  {
    assert IntToString(2) == "2" && IntToString(3) == "3";
    var x := "Retrying point timing due to error: " + e;
    assert " (attempt " + "2" + "/3)" == " (attempt 2/3)";
    assert " (attempt " + "3" + "/3)" == " (attempt 3/3)";
    assert RetryMessage(e, 0) == x + (" (attempt " + "2" + "/3)");
    assert RetryMessage(e, 1) == x + (" (attempt " + "3" + "/3)");
  }

  /** Three failures in a row: each failure but the last is announced as a retry
      (numbered 2/3 and 3/3), and the last one ends the loop with the failure message. */
  lemma RetryMessages(result: nat -> Raised<seq<Slide>>, report: nat -> seq<Progress>)
    requires forall k: nat :: k < 3 ==> result(k).Raised?
    ensures var e0, e1, e2 := result(0).error,
                              result(1).error,
                              result(2).error;
            var ev0, ev1, ev2 := Stage("Point timing: ", report(0)),
                                 Stage("Point timing: ", report(1)),
                                 Stage("Point timing: ", report(2));
            Retry(result, report, 0)
            == (Raised(e2), 3,
                ev0 + [Progressed(0, RetryMessage(e0, 0))] + (ev1 + [Progressed(0, RetryMessage(e1, 1))]
                + (ev2 + [Error(FailureMessage(e2))])))
  {
    assert result(0).Raised?;
    assert result(1).Raised?;
    assert result(2).Raised?;
  }

  /** The give-up error names the point-timing stage and carries the exception's text. */
  lemma FailureMessageNamesStage(e: string)
    ensures Contains(FailureMessage(e), "failed during point timing")
    ensures Contains(FailureMessage(e), e)
  {
    FailureMessageHasStage(e);
    FailureMessageHasError(e);
  }

  lemma FailureMessageHasStage(e: string)
    ensures Contains(FailureMessage(e), "failed during point timing")
  {
    assert FailureMessage(e) == "Video generation " + "failed during point timing" + (": " + e);
    ContainsMiddle("Video generation ", "failed during point timing", ": " + e);
  }

  lemma FailureMessageHasError(e: string)
    ensures Contains(FailureMessage(e), e)
  {
    assert FailureMessage(e) == "Video generation failed during point timing: " + e + [];
    ContainsMiddle("Video generation failed during point timing: ", e, []);
  }

  lemma FrontProgress(slideCount: nat, cueCount: nat)
    ensures NoTerminal(FrontSignals(slideCount, cueCount))
  {
    var p0: seq<Signal> := [Progressed(0, "Starting audio generation...")];
    var p1: seq<Signal> := [Progressed(0, "Starting duration measurement...")];
    var p2: seq<Signal> := [Progressed(0, "Starting point timing...")];
    var audio := Stage("Audio: ", Ticks("Generating audio ", slideCount));
    var measure := Stage("Duration: ", Ticks("Measuring duration ", cueCount));
    NoTerminalConcat(p0, audio);
    NoTerminalConcat(p0 + audio, p1);
    NoTerminalConcat(p0 + audio + p1, measure);
    NoTerminalConcat(p0 + audio + p1 + measure, p2);
  }

  /** Exactly one terminal signal, last; when it is `finished`, it names `videoPath`
      and comes right after `progress(100, "Done")`. */
  predicate Concludes(signals: seq<Signal>, videoPath: string) {
    OneTerminalLast(signals)
    && (signals[|signals| - 1].Finished? ==>
          signals[|signals| - 1] == Finished(videoPath)
          && |signals| >= 2 && signals[|signals| - 2] == Progressed(100, "Done"))
  }

  /** Progress reported ahead of a concluded sequence keeps it concluded. */
  lemma ConcludesAfter(head: seq<Signal>, tail: seq<Signal>, videoPath: string)
    requires NoTerminal(head) && Concludes(tail, videoPath)
    ensures Concludes(head + tail, videoPath)
  {
    ThenOne(head, tail);
  }

  lemma MergeTerminal(a: Artifacts, combined: string, fs: set<string>, missing: string -> string)
    ensures Concludes(MergeStage(a, combined, fs, missing).0, a.videoPath)
  {
    var done := [Progressed(100, "Done"), Finished(a.videoPath)];
    assert OneTerminalLast(done) by {
      assert done[..1] == [Progressed(100, "Done")];
    }
    if a.videoPath !in fs {
      var ev := Stage("Merge: ", MergeEvents(a.pptVideoPath, combined, fs));
      match MergeResult(a.pptVideoPath, combined, a.videoPath, fs, missing)
      case Raised(e) =>
        var fail := [Error(e)];
        assert OneTerminalLast(fail) by {
          assert fail[..0] == [];
        }
        ThenOne(ev, fail);
      case Returned(_) =>
        ThenOne(ev, done);
    }
  }

  /** After render, combine and merge there is exactly one terminal signal, last; it
      is `finished(video_path)`, right after `progress(100, "Done")`, unless the merge raised. */
  lemma OutputsTerminal(a: Artifacts, audioMap: map<int, seq<string>>, fs: set<string>, host: Host)
    requires RenderEnds(host)
    ensures Concludes(Outputs(a, audioMap, fs, host).0, a.videoPath)
  {
    var (render, fs2) := RenderStage(a.pptVideoPath, fs, host.feed);
    var (combine, fs3) := CombineStage(audioMap, CombinedAudio(a), fs2);
    var merge := MergeStage(a, CombinedAudio(a), fs3, host.missing).0;
    var q0: seq<Signal> := [Progressed(0, "Starting video generation...")];
    var q1: seq<Signal> := [Progressed(0, "Starting audio combination...")];
    var q2: seq<Signal> := [Progressed(0, "Starting merge audio and video...")];
    assert NoTerminal(render) && NoTerminal(combine);
    NoTerminalConcat(q0, render);
    NoTerminalConcat(q0 + render, q1);
    NoTerminalConcat(q0 + render + q1, combine);
    NoTerminalConcat(q0 + render + q1 + combine, q2);
    var head := q0 + render + q1 + combine + q2;
    MergeTerminal(a, CombinedAudio(a), fs3, host.missing);
    ConcludesAfter(head, merge, a.videoPath);
    assert Outputs(a, audioMap, fs, host).0 == head + merge;
  }

  /** Every run, successful or not, ends with exactly one terminal signal: after
      `progress(100, "Done")` the `finished(video_path)` signal, or else one `error`. */
  lemma RunTerminal(a: Artifacts, slides: seq<Slide>, fs: set<string>, host: Host)
    requires RenderEnds(host)
    ensures Concludes(RunSpec(a, slides, fs, host).0, a.videoPath)
  {
    var (audioMap, fs1, front) := Front(a, slides, fs, host);
    var timing := TimingRetry(slides, MeasuredMap(audioMap, host.dur), host.timingFaults, 0);
    RetryTerminal(Attempts(slides, MeasuredMap(audioMap, host.dur), host.timingFaults),
                  AttemptEvents(slides, MeasuredMap(audioMap, host.dur), host.timingFaults), 0);
    FrontProgress(|slides|, TotalItems(audioMap));
    if timing.0.Raised? {
      ThenOne(front, timing.2);
      assert RunSpec(a, slides, fs, host).0 == front + timing.2;
    } else {
      var out := Outputs(a, audioMap, fs1, host).0;
      OutputsTerminal(a, audioMap, fs1, host);
      NoTerminalConcat(front, timing.2);
      ConcludesAfter(front + timing.2, out, a.videoPath);
      assert RunSpec(a, slides, fs, host).0 == (front + timing.2) + out;
    }
  }

  /** When point timing gives up, nothing is rendered, combined or merged, the deck
      keeps its slides, and the run ends with the point-timing failure. */
  lemma TimingFailureStops(a: Artifacts, slides: seq<Slide>, fs: set<string>, host: Host)
    requires RenderEnds(host)
    requires TimingRetry(slides, MeasuredMap(Front(a, slides, fs, host).0, host.dur), host.timingFaults, 0).0.Raised?
    ensures var run := RunSpec(a, slides, fs, host);
            var e := TimingRetry(slides, MeasuredMap(Front(a, slides, fs, host).0, host.dur), host.timingFaults, 0).0.error;
            run.1 == Front(a, slides, fs, host).1 && run.2 == slides
            && run.0[|run.0| - 1] == Error(FailureMessage(e))
  {
    var (audioMap, fs1, front) := Front(a, slides, fs, host);
    var timing := TimingRetry(slides, MeasuredMap(audioMap, host.dur), host.timingFaults, 0);
    RetryTerminal(Attempts(slides, MeasuredMap(audioMap, host.dur), host.timingFaults),
                  AttemptEvents(slides, MeasuredMap(audioMap, host.dur), host.timingFaults), 0);
    assert RunSpec(a, slides, fs, host).0 == front + timing.2;
  }

  /** An animated slide for which no cue was produced makes every timing attempt fail
      (with `IndexError` unless opening the deck failed first), so the run ends with
      the point-timing failure and produces no video. */
  lemma SilentAnimatedSlideFails(a: Artifacts, slides: seq<Slide>, fs: set<string>, host: Host, k: int)
    requires RenderEnds(host)
    requires 1 <= k <= |slides| && |slides[k - 1].effects| >= 1
    requires var m := AudioRun(slides, a.audioDir, host.rejects, fs).0; k in m && m[k] == []
    ensures var run := RunSpec(a, slides, fs, host);
            var f := host.timingFaults(2);
            run.1 == Front(a, slides, fs, host).1 && run.2 == slides
            && run.0[|run.0| - 1] == Error(FailureMessage(if f.Some? then f.value else IndexErrorMessage))
  {
    var audioMap := Front(a, slides, fs, host).0;
    MeasuredEmptyIff(audioMap, host.dur, k);
    SilentSlideRetryFails(slides, MeasuredMap(audioMap, host.dur), host.timingFaults, k);
    TimingFailureStops(a, slides, fs, host);
  }

  /** An animated slide with an empty duration list makes all three attempts fail;
      the last one's error is the deck-opening fault, or else `IndexError`. */
  lemma SilentSlideRetryFails(slides: seq<Slide>, d: map<int, seq<real>>, faults: nat -> Option<string>, k: int)
    requires 1 <= k <= |slides| && |slides[k - 1].effects| >= 1 && k in d && d[k] == []
    ensures TimingRetry(slides, d, faults, 0).0 == Raised(if faults(2).Some? then faults(2).value else IndexErrorMessage)
  {
    TimingSucceedsIff(slides, d, 0);
    assert !Timeable(slides, d, 0) by {
      assert k - 1 + 1 in d && d[k - 1 + 1] == [];
    }
    var result := Attempts(slides, d, faults);
    forall j: nat | j < 3
      ensures result(j).Raised?
    {
      assert result(j) == ApplyTimings(slides, d, faults(j));
    }
    RetryBound(result, AttemptEvents(slides, d, faults), 0);
    assert result(2) == ApplyTimings(slides, d, faults(2));
  }

  /** Outputs that already exist are not produced again: with all three present, the
      run only announces the stages and finishes. */
  lemma OutputsSkipped(a: Artifacts, audioMap: map<int, seq<string>>, fs: set<string>, host: Host)
    requires RenderEnds(host)
    requires a.pptVideoPath in fs && CombinedAudio(a) in fs && a.videoPath in fs
    ensures Outputs(a, audioMap, fs, host)
            == ([Progressed(0, "Starting video generation..."), Progressed(0, "Starting audio combination..."),
                 Progressed(0, "Starting merge audio and video..."), Progressed(100, "Done"), Finished(a.videoPath)], fs)
  {
    var q0, q1, q2 := Progressed(0, "Starting video generation..."), Progressed(0, "Starting audio combination..."),
                      Progressed(0, "Starting merge audio and video...");
    var done := [Progressed(100, "Done"), Finished(a.videoPath)];
    assert RenderStage(a.pptVideoPath, fs, host.feed) == ([], fs);
    assert CombineStage(audioMap, CombinedAudio(a), fs) == ([], fs);
    assert MergeStage(a, CombinedAudio(a), fs, host.missing) == (done, fs);
    assert Outputs(a, audioMap, fs, host).0 == [q0] + [] + [q1] + [] + [q2] + done;
    assert [q0] + [] + [q1] + [] + [q2] + done == [q0, q1, q2] + done;
    assert Outputs(a, audioMap, fs, host).1 == fs;
    assert [q0, q1, q2] + done == [q0, q1, q2, done[0], done[1]];
  }

  lemma PlainConcat(x: string, y: string)
    requires '/' !in x && '/' !in y
    ensures '/' !in x + y
  {
  }

  /** Plain names joined onto a directory come apart again as that directory and the name. */
  lemma ChildrenLayout(dir: string, stem: string)
    requires IsDirShape(dir) && '/' !in stem
    ensures Dirname(Join(dir, stem + ".mp4")) == dir && Basename(Join(dir, stem + ".mp4")) == stem + ".mp4"
    ensures Dirname(Join(dir, stem + "_ppt.mp4")) == dir && Basename(Join(dir, stem + "_ppt.mp4")) == stem + "_ppt.mp4"
    ensures Dirname(Join(dir, "audio")) == dir && Basename(Join(dir, "audio")) == "audio"
    ensures Dirname(Join(dir, "combined_audio.mp3")) == dir && Basename(Join(dir, "combined_audio.mp3")) == "combined_audio.mp3"
  {
    StemChildren(dir, stem);
    FixedChildren(dir);
  }

  lemma StemChildren(dir: string, stem: string)
    requires IsDirShape(dir) && '/' !in stem
    ensures Dirname(Join(dir, stem + ".mp4")) == dir && Basename(Join(dir, stem + ".mp4")) == stem + ".mp4"
    ensures Dirname(Join(dir, stem + "_ppt.mp4")) == dir && Basename(Join(dir, stem + "_ppt.mp4")) == stem + "_ppt.mp4"
  {
    PlainConcat(stem, ".mp4");
    PlainConcat(stem, "_ppt.mp4");
    JoinSplit(dir, stem + ".mp4");
    JoinSplit(dir, stem + "_ppt.mp4");
  }

  lemma FixedChildren(dir: string)
    requires IsDirShape(dir)
    ensures Dirname(Join(dir, "audio")) == dir && Basename(Join(dir, "audio")) == "audio"
    ensures Dirname(Join(dir, "combined_audio.mp3")) == dir && Basename(Join(dir, "combined_audio.mp3")) == "combined_audio.mp3"
  {
    var audio, combined := "audio", "combined_audio.mp3";
    assert '/' !in audio && '/' !in combined;
    JoinSplit(dir, audio);
    JoinSplit(dir, combined);
  }

  /** The derived paths: the video directory holds the final video `stem.mp4`, the
      rendered video `stem_ppt.mp4`, the combined track and the `audio` folder. */
  lemma ArtifactsLayout(cwd: string, pptPath: string)
    requires Stem(Basename(pptPath)) != []
    ensures var a := ArtifactsOf(cwd, pptPath);
            var stem := Stem(Basename(pptPath));
            a.videoDir == VideoDir(cwd, pptPath) && Basename(a.videoDir) == stem
            && Dirname(a.videoPath) == a.videoDir && Basename(a.videoPath) == stem + ".mp4"
            && Dirname(a.pptVideoPath) == a.videoDir && Basename(a.pptVideoPath) == stem + "_ppt.mp4"
            && Dirname(a.audioDir) == a.videoDir && Basename(a.audioDir) == "audio"
            && Dirname(CombinedAudio(a)) == a.videoDir && Basename(CombinedAudio(a)) == "combined_audio.mp3"
  {
    var stem := Stem(Basename(pptPath));
    StemIsPlain(Basename(pptPath));
    VideoDirParts(cwd, pptPath);
    JoinPlainShape(Dirname(Abspath(cwd, pptPath)), stem);
    ChildrenLayout(VideoDir(cwd, pptPath), stem);
  }

  lemma NamesApart(dir: string, stem: string)
    requires '/' !in stem
    ensures var v, p, c, d := Join(dir, stem + ".mp4"), Join(dir, stem + "_ppt.mp4"), Join(dir, "combined_audio.mp3"), Join(dir, "audio");
            v != p && v != c && p != c && d != v && d != p && d != c
  {
    var v, p := stem + ".mp4", stem + "_ppt.mp4";
    assert v[|v| - 1] == '4' && p[|p| - 1] == '4' && |p| == |v| + 4;
    assert (v == [] || v[0] != '/') && (p == [] || p[0] != '/');
    JoinInjective(dir, v, p);
    JoinInjective(dir, v, "combined_audio.mp3");
    JoinInjective(dir, p, "combined_audio.mp3");
    JoinInjective(dir, "audio", v);
    JoinInjective(dir, "audio", p);
    JoinInjective(dir, "audio", "combined_audio.mp3");
  }

  /** The four artifacts are distinct files. */
  lemma ArtifactsDistinct(cwd: string, pptPath: string)
    ensures var a := ArtifactsOf(cwd, pptPath);
            a.videoPath != a.pptVideoPath && a.videoPath != CombinedAudio(a) && a.pptVideoPath != CombinedAudio(a)
            && a.audioDir != a.videoPath && a.audioDir != a.pptVideoPath && a.audioDir != CombinedAudio(a)
  {
    StemIsPlain(Basename(pptPath));
    NamesApart(VideoDir(cwd, pptPath), Stem(Basename(pptPath)));
  }

  lemma MergeMissingVideo(a: Artifacts, combined: string, fs: set<string>, missing: string -> string)
    requires a.pptVideoPath !in fs && a.videoPath !in fs
    ensures var m := MergeStage(a, combined, fs, missing);
            m.0[|m.0| - 1] == Error(missing(a.pptVideoPath)) && m.1 == fs
  {
  }

  /** The run's outputs end as its merge stage ends. */
  lemma OutputsEnd(a: Artifacts, audioMap: map<int, seq<string>>, fs: set<string>, host: Host)
    requires RenderEnds(host)
    ensures var fs3 := CombineStage(audioMap, CombinedAudio(a), RenderStage(a.pptVideoPath, fs, host.feed).1).1;
            var merge := MergeStage(a, CombinedAudio(a), fs3, host.missing);
            var out := Outputs(a, audioMap, fs, host);
            |merge.0| > 0 && out.0[|out.0| - 1] == merge.0[|merge.0| - 1] && out.1 == merge.1
  {
    var (render, fs2) := RenderStage(a.pptVideoPath, fs, host.feed);
    var (combine, fs3) := CombineStage(audioMap, CombinedAudio(a), fs2);
    var merge := MergeStage(a, CombinedAudio(a), fs3, host.missing).0;
    MergeTerminal(a, CombinedAudio(a), fs3, host.missing);
    var head := [Progressed(0, "Starting video generation...")] + render + [Progressed(0, "Starting audio combination...")]
                + combine + [Progressed(0, "Starting merge audio and video...")];
    assert Outputs(a, audioMap, fs, host).0 == head + merge;
  }

  /** A render that does not complete leaves no rendered video, so the merge raises
      the loader's error for it and the run ends with that error. */
  lemma FailedRenderErrors(cwd: string, pptPath: string, audioMap: map<int, seq<string>>, fs: set<string>, host: Host)
    requires RenderEnds(host)
    requires var a := ArtifactsOf(cwd, pptPath); a.pptVideoPath !in fs && a.videoPath !in fs
    requires host.feed(RenderPolls(host.feed)) != 3
    ensures var a := ArtifactsOf(cwd, pptPath);
            var out := Outputs(a, audioMap, fs, host);
            EndsWith(out.0, Error(host.missing(a.pptVideoPath))) && a.pptVideoPath !in out.1 && a.videoPath !in out.1
  {
    var a := ArtifactsOf(cwd, pptPath);
    ArtifactsDistinct(cwd, pptPath);
    FailedRenderErrorsAt(a, audioMap, fs, host);
  }

  lemma FailedRenderErrorsAt(a: Artifacts, audioMap: map<int, seq<string>>, fs: set<string>, host: Host)
    requires RenderEnds(host)
    requires a.pptVideoPath !in fs && a.videoPath !in fs
    requires a.pptVideoPath != CombinedAudio(a) && a.videoPath != CombinedAudio(a)
    requires host.feed(RenderPolls(host.feed)) != 3
    ensures var out := Outputs(a, audioMap, fs, host);
            EndsWith(out.0, Error(host.missing(a.pptVideoPath))) && a.pptVideoPath !in out.1 && a.videoPath !in out.1
  {
    var fs2 := RenderStage(a.pptVideoPath, fs, host.feed).1;
    assert fs2 == fs;
    var fs3 := CombineStage(audioMap, CombinedAudio(a), fs2).1;
    assert fs3 <= fs + {CombinedAudio(a)};
    MergeMissingVideo(a, CombinedAudio(a), fs3, host.missing);
    OutputsEnd(a, audioMap, fs, host);
    OutputsTerminal(a, audioMap, fs, host);
  }
}
