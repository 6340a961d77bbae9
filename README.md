# AutoNarrate pipeline in Dafny

AutoNarrate turns a PowerPoint deck into a narrated video. For every bullet point in
the deck it synthesises one audio clip, plus a 4-second silence for a slide's second
picture. It measures the clips and writes their durations into the deck's animation
timings, so each point appears in sync with its narration. It then lets PowerPoint
export the deck as a video, concatenates the clips into one track, and overlays the
track on the video. A Qt desktop front end runs the same stages in a worker. The
worker adds progress signals, retries the timing step, and ends with exactly one
terminal signal.

This project models that core as imperative Dafny and proves it against
specification functions:

- `Cues`: the slide, shape and paragraph loops of `generate_audio_from_points`. It
  models the `point_counter`, the `image_counter` and the skip-if-exists check.
- `Media`: three parts of one file.
  - `measure_durations`.
  - `combine_audio`, with its ascending key order.
  - The poll loop of `ppt_to_video`, plus `merge_audio_video`.
- `Timing`: the per-slide timing rule of `apply_point_timings`.
- `DesktopApp`: `ConversionWorker.__init__` and `run`. This covers the retry loop,
  the skips, the stage order and the signals.
- `Script`: the `__main__` block of `generate_video.py`.
- Helpers:
  - `EdgeAudio`: `generate_edge_voice` and `VOICE_MAPPING`.
  - `RandomVoice`: the gender buckets and `get_random_voice`.
  - `Initialize`: the two directory helpers.
- Support modules:
  - `Text`: `str()`, `strip()`, `lower()` and `\w`.
  - `Report`: percentages and progress ticks.
  - `Paths`: POSIX `os.path`, and the filesystem as a set of existing paths.
  - `Deck`: shapes, effects and slides.

The outside world is passed in as parameters:

- TTS rejection (`AssertionError`) is a predicate on the stripped text.
- Clip durations are `dur: string -> real`.
- Decoded samples are `samples: string -> seq<int>`.
- PowerPoint's `CreateVideoStatus` readings are `feed: nat -> int`.
- A fault when opening the deck, one per timing attempt, is `nat -> Option<string>`.
- The loader's error message for a missing media file is `missing: string -> string`.

The deck on disk is a `DeckFile` object whose slides `apply_point_timings` replaces.
The filesystem is a `FileSystem` object holding the set of existing paths.

Where the code and its documentation disagree, the model follows the code:

- Effect `k >= 2` of a slide waits for `durs[k-1]`, which is its own cue's duration
  counted 1-based, not the previous cue's. Past the end of the list it waits 0.
- A slide without effects still gets `AdvanceOnTime` and `AdvanceTime = sum(durs)`.
- A slide without cues is still a key of the audio map, with an empty list. If it
  has an animation effect, `durs[0]` raises `IndexError`. The worker retries that
  three times and then reports the failure, so no video is made.
- `create_video_directory` and `create_temp_audio_folder` never delete an existing
  directory, despite their doc comments.
- Under a TTS that rejects no text, re-running audio generation gives the same map
  (`Cues.RerunIdempotent`). Taking a rejected synthesis to leave no file behind, the
  file of the rejected index belongs to the next paragraph. A re-run then finds that file and gives it to
  the rejected paragraph, so the slide's list grows (`Cues.RerunAfterRejection`).
- The render progress `50 + 10·k` is not capped, and passes 100 from the sixth
  running poll (`Media.RenderPercentUncapped`).

## Model

| member | source | states |
|---|---|---|
| Text.IntToString | edge_audio_generator.py:34 | `f"{i}"`: the decimal digits of `i`, preceded by `-` when `i` is negative; what follows from this is stated by `Text.LeadingMinus` and `Text.IntToStringInjective` |
| Text.LeadingMinus | edge_audio_generator.py:34 | the rendering starts with `-` exactly when the integer is negative |
| Text.NatToStringInjective | generate_video.py:109 | distinct counters give distinct decimal renderings, so the file names differ |
| Text.Strip | generate_video.py:122 | `strip()` leaves no whitespace at either end |
| Text.StripKeepsWordChars | generate_video.py:122-124 | the stripped paragraph has a `\w` character exactly when the raw paragraph has one |
| Text.StripUnpadded | generate_video.py:122 | a string with no whitespace at either end is its own `strip()` |
| Text.Lower | random_voice_picker.py:14 | `lower()` keeps the length, maps every character through the ASCII lower-casing, and leaves no upper-case letter |
| Text.LowerIdempotent | random_voice_picker.py:22 | lower-casing an already lower-cased gender changes nothing |
| Report.Percent | generate_video.py:156 | `int(100 * done / total)` is the percentage rounded down: `p·total <= 100·done < (p+1)·total` |
| Report.PercentInRange | generate_video.py:154-157 | a completed fraction is reported within 0..100, and as 100 exactly when all items are done |
| Report.PercentMonotone | generate_video.py:154-157 | more items done never gives a smaller percentage |
| Report.Ticks | generate_video.py:87-89 | a counted loop reports one tick per item, the `c`-th tick being `"<caption>c/total"` at its percentage; its bounds and order are stated by `Report.TicksInRange` |
| Report.TicksInRange | generate_video.py:247-250 | every tick is within 0..100, the ticks never decrease, and only the last one is 100 |
| Report.Prefixed | desktop_app.py:49 | the callback lambda keeps every percentage and puts the stage prefix in front of every message; `DesktopApp.Stage` states that such a stream carries no terminal signal |
| Paths.Basename | desktop_app.py:34 | `basename` contains no `/` and is a suffix of the path |
| Paths.Dirname | desktop_app.py:35 | `dirname` is no longer than the path and has no trailing slash unless it is the root |
| Paths.Stem | desktop_app.py:34 | `splitext(...)[0]` is a prefix of the name |
| Paths.Lineage | generate_video.py:78 | the set of directories `makedirs(p)` leaves existing contains `p` itself |
| Paths.LineageShort | generate_video.py:78 | `makedirs(p)` creates no directory longer than `p` |
| Paths.JoinInjective | generate_video.py:109 | joining distinct relative names onto one directory gives distinct paths |
| Paths.JoinSplit | initialize.py:11 | a directory joined with a plain name splits back into that directory and that name |
| Paths.StemIsPlain | initialize.py:9 | the stem of a base name holds no `/` |
| Paths.FileSystem.MakeDirs | initialize.py:14 | `makedirs` adds the directory and its ancestors to the existing paths and nothing else |
| Paths.FileSystem.Write | generate_video.py:112 | writing a file adds exactly that path |
| Cues.CueFileInjective | generate_video.py:109 | two cue indices of one slide never name the same file |
| Cues.CueFileOutsideLineage | generate_video.py:78 | no cue file is the output directory or one of its ancestors |
| Cues.DeckWalk | generate_video.py:83-137 | the slide loop gives one list per slide from slide `i+1` on |
| Cues.AudioMapOf | generate_video.py:82-84 | the audio map's keys are exactly `1..n`, and slide `k` maps to its own list |
| Cues.NarrateParagraphs | generate_video.py:121-137 | the paragraph loop leaves the counter, the list and the filesystem that the paragraph walk specifies |
| Cues.NarrateParagraph | generate_video.py:122-137 | one paragraph: skipped without a `\w` character; otherwise a file already on disk is reused, a text that TTS rejects takes no index, and the new state is the paragraph step of the walk |
| Cues.NarrateShape | generate_video.py:93-137 | one shape of the slide loop (picture counting, the second picture's silent clip, then the text frame's paragraphs) leaves the counters, list and filesystem that one shape step of the walk specifies |
| Cues.NarrateSlide | generate_video.py:84-137 | the shape loop, starting from `point_counter = 1` and `image_counter = 0`, gives the slide walk's list and filesystem |
| Cues.GenerateAudioFromPoints | generate_video.py:72-138 | the map and filesystem are those of the whole deck walk after `makedirs(output_dir)`; one tick per slide `int(100·s/n)` |
| Cues.ParagraphsFollowPlan | generate_video.py:121-125 | the paragraph loop takes exactly the speech cues of the paragraphs that have a `\w` character |
| Cues.ShapeFollowsPlan | generate_video.py:91-119 | one shape takes its planned cues (silence if it is the second picture, then its text frame's speech) and counts itself if it is a picture |
| Cues.ShapesFollowPlan | generate_video.py:91-137 | a slide's shape loop takes exactly the slide's planned cues, in order, and counts its pictures |
| Cues.SpeechCuesExactly | generate_video.py:122-125 | a paragraph yields a speech cue, with its stripped text, iff it has a `\w` character; no speech cue is empty |
| Cues.SpeechCuesHaveNoSilence | generate_video.py:121-137 | text frames never yield a silence cue |
| Cues.SilenceCount | generate_video.py:93-98 | with `before` pictures already counted, the shapes yield one silence cue exactly when the picture count passes 2 |
| Cues.SlideSilence | generate_video.py:93-116 | a slide has one silence cue iff it has at least two pictures: the first and the third-or-later pictures yield none |
| Cues.CuesWalkNumbered | generate_video.py:127-137 | whatever TTS rejects, the list stays `point_1, point_2, …` without gaps, every listed file exists, files are only added, and each cue appends at most once |
| Cues.SlideWalkNumbered | generate_video.py:85-137 | a slide's list names `slide_<s>_point_1.mp3 …` contiguously, has at most one file per planned cue, and lists only existing files |
| Cues.DeckWalkNumbered | generate_video.py:83-137 | every slide's list in the deck walk is numbered contiguously from 1 under its own slide number, its files exist, and no file disappears |
| Cues.AudioMapShape | generate_video.py:83-84 | every slide `1..n` is a key, an empty slide included; slide `k`'s list names its own numbered files, which exist afterwards; the output directory exists |
| Cues.CuesWalkSettled | generate_video.py:128-134 | when TTS rejects nothing, or every file is already on disk, each cue takes the next index |
| Cues.DeckWalkSettled | generate_video.py:83-137 | under the same condition the deck walk's lists and files depend only on the planned cue counts |
| Cues.RerunIdempotent | generate_video.py:110-115 | under a TTS that rejects no text, a re-run returns the same map and writes nothing, whatever TTS then does |
| Cues.PlainParagraph | generate_video.py:122-125 | a one-letter paragraph is synthesised as it is |
| Cues.ExampleSlideWalk | generate_video.py:127-137 | a rejected paragraph consumes no index: the next paragraph takes it, unless the file is on disk, in which case the rejected paragraph takes it |
| Cues.RerunAfterRejection | generate_video.py:128-137 | after a rejection, a second run over the files of the first gives the slide a longer list |
| Timing.TimedEffects | generate_video.py:192-210 | one timed effect per original effect, effect `k` timed by the rule; the rule is spelt out in `Timing.TimingRule` |
| Timing.TimeFrom | generate_video.py:180-222 | a successful pass returns as many slides as it was given |
| Timing.TimeSlideEffects | generate_video.py:185-226 | the effect loop of one slide computes the slide timing rule's result and its progress ticks |
| Timing.ApplyPointTimings | generate_video.py:163-229 | on success the deck file holds the timed slides; on an exception it is left as it was (the save is never reached); the reported progress is the specified one |
| Timing.TimingRule | generate_video.py:192-222 | effect 1 starts with the previous one after `durs[0]`; effect `k >= 2` starts after the previous one after `durs[k-1]`, or after 0 past the end of the list; the slide advances on time after `sum(durs)`; the shapes are kept |
| Timing.TimingExample | generate_video.py:195-206 | durations `[2.0, 3.5, 1.0]` on three effects give delays `[2.0, 3.5, 1.0]` and an advance time of 6.5 |
| Timing.StaticSlideAdvances | generate_video.py:218-225 | a slide without effects is still set to advance after the sum, and reports only "Timing applied" |
| Timing.SlideTimingEventsInRange | generate_video.py:197-225 | a slide's percentages are within 0..100 and end with `(100, "Timing applied")`; nothing is reported iff the slide raises |
| Timing.TimingSucceedsIff | generate_video.py:192-195 | timing succeeds exactly when no animated slide of the map has an empty duration list; otherwise it raises `IndexError` |
| Timing.TimingPointwise | generate_video.py:180-185 | a successful pass times exactly the slides that are keys of the map, and returns every other slide unchanged |
| Timing.TimingKeepsShapes | generate_video.py:180-222 | timing never changes the number of slides or any slide's shapes |
| Timing.TimeSlideTwice | generate_video.py:192-222 | timing an already timed slide with the same durations changes nothing |
| Timing.TimingIdempotent | generate_video.py:180-222 | applying the same timings to a deck that already has them changes nothing |
| Timing.TimeFromIgnoresPrefix | generate_video.py:180-183 | the rest of the pass depends only on the slides from the current one on |
| Media.MinKey | generate_video.py:245 | the smallest key of a non-empty key set |
| Media.SortedKeys | generate_video.py:245 | `sorted(keys)` holds each key exactly once, in strictly increasing order |
| Media.SortKeys | generate_video.py:245 | the selection loop returns `sorted(keys)` |
| Media.SortedKeysUnique | generate_video.py:245 | any strictly increasing list of exactly the keys is `sorted(keys)` |
| Media.Durations | generate_video.py:149-152 | a slide's duration list is as long as its file list, with `dur` of each file at the same index |
| Media.MeasureDurations | generate_video.py:140-161 | the result has the input's keys, each slide's durations are index-aligned with its files, and there is one tick per file over the total |
| Media.MeasuredMap | generate_video.py:145-160 | the measured map keeps the keys, and aligns each slide's durations with its files |
| Media.MeasuredEmptyIff | generate_video.py:149-160 | a slide's duration list is empty exactly when it had no cue |
| Media.MeasureSlides | generate_video.py:148-160 | the slide loop fills one duration list per listed slide and ticks once per file |
| Media.MeasureFiles | generate_video.py:150-157 | the file loop measures every file in order and continues the tick sequence |
| Media.TotalLength | generate_video.py:146 | `sum(len(files) …)` counts every cue file |
| Media.MeasuredAlignsWithTrack | generate_video.py:245-251 | read in ascending slide order, the measured durations line up one for one with the clips `combine_audio` concatenates |
| Media.ConcatAppend | generate_video.py:251 | concatenating two runs of clips is the concatenation of their tracks |
| Media.CombineAudio | generate_video.py:238-256 | the track is every clip's samples, slides ascending and cues in order; one tick per clip, then `(100, "Combining audio completed.")`; exactly the output file is written; the output path is returned |
| Media.ConcatenateSlides | generate_video.py:245-251 | the slide loop concatenates the slides' clips in the given key order, ticking once per clip |
| Media.ConcatenateFiles | generate_video.py:246-251 | the file loop appends each clip's samples and ticks before each clip |
| Media.CombineExample | generate_video.py:245-251 | the map `{1: [a, b], 2: [c]}` combines to `a ++ b ++ c` |
| Media.PollTicks | generate_video.py:50-55 | the `k`-th running poll reports `50 + 10·k`; how the ticks end a render's stream is stated by `Media.RenderCompletionReported` |
| Media.PollRender | generate_video.py:47-59 | the loop stops at the first reading that is neither queued nor in progress; it reports 10, 20, 50, one tick per running poll, and 100 only on status 3 |
| Media.RenderPolls | generate_video.py:47-55 | the number of running polls is the index of the first reading that is not 1 or 2 |
| Media.PollsDetermined | generate_video.py:50-54 | that index is unique |
| Media.RenderPercentUncapped | generate_video.py:52 | the sixth running poll reports 110: the percentage is not capped |
| Media.RenderCompletionReported | generate_video.py:57-59 | 100 is reported, last, exactly when the job completed; statuses 4 and others only add nothing |
| Media.PptToVideo | generate_video.py:13-69 | polls the export to its end, reports as specified, and leaves the video on disk only when the status is 3 |
| Media.MergeAudioVideo | generate_video.py:258-277 | loading a missing video or audio raises the loader's error; otherwise it writes and returns the output, reporting 10, 20, 30, 60 and 100 |
| Media.MergeSucceedsIff | generate_video.py:262-275 | the merge succeeds iff both inputs exist, and then returns the output path with 100 reported; a missing video raises its error first |
| Initialize.EnsureDir | initialize.py:13-14 | after the guarded `makedirs` the directory exists and nothing was removed |
| Initialize.EnsureDirIdempotent | initialize.py:13-18 | a second call changes nothing; an existing directory is left untouched; only the directory and its ancestors are added |
| Initialize.VideoDirParts | initialize.py:9-11 | the video directory is named after the file's stem and sits in the file's directory |
| Initialize.CreateVideoDirectory | initialize.py:4-18 | returns `dirname(abspath(f))/stem`, created only when absent |
| Initialize.CreateTempAudioFolder | initialize.py:20-30 | returns `video_dir/temp_audio`, created only when absent |
| Initialize.TempAudioFolderParts | initialize.py:25 | the temporary folder is the child `temp_audio` of the video directory |
| EdgeAudio.VoiceFor | edge_audio_generator.py:29 | the voice is always one of the two mapped voices |
| EdgeAudio.VoiceChoice | edge_audio_generator.py:29 | the voice depends on the gender only through `lower()`; Pradeep iff the gender lower-cases to "male"; a missing or empty gender falls back to the "unknown" voice |
| EdgeAudio.GenerateEdgeVoice | edge_audio_generator.py:13-48 | a cached clip returns its path and decoding without a TTS request and without writing; otherwise the request carries the text, the mapped voice and the rate string; a text TTS rejects raises `AssertionError`, returns no clip and writes nothing; any other text is written and its decoding returned; every branch computes the same path |
| Text.IntToStringInjective | edge_audio_generator.py:34 | distinct indices render differently |
| EdgeAudio.ClipPathsDistinct | edge_audio_generator.py:33-34 | clips of different indices never share a cache file |
| EdgeAudio.RateExamples | edge_audio_generator.py:39-40 | normal speed gives "+0%", 90% gives "+-10%", 125% gives "+25%" |
| RandomVoice.NamesOf | random_voice_picker.py:12-15 | a gender's bucket holds at most as many names as there are voices |
| RandomVoice.BuildBuckets | random_voice_picker.py:12-15 | the loop's keys are the lower-cased genders, and each bucket lists that gender's voice names in table order |
| RandomVoice.BucketStep | random_voice_picker.py:15 | one `setdefault(g, []).append(name)` keeps the buckets equal to the grouping of the voices seen so far |
| RandomVoice.NamesOfExactly | random_voice_picker.py:13-15 | a name is in a gender's bucket iff a voice of that lower-cased gender has the name: each voice lands in its own bucket only |
| RandomVoice.GetRandomVoice | random_voice_picker.py:17-25 | `ValueError("No voices available for gender '…'")` iff the lower-cased gender's bucket is missing or empty; otherwise a member of that bucket |
| RandomVoice.BucketCaseInsensitive | random_voice_picker.py:22 | the lookup ignores the case of the gender argument |
| RandomVoice.ShippedBuckets | random_voice_picker.py:4-15 | the shipped table groups into "female" (Nabanita, Tanishaa) and "male" (Pradeep, Bashkar), in table order |
| DesktopApp.Signals | desktop_app.py:27-29 | each progress event becomes one `progress(percent, message)` signal, in order; that none of them is terminal is stated by `DesktopApp.Stage` |
| DesktopApp.Stage | desktop_app.py:49 | a stage's callback emits no terminal signal |
| DesktopApp.ConversionWorker.constructor | desktop_app.py:31-43 | derives `video_dir = dirname(abspath(p))/stem` and `stem.mp4`, `stem_ppt.mp4` and `audio` inside it; creates the directory only when absent |
| DesktopApp.ConversionWorker.Run | desktop_app.py:46-82 | the signals, filesystem and deck are those of the specified run |
| DesktopApp.ConversionWorker.RunFront | desktop_app.py:48-53 | audio generation and measurement with their prefixed progress, and the measured map |
| DesktopApp.ConversionWorker.RetryPointTimings | desktop_app.py:54-62 | the `for attempt in range(3)` loop gives the retry outcome and signals, and the deck ends with the succeeding attempt's timings |
| DesktopApp.ConversionWorker.RunOutputs | desktop_app.py:64-79 | render, combine and merge as specified, each skipped when its output exists |
| DesktopApp.ConversionWorker.RenderVideo | desktop_app.py:64-66 | the render stage's signals and files, skipped when `stem_ppt.mp4` exists |
| DesktopApp.ConversionWorker.CombineTrack | desktop_app.py:68-71 | the combine stage, prefixed "Audio: ", skipped when the combined track exists |
| DesktopApp.ConversionWorker.MergeAndFinish | desktop_app.py:72-82 | the merge stage (skipped when the video exists) and then `progress(100, "Done")` and `finished`, or `error(str(e))` |
| DesktopApp.Retry | desktop_app.py:54-62 | the loop makes at least one and at most three attempts, and ends with an exception only after the third |
| DesktopApp.RetryBound | desktop_app.py:54-61 | at most three attempts; every attempt before the last failed; the outcome is the last attempt's; an exception only after three failures |
| DesktopApp.RetryTerminal | desktop_app.py:58-62 | the loop emits no terminal signal unless it gives up, and then ends with the failure error |
| DesktopApp.RetryMessageNumbers | desktop_app.py:62 | the retries after failures 1 and 2 read "(attempt 2/3)" and "(attempt 3/3)" |
| DesktopApp.RetryMessages | desktop_app.py:58-62 | three failures give three timing passes, two retry notices and the failure error, in that order |
| DesktopApp.FailureMessageNamesStage | desktop_app.py:60 | the give-up error contains "failed during point timing" and the exception's text |
| DesktopApp.FrontProgress | desktop_app.py:48-53 | everything before point timing is progress only |
| DesktopApp.MergeTerminal | desktop_app.py:74-82 | the merge stage ends with exactly one terminal signal; `finished(video_path)` comes right after `progress(100, "Done")` |
| DesktopApp.OutputsTerminal | desktop_app.py:64-82 | after a successful timing there is exactly one terminal signal, last |
| DesktopApp.RunTerminal | desktop_app.py:46-82 | every run emits exactly one terminal signal, last: `finished(video_path)` after `progress(100, "Done")`, or one `error` |
| DesktopApp.TimingFailureStops | desktop_app.py:59-61 | when timing gives up, nothing is rendered, combined or merged, the deck keeps its slides, and the run ends with the failure error |
| DesktopApp.SilentAnimatedSlideFails | desktop_app.py:54-61 | an animated slide without cues makes every attempt fail, so the run ends with the point-timing failure and makes no video |
| DesktopApp.OutputsSkipped | desktop_app.py:65-75 | with all three outputs present, the run only announces the stages and finishes |
| DesktopApp.ArtifactsLayout | desktop_app.py:34-43 | the video directory is named after the stem and holds `stem.mp4`, `stem_ppt.mp4`, `audio` and `combined_audio.mp3` |
| DesktopApp.ArtifactsDistinct | desktop_app.py:41-43 | the four artifacts are distinct paths |
| DesktopApp.MergeMissingVideo | desktop_app.py:74-75 | with no rendered video the merge ends with the loader's error for it and writes nothing |
| DesktopApp.OutputsEnd | desktop_app.py:72-82 | the outputs end as the merge stage ends, with its filesystem |
| DesktopApp.FailedRenderErrors | desktop_app.py:65-82 | an export that does not complete leads to the merge raising for the missing video; that error is the outputs' one terminal signal, last, and no final video exists |
| Script.RunScript | generate_video.py:280-306 | the script's outcome, filesystem and deck are those of the specified script run |
| Script.ScriptPaths | generate_video.py:282-293 | the script derives the same four artifact paths as the worker and creates the video directory only when it is missing |
| Script.ScriptTiming | generate_video.py:296-306 | measurement, one timing attempt whose exception ends the script with the deck untouched, then the outputs |
| Script.ScriptOutputs | generate_video.py:298-306 | render, combine and merge, each skipped when its output exists |
| Script.ScriptMergeAgrees | generate_video.py:305-306 | the script's merge leaves the worker's files and raises exactly when the worker's merge stage ends with an error |
| Script.ScriptAgreesWithWorker | generate_video.py:280-306 | when the first timing attempt succeeds, script and worker leave the same files and deck, and the script raises iff the worker ends with an error, with the same message |
| Script.ScriptDoesNotRetry | generate_video.py:297 | a failed first timing attempt ends the script, deck untouched, even where the worker's second attempt would succeed |

## Left out

- The PowerPoint COM automation is an oracle: opening, exporting, saving, closing and
  `time.sleep`. The export's outcome is the `feed` of status readings. A deck that
  fails to open is a per-attempt fault.
- `edge_tts`, `AudioClip`, `AudioFileClip`, `AudioSegment` and `VideoFileClip` are
  foreign calls. They become the rejection predicate, `dur`, `samples` and `missing`.
  File contents are not tracked, only which paths exist.
- `PollRender`, `PptToVideo`, `ConversionWorker.Run` and `Script.RunScript` require
  that the export job eventually ends. A job that never leaves status 1 or 2 hangs
  the source, and the model does not cover that.
- Exceptions raised by the host other than the modelled ones are not modelled. The
  modelled ones are TTS `AssertionError`, a fault when opening the deck, `IndexError`
  on an empty duration list, and a missing merge input. An unmodelled one would be,
  say, a COM error during export.
- Dictionary iteration in `measure_durations` follows ascending keys. That is the
  order `generate_audio_from_points` inserts them in; the result does not depend on
  the order.
- `\w` and `lower()` are modelled for ASCII only. Unicode letters outside ASCII are
  not word characters here, so a paragraph written only in, say, Bengali letters is
  skipped by the model where Python's Unicode `\w` would narrate it.
- Cues.SpeechStep: a synthesis TTS rejects (the `AssertionError` caught around
  `Communicate` and `save_sync`) is taken to leave no file at the cue's path. Should
  `save_sync` leave a partial file, the next paragraph's existence check would find
  it, and the walk would differ. `Cues.ExampleSlideWalk`, `Cues.RerunAfterRejection`
  and the observation about re-runs above rest on this assumption.
- EdgeAudio.GenerateEdgeVoice: a rejected `save_sync` is likewise taken to write
  nothing at the clip's path.
- Media.PptToVideo: the video file is written by PowerPoint's `CreateVideo`, not by
  the program. A job whose last status is 3 (completed) is taken to leave the file at
  `ppt_video_path`, and any other final status to leave none. Should a failed export
  leave a partial file, the worker's existence check would skip rendering on later
  runs, and the merge would fail on a broken video rather than a missing one.
  `DesktopApp.FailedRenderErrors` rests on this assumption.
- `os.path` is POSIX `posixpath` without normalising `.`, `..` or repeated slashes.
  The Windows literal `Z:\CCS\computational_thinking.pptx` in the `__main__` block
  becomes the `pptFile` parameter. `Script.RunScript` likewise takes the working
  directory as a parameter.
- EdgeAudio.RateString: the speed is an integer percentage. `f"{per:0.0f}"` rounding
  of a fractional float is therefore not modelled.
- Durations are abstract `real`s. Float rounding and the `:.2f` printing are not
  modelled, and neither is any `print` output.
- The Qt `MainWindow`, the VLC player, the signal and thread machinery, and
  `custome_frame.py` are UI and concurrency code. Signals are modelled as the
  sequence the worker emits.
- These files are not part of this model:
  - `gender_classifier.py`, which is ML inference;
  - `mms_audio_generator.py`, a transformers wrapper;
  - `merge_lip_sync_video_with_ppt_video.py`, fixed compositing;
  - `list_available_bengali_voices`, an async network listing.
- The `use_timings`, `fps`, `vert_resolution` and `quality` export parameters go to
  PowerPoint unchanged. They do not appear in the model.
