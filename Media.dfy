/** The media stages of `generate_video.py` around the slide deck: measuring the
    cue durations, concatenating the cues into one narration track, rendering the
    deck to a silent video by polling the export job, and muxing track and video. */
module Media {
  import opened Report
  import opened Paths

  // ---------------------------------------------------------------------------
  // Slide keys in ascending order.

  lemma Elem(s: set<int>)
    requires s != {}
    ensures exists x :: x in s
  {
    if forall x :: x !in s {
      assert false;
    }
  }

  /** The smallest key of a non-empty key set. */
  ghost function MinKey(s: set<int>): (k: int)
    requires s != {}
    ensures k in s && forall j :: j in s ==> k <= j
    decreases |s|
  {
    Elem(s);
    var x :| x in s;
    assert forall j :: j in s ==> j == x || j in s - {x};
    if s - {x} == {} then
      assert forall j :: j in s ==> j == x;
      x
    else
      var m := MinKey(s - {x});
      if x < m then x else m
  }

  predicate StrictlyIncreasing(keys: seq<int>) {
    forall a, b :: 0 <= a < b < |keys| ==> keys[a] < keys[b]
  }

  /** `sorted(keys)`: the keys in ascending order, each once. */
  ghost function SortedKeys(s: set<int>): (r: seq<int>)
    ensures |r| == |s| && (forall k :: k in r <==> k in s) && StrictlyIncreasing(r)
    decreases |s|
  {
    if s == {} then []
    else
      var k := MinKey(s);
      var rest := SortedKeys(s - {k});
      LeastThenRest(s, k, rest);
      [k] + rest
  }

  /** Putting the least key in front of an enumeration of the others enumerates them all. */
  lemma LeastThenRest(s: set<int>, k: int, rest: seq<int>)
    requires k in s && forall j :: j in s ==> k <= j
    requires |rest| == |s - {k}| && (forall j :: j in rest <==> j in s - {k}) && StrictlyIncreasing(rest)
    ensures |[k] + rest| == |s| && (forall j :: j in [k] + rest <==> j in s) && StrictlyIncreasing([k] + rest)
  {
    var r := [k] + rest;
    assert forall j :: j in rest ==> k < j;
    assert forall j :: j in r <==> j == k || j in rest;
    forall a, b | 0 <= a < b < |r|
      ensures r[a] < r[b]
    {
      assert r[b] == rest[b - 1];
      if a > 0 {
        assert r[a] == rest[a - 1];
      } else {
        assert rest[b - 1] in rest;
      }
    }
  }

  /** `sorted(audio_map)`, by repeatedly taking the smallest remaining key. */
  method SortKeys(s: set<int>) returns (keys: seq<int>)
    ensures keys == SortedKeys(s)
  {
    keys := [];
    var remaining := s;
    while remaining != {}
      invariant keys + SortedKeys(remaining) == SortedKeys(s)
      decreases |remaining|
    {
      ghost var least := MinKey(remaining);
      var k :| k in remaining && forall j :: j in remaining ==> k <= j;
      var rest := remaining - {k};
      assert |rest| == |remaining| - 1;
      SortKeysTake(s, keys, remaining, k);
      keys := keys + [k];
      remaining := rest;
    }
    assert keys + [] == keys;
  }

  lemma SortKeysTake(s: set<int>, keys: seq<int>, remaining: set<int>, k: int)
    requires keys + SortedKeys(remaining) == SortedKeys(s)
    requires k in remaining && forall j :: j in remaining ==> k <= j
    ensures (keys + [k]) + SortedKeys(remaining - {k}) == SortedKeys(s)
  {
    SortedKeysStep(remaining, k);
    AppendAssoc(keys, [k], SortedKeys(remaining - {k}));
  }

  lemma TakeNext(keys: seq<int>, i: nat)
    requires i < |keys|
    ensures keys[..i + 1] == keys[..i] + [keys[i]]
  {
  }

  lemma TakeAll(keys: seq<int>)
    ensures keys[..|keys|] == keys
  {
  }

  lemma AppendAssoc(a: seq<int>, b: seq<int>, c: seq<int>)
    ensures (a + b) + c == a + (b + c)
  {
  }

  lemma SortedKeysStep(s: set<int>, k: int)
    requires k in s && forall j :: j in s ==> k <= j
    ensures SortedKeys(s) == [k] + SortedKeys(s - {k})
  {
    var m := MinKey(s);
    assert k <= m && m <= k;
  }

  // ---------------------------------------------------------------------------
  // The audio map flattened.

  /** The cue files of the slides `keys`, slide by slide, each slide in cue order. */
  function Flat(audioMap: map<int, seq<string>>, keys: seq<int>): seq<string>
    requires forall i :: 0 <= i < |keys| ==> keys[i] in audioMap
  {
    if keys == [] then [] else audioMap[keys[0]] + Flat(audioMap, keys[1..])
  }

  lemma {:induction false} FlatAppend(audioMap: map<int, seq<string>>, keys: seq<int>, k: int)
    requires forall i :: 0 <= i < |keys| ==> keys[i] in audioMap
    requires k in audioMap
    ensures Flat(audioMap, keys + [k]) == Flat(audioMap, keys) + audioMap[k]
    decreases |keys|
  {
    if keys == [] {
      assert [] + [k] == [k] && [k][1..] == [];
      assert audioMap[k] + [] == audioMap[k];
    } else {
      assert (keys + [k])[0] == keys[0] && (keys + [k])[1..] == keys[1..] + [k];
      FlatAppend(audioMap, keys[1..], k);
    }
  }

  /** Every cue file of the map, slides in ascending order. */
  ghost function AllCues(audioMap: map<int, seq<string>>): seq<string> {
    Flat(audioMap, SortedKeys(audioMap.Keys))
  }

  /** `sum(len(files) for files in audio_map.values())`. */
  ghost function TotalItems(audioMap: map<int, seq<string>>): nat {
    |AllCues(audioMap)|
  }

  // ---------------------------------------------------------------------------
  // measure_durations

  /** The durations of a slide's files, `dur` being the length `AudioFileClip` reports. */
  function Durations(files: seq<string>, dur: string -> real): (r: seq<real>)
    ensures |r| == |files| && forall j :: 0 <= j < |files| ==> r[j] == dur(files[j])
  {
    seq(|files|, j requires 0 <= j < |files| => dur(files[j]))
  }

  /** `measure_durations`: one list of durations per slide, index-aligned with its
      files, and a tick per file, counted over the whole map. The slides are visited
      in ascending order, the order in which `generate_audio_from_points` inserted them. */
  method MeasureDurations(audioMap: map<int, seq<string>>, dur: string -> real)
    returns (durations: map<int, seq<real>>, events: seq<Progress>)
    ensures durations.Keys == audioMap.Keys
    ensures forall k :: k in audioMap ==> durations[k] == Durations(audioMap[k], dur)
    ensures durations == MeasuredMap(audioMap, dur)
    ensures events == Ticks("Measuring duration ", TotalItems(audioMap))
  {
    var keys := SortKeys(audioMap.Keys);
    durations, events := MeasureSlides(audioMap, keys, dur);
    KeysThroughList(durations, keys, audioMap);
    MeasuredMapUnique(durations, audioMap, dur);
  }

  /** A map keyed by the members of a list of the audio map's keys has the audio map's keys. */
  lemma KeysThroughList(d: map<int, seq<real>>, keys: seq<int>, audioMap: map<int, seq<string>>)
    requires forall k :: k in d <==> k in keys
    requires forall k :: k in keys <==> k in audioMap.Keys
    ensures d.Keys == audioMap.Keys
  {
    assert forall k :: k in d.Keys <==> k in audioMap.Keys;
  }

  /** A map with the audio map's keys and each slide's durations is the measured map. */
  lemma MeasuredMapUnique(m: map<int, seq<real>>, audioMap: map<int, seq<string>>, dur: string -> real)
    requires m.Keys == audioMap.Keys
    requires forall k :: k in audioMap ==> m[k] == Durations(audioMap[k], dur)
    ensures m == MeasuredMap(audioMap, dur)
  {
    var r := MeasuredMap(audioMap, dur);
    assert m.Keys == r.Keys;
    assert forall k :: k in m ==> m[k] == r[k];
  }

  /** The map `measure_durations` returns, as a value. */
  function MeasuredMap(audioMap: map<int, seq<string>>, dur: string -> real): (r: map<int, seq<real>>)
    ensures r.Keys == audioMap.Keys
    ensures forall k :: k in audioMap ==> r[k] == Durations(audioMap[k], dur)
  {
    map k | k in audioMap :: Durations(audioMap[k], dur)
  }

  /** A slide's durations are empty exactly when it produced no cue. */
  lemma MeasuredEmptyIff(audioMap: map<int, seq<string>>, dur: string -> real, k: int)
    requires k in audioMap
    ensures MeasuredMap(audioMap, dur)[k] == [] <==> audioMap[k] == []
  {
    assert |MeasuredMap(audioMap, dur)[k]| == |audioMap[k]|;
  }

  /** The outer loop of `measure_durations`, over the slides `keys`. */
  method MeasureSlides(audioMap: map<int, seq<string>>, keys: seq<int>, dur: string -> real)
    returns (durations: map<int, seq<real>>, events: seq<Progress>)
    requires forall i :: 0 <= i < |keys| ==> keys[i] in audioMap
    ensures forall k :: k in durations <==> k in keys
    ensures forall k :: k in durations ==> durations[k] == Durations(audioMap[k], dur)
    ensures events == Ticks("Measuring duration ", |Flat(audioMap, keys)|)
  {
    var totalItems := TotalLength(audioMap, keys);
    durations := map[];
    events := [];
    var completed := 0;
    var i := 0;
    while i < |keys|
      invariant 0 <= i <= |keys|
      invariant forall k :: k in durations <==> k in keys[..i]
      invariant forall k :: k in durations ==> k in audioMap && durations[k] == Durations(audioMap[k], dur)
      invariant completed == |Flat(audioMap, keys[..i])| <= totalItems
      invariant events == Ticks("Measuring duration ", totalItems)[..completed]
    {
      var slideIdx := keys[i];
      var files := audioMap[slideIdx];
      TakeNext(keys, i);
      FlatAppend(audioMap, keys[..i], slideIdx);
      FlatPrefix(audioMap, keys, i + 1);
      var durs;
      durs, completed, events := MeasureFiles(files, dur, totalItems, completed, events);
      durations := durations[slideIdx := durs];
      i := i + 1;
    }
    TakeAll(keys);
    assert events == Ticks("Measuring duration ", totalItems);
  }

  /** The inner loop of `measure_durations` over one slide's files. */
  method MeasureFiles(files: seq<string>, dur: string -> real, totalItems: nat, completed0: nat, events0: seq<Progress>)
    returns (durs: seq<real>, completed: nat, events: seq<Progress>)
    requires completed0 + |files| <= totalItems
    requires events0 == Ticks("Measuring duration ", totalItems)[..completed0]
    ensures durs == Durations(files, dur)
    ensures completed == completed0 + |files|
    ensures events == Ticks("Measuring duration ", totalItems)[..completed]
  {
    durs, completed, events := [], completed0, events0;
    var f := 0;
    while f < |files|
      invariant 0 <= f <= |files|
      invariant durs == Durations(files[..f], dur)
      invariant completed == completed0 + f
      invariant events == Ticks("Measuring duration ", totalItems)[..completed]
    {
      durs := durs + [dur(files[f])];
      TicksAppend("Measuring duration ", totalItems, completed);
      completed := completed + 1;
      events := events + [Tick("Measuring duration ", completed, totalItems)];
      f := f + 1;
    }
    assert files[..f] == files;
  }

  lemma {:induction false} FlatPrefix(audioMap: map<int, seq<string>>, keys: seq<int>, i: nat)
    requires forall i :: 0 <= i < |keys| ==> keys[i] in audioMap
    requires i <= |keys|
    ensures |Flat(audioMap, keys[..i])| <= |Flat(audioMap, keys)|
    decreases |keys| - i
  {
    if i < |keys| {
      FlatAppend(audioMap, keys[..i], keys[i]);
      assert keys[..i + 1] == keys[..i] + [keys[i]];
      FlatPrefix(audioMap, keys, i + 1);
    } else {
      assert keys[..i] == keys;
    }
  }

  /** The number of files over the slides `keys`. */
  method TotalLength(audioMap: map<int, seq<string>>, keys: seq<int>) returns (n: nat)
    requires forall i :: 0 <= i < |keys| ==> keys[i] in audioMap
    ensures n == |Flat(audioMap, keys)|
  {
    n := 0;
    var i := |keys|;
    while i > 0
      invariant 0 <= i <= |keys|
      invariant n == |Flat(audioMap, keys[i..])|
    {
      i := i - 1;
      assert keys[i..][0] == keys[i] && keys[i..][1..] == keys[i + 1..];
      n := n + |audioMap[keys[i]]|;
    }
  }

  /** The cue files of slide keys `keys`, followed by those of `k`. */
  lemma FlatAlign(audioMap: map<int, seq<string>>, durations: map<int, seq<real>>, dur: string -> real, keys: seq<int>)
    requires forall i :: 0 <= i < |keys| ==> keys[i] in audioMap && keys[i] in durations
    requires forall i :: 0 <= i < |keys| ==> durations[keys[i]] == Durations(audioMap[keys[i]], dur)
    ensures FlatDurations(durations, keys) == Durations(Flat(audioMap, keys), dur)
    decreases |keys|
  {
    if keys != [] {
      FlatAlign(audioMap, durations, dur, keys[1..]);
    }
  }

  /** The durations of the slides `keys`, slide by slide (a slide without durations adds none). */
  function FlatDurations(durations: map<int, seq<real>>, keys: seq<int>): seq<real> {
    if keys == [] then []
    else (if keys[0] in durations then durations[keys[0]] else []) + FlatDurations(durations, keys[1..])
  }

  /** Read in ascending slide order, the measured durations line up one for one with
      the cue files that `combine_audio` concatenates in that order. */
  lemma MeasuredAlignsWithTrack(audioMap: map<int, seq<string>>, dur: string -> real, durations: map<int, seq<real>>)
    requires durations.Keys == audioMap.Keys
    requires forall k :: k in audioMap ==> durations[k] == Durations(audioMap[k], dur)
    ensures var cues := AllCues(audioMap);
            var ds := FlatDurations(durations, SortedKeys(audioMap.Keys));
            |ds| == |cues| && forall j :: 0 <= j < |cues| ==> ds[j] == dur(cues[j])
  {
    var keys := SortedKeys(audioMap.Keys);
    assert forall i :: 0 <= i < |keys| ==> keys[i] in audioMap;
    FlatAlign(audioMap, durations, dur, keys);
  }

  // ---------------------------------------------------------------------------
  // combine_audio

  /** The samples of `files` played one after the other; `samples` is what
      `AudioSegment.from_file` decodes. */
  function Concat(files: seq<string>, samples: string -> seq<int>): seq<int> {
    if files == [] then [] else samples(files[0]) + Concat(files[1..], samples)
  }

  lemma {:induction false} ConcatAppend(a: seq<string>, b: seq<string>, samples: string -> seq<int>)
    ensures Concat(a + b, samples) == Concat(a, samples) + Concat(b, samples)
    decreases |a|
  {
    if a == [] {
      assert a + b == b;
    } else {
      assert (a + b)[0] == a[0] && (a + b)[1..] == a[1..] + b;
      ConcatAppend(a[1..], b, samples);
    }
  }

  /** The narration track: every cue's samples, slides ascending, cues in order. */
  ghost function Track(audioMap: map<int, seq<string>>, samples: string -> seq<int>): seq<int> {
    Concat(AllCues(audioMap), samples)
  }

  /** `combine_audio`: the clips concatenated slide by slide in ascending order, a tick
      before each clip, the track exported to `output`, and a final completion report. */
  method CombineAudio(audioMap: map<int, seq<string>>, output: string, fs: FileSystem, samples: string -> seq<int>)
    returns (result: string, combined: seq<int>, events: seq<Progress>)
    modifies fs
    ensures result == output && fs.paths == old(fs.paths) + {output}
    ensures combined == Track(audioMap, samples)
    ensures events == Ticks("Combining audio ", TotalItems(audioMap)) + [Progress(100, "Combining audio completed.")]
  {
    var keys := SortKeys(audioMap.Keys);
    combined, events := ConcatenateSlides(audioMap, keys, samples);
    fs.Write(output);
    events := events + [Progress(100, "Combining audio completed.")];
    result := output;
  }

  /** The accumulation loop of `combine_audio` over the slides `keys`. */
  method ConcatenateSlides(audioMap: map<int, seq<string>>, keys: seq<int>, samples: string -> seq<int>)
    returns (combined: seq<int>, events: seq<Progress>)
    requires forall i :: 0 <= i < |keys| ==> keys[i] in audioMap
    ensures combined == Concat(Flat(audioMap, keys), samples)
    ensures events == Ticks("Combining audio ", |Flat(audioMap, keys)|)
  {
    var totalItems := TotalLength(audioMap, keys);
    combined := [];
    events := [];
    var completed := 0;
    var i := 0;
    while i < |keys|
      invariant 0 <= i <= |keys|
      invariant combined == Concat(Flat(audioMap, keys[..i]), samples)
      invariant completed == |Flat(audioMap, keys[..i])| <= totalItems
      invariant events == Ticks("Combining audio ", totalItems)[..completed]
    {
      var files := audioMap[keys[i]];
      TakeNext(keys, i);
      FlatAppend(audioMap, keys[..i], keys[i]);
      FlatPrefix(audioMap, keys, i + 1);
      ConcatAppend(Flat(audioMap, keys[..i]), files, samples);
      combined, completed, events := ConcatenateFiles(files, samples, totalItems, completed, events, combined);
      i := i + 1;
    }
    TakeAll(keys);
    assert events == Ticks("Combining audio ", totalItems);
  }

  /** The inner loop of `combine_audio` over one slide's files. */
  method ConcatenateFiles(files: seq<string>, samples: string -> seq<int>, totalItems: nat, completed0: nat,
                          events0: seq<Progress>, combined0: seq<int>)
    returns (combined: seq<int>, completed: nat, events: seq<Progress>)
    requires completed0 + |files| <= totalItems
    requires events0 == Ticks("Combining audio ", totalItems)[..completed0]
    ensures combined == combined0 + Concat(files, samples)
    ensures completed == completed0 + |files|
    ensures events == Ticks("Combining audio ", totalItems)[..completed]
  {
    combined, completed, events := combined0, completed0, events0;
    var f := 0;
    while f < |files|
      invariant 0 <= f <= |files|
      invariant combined == combined0 + Concat(files[..f], samples)
      invariant completed == completed0 + f
      invariant events == Ticks("Combining audio ", totalItems)[..completed]
    {
      TicksAppend("Combining audio ", totalItems, completed);
      completed := completed + 1;
      events := events + [Tick("Combining audio ", completed, totalItems)];
      assert files[..f + 1] == files[..f] + [files[f]];
      ConcatAppend(files[..f], [files[f]], samples);
      assert Concat([files[f]], samples) == samples(files[f]) + Concat([], samples);
      combined := combined + samples(files[f]);
      f := f + 1;
    }
    assert files[..f] == files;
  }

  /** The map `{1: [a, b], 2: [c]}` combines to `a ++ b ++ c`, sample for sample. */
  lemma CombineExample(m: map<int, seq<string>>, a: string, b: string, c: string, samples: string -> seq<int>)
    requires m.Keys == {1, 2} && m[1] == [a, b] && m[2] == [c]
    ensures Track(m, samples) == samples(a) + samples(b) + samples(c)
  {
    TwoSlideCues(m, a, b, c);
    ThreeClips(a, b, c, samples);
  }

  lemma TwoSlideCues(m: map<int, seq<string>>, a: string, b: string, c: string)
    requires m.Keys == {1, 2} && m[1] == [a, b] && m[2] == [c]
    ensures AllCues(m) == [a, b, c]
  {
    var keys := [1, 2];
    KeysOneTwo(m.Keys);
    var tail := [2];
    assert keys[1..] == tail && tail[1..] == [];
    assert Flat(m, tail) == [c] + Flat(m, []);
    assert Flat(m, keys) == [a, b] + Flat(m, tail);
  }

  lemma KeysOneTwo(s: set<int>)
    requires s == {1, 2}
    ensures SortedKeys(s) == [1, 2]
  {
    var keys := [1, 2];
    assert |s| == 2 by {
      assert s == {1} + {2};
    }
    assert forall k :: k in keys <==> k in s;
    SortedKeysUnique(s, keys);
  }

  lemma ThreeClips(a: string, b: string, c: string, samples: string -> seq<int>)
    ensures Concat([a, b, c], samples) == samples(a) + samples(b) + samples(c)
  {
    assert [a, b, c][1..] == [b, c] && [b, c][1..] == [c] && [c][1..] == [];
    assert Concat([c], samples) == samples(c) + Concat([], samples);
    assert Concat([b, c], samples) == samples(b) + Concat([c], samples);
  }

  /** A strictly increasing list holding exactly the keys of `s` is `sorted(s)`. */
  lemma {:induction false} SortedKeysUnique(s: set<int>, keys: seq<int>)
    requires StrictlyIncreasing(keys) && |keys| == |s| && forall k :: k in keys <==> k in s
    ensures keys == SortedKeys(s)
    decreases |s|
  {
    if s != {} {
      FirstIsLeast(s, keys);
      RestEnumerates(s, keys);
      SortedKeysUnique(s - {keys[0]}, keys[1..]);
      SortedKeysStep(s, keys[0]);
      HeadThenRest(keys);
    }
  }

  lemma HeadThenRest(keys: seq<int>)
    requires |keys| > 0
    ensures keys == [keys[0]] + keys[1..]
  {
  }

  lemma FirstIsLeast(s: set<int>, keys: seq<int>)
    requires StrictlyIncreasing(keys) && forall k :: k in keys <==> k in s
    requires s != {}
    ensures |keys| > 0 && keys[0] in s && forall j :: j in s ==> keys[0] <= j
  {
    Elem(s);
    var x :| x in s;
    assert x in keys;
    forall j | j in s
      ensures keys[0] <= j
    {
      assert j in keys;
      var i :| 0 <= i < |keys| && keys[i] == j;
      assert i == 0 || keys[0] < keys[i];
    }
  }

  lemma RestEnumerates(s: set<int>, keys: seq<int>)
    requires StrictlyIncreasing(keys) && |keys| == |s| && forall k :: k in keys <==> k in s
    requires |keys| > 0
    ensures StrictlyIncreasing(keys[1..]) && |keys[1..]| == |s - {keys[0]}|
    ensures forall k :: k in keys[1..] <==> k in s - {keys[0]}
  {
    var rest := keys[1..];
    forall j
      ensures j in rest <==> j in s - {keys[0]}
    {
      if j in rest {
        var i :| 0 <= i < |rest| && rest[i] == j;
        assert keys[i + 1] == j && keys[0] < keys[i + 1];
      }
      if j in s - {keys[0]} {
        assert j in keys;
        var i :| 0 <= i < |keys| && keys[i] == j;
        assert i != 0 && rest[i - 1] == j;
      }
    }
    assert keys[0] in s;
  }

  // ---------------------------------------------------------------------------
  // ppt_to_video: rendering the timed deck and polling the export job.

  /** The successive values of `pres.CreateVideoStatus`: reading `n` is `feed(n)`. */
  type StatusFeed = nat -> int

  /** 1 = queued, 2 = in progress: the job has not ended. */
  predicate Rendering(status: int) {
    status == 1 || status == 2
  }

  /** The report after the `k`-th poll that still finds the job running, not capped at 100. */
  function PollTicks(polls: nat): (r: seq<Progress>)
    ensures |r| == polls
    ensures forall k :: 0 <= k < polls ==> r[k] == Progress(50 + (k + 1) * 10, "Video generation in progress...")
  {
    seq(polls, k requires 0 <= k < polls => Progress(50 + (k + 1) * 10, "Video generation in progress..."))
  }

  /** What `ppt_to_video` reports when the job ends with `status` after `polls`
      running polls: 100 only when it completed (status 3). */
  function RenderEvents(polls: nat, status: int): seq<Progress> {
    [Progress(10, "Opening PowerPoint presentation..."), Progress(20, "Creating video..."),
     Progress(50, "Video generation in progress...")]
    + PollTicks(polls)
    + if status == 3 then [Progress(100, "Video generation completed.")] else []
  }

  /** The poll loop `while status in (1, 2)`, over a feed that eventually ends. */
  method PollRender(feed: StatusFeed) returns (status: int, polls: nat, events: seq<Progress>)
    requires exists n: nat :: !Rendering(feed(n))
    ensures status == feed(polls) && !Rendering(status)
    ensures forall k: nat :: k < polls ==> Rendering(feed(k))
    ensures events == RenderEvents(polls, status)
  {
    ghost var end: nat :| !Rendering(feed(end));
    events := [Progress(10, "Opening PowerPoint presentation..."), Progress(20, "Creating video..."),
               Progress(50, "Video generation in progress...")];
    status := feed(0);
    var progressStatus: nat := 1;
    while Rendering(status)
      invariant 1 <= progressStatus <= end + 1
      invariant status == feed(progressStatus - 1)
      invariant forall k: nat :: k < progressStatus - 1 ==> Rendering(feed(k))
      invariant events == RenderEvents(progressStatus - 1, 0)
      decreases end + 1 - progressStatus
    {
      events := events + [Progress(50 + progressStatus * 10, "Video generation in progress...")];
      assert PollTicks(progressStatus - 1) + [Progress(50 + progressStatus * 10, "Video generation in progress...")]
          == PollTicks(progressStatus);
      status := feed(progressStatus);
      progressStatus := progressStatus + 1;
    }
    polls := progressStatus - 1;
    if status == 3 {
      events := events + [Progress(100, "Video generation completed.")];
    }
  }

  /** A job that ends does so at a first reading. */
  lemma {:induction false} FirstEnd(feed: StatusFeed, n: nat)
    requires !Rendering(feed(n))
    ensures exists m: nat :: m <= n && !Rendering(feed(m)) && forall k: nat :: k < m ==> Rendering(feed(k))
    decreases n
  {
    if exists k: nat :: k < n && !Rendering(feed(k)) {
      var k: nat :| k < n && !Rendering(feed(k));
      FirstEnd(feed, k);
    } else {
      assert forall k: nat :: k < n ==> Rendering(feed(k));
    }
  }

  /** The number of polls that find the job running. */
  ghost function RenderPolls(feed: StatusFeed): (polls: nat)
    requires exists n: nat :: !Rendering(feed(n))
    ensures !Rendering(feed(polls)) && forall k: nat :: k < polls ==> Rendering(feed(k))
  {
    var n: nat :| !Rendering(feed(n));
    FirstEnd(feed, n);
    var m: nat :| m <= n && !Rendering(feed(m)) && forall k: nat :: k < m ==> Rendering(feed(k));
    m
  }

  /** The poll count is determined by the feed: it is the index of the first reading
      that is neither queued nor in progress. */
  lemma PollsDetermined(feed: StatusFeed, p: nat, q: nat)
    requires !Rendering(feed(p)) && forall k: nat :: k < p ==> Rendering(feed(k))
    requires !Rendering(feed(q)) && forall k: nat :: k < q ==> Rendering(feed(k))
    ensures p == q
  {
    assert p < q ==> Rendering(feed(p));
    assert q < p ==> Rendering(feed(q));
  }

  /** The reported percentage passes 100 at the sixth running poll. */
  lemma RenderPercentUncapped(status: int)
    ensures RenderEvents(6, status)[8].percent == 110
  {
  }

  /** 100 is reported exactly when the job completed, and then last. */
  lemma RenderCompletionReported(polls: nat, status: int)
    ensures var ev := RenderEvents(polls, status);
            (status == 3 <==> ev[|ev| - 1] == Progress(100, "Video generation completed."))
            && (status == 3 ==> |ev| == polls + 4)
            && (status != 3 ==> |ev| == polls + 3)
  {
    var ev := RenderEvents(polls, status);
    if status != 3 && polls > 0 {
      assert ev[|ev| - 1] == PollTicks(polls)[polls - 1];
    }
  }

  /** `ppt_to_video`: the export job is polled to its end; only a completed job
      leaves the video at `videoPath`, a failed or unexpected status is only logged. */
  method PptToVideo(videoPath: string, fs: FileSystem, feed: StatusFeed)
    returns (status: int, polls: nat, events: seq<Progress>)
    requires exists n: nat :: !Rendering(feed(n))
    modifies fs
    ensures status == feed(polls) && !Rendering(status)
    ensures forall k: nat :: k < polls ==> Rendering(feed(k))
    ensures events == RenderEvents(polls, status)
    ensures fs.paths == if status == 3 then old(fs.paths) + {videoPath} else old(fs.paths)
  {
    status, polls, events := PollRender(feed);
    if status == 3 {
      fs.Write(videoPath);
    }
  }

  // ---------------------------------------------------------------------------
  // merge_audio_video

  /** `merge_audio_video`: loading a missing video or audio file raises the
      loader's error `missing(path)`; otherwise the merged video is written to `output`. */
  method MergeAudioVideo(videoPath: string, audioPath: string, output: string, fs: FileSystem, missing: string -> string)
    returns (r: Raised<string>, events: seq<Progress>)
    modifies fs
    ensures r == MergeResult(videoPath, audioPath, output, old(fs.paths), missing)
    ensures events == MergeEvents(videoPath, audioPath, old(fs.paths))
    ensures fs.paths == if r.Returned? then old(fs.paths) + {output} else old(fs.paths)
  {
    events := [Progress(10, "Loading video ...")];
    if !fs.Exists(videoPath) {
      return Raised(missing(videoPath)), events;
    }
    events := events + [Progress(20, "Loading audio...")];
    if !fs.Exists(audioPath) {
      return Raised(missing(audioPath)), events;
    }
    events := events + [Progress(30, "Merging video and audio..."), Progress(60, "Saving final video...")];
    fs.Write(output);
    events := events + [Progress(100, "Video merge completed.")];
    r := Returned(output);
  }

  function MergeResult(videoPath: string, audioPath: string, output: string, fs: set<string>, missing: string -> string): Raised<string> {
    if videoPath !in fs then Raised(missing(videoPath))
    else if audioPath !in fs then Raised(missing(audioPath))
    else Returned(output)
  }

  function MergeEvents(videoPath: string, audioPath: string, fs: set<string>): seq<Progress> {
    [Progress(10, "Loading video ...")]
    + (if videoPath in fs then [Progress(20, "Loading audio...")] else [])
    + (if videoPath in fs && audioPath in fs
       then [Progress(30, "Merging video and audio..."), Progress(60, "Saving final video..."), Progress(100, "Video merge completed.")]
       else [])
  }

  /** The merge succeeds exactly when both inputs exist, and then returns its output path
      having reported 100 last; a failed render therefore surfaces here. */
  lemma MergeSucceedsIff(videoPath: string, audioPath: string, output: string, fs: set<string>, missing: string -> string)
    ensures MergeResult(videoPath, audioPath, output, fs, missing).Returned? <==> videoPath in fs && audioPath in fs
    ensures MergeResult(videoPath, audioPath, output, fs, missing).Returned? ==>
              MergeResult(videoPath, audioPath, output, fs, missing).value == output
              && MergeEvents(videoPath, audioPath, fs)[4] == Progress(100, "Video merge completed.")
    ensures videoPath !in fs ==> MergeResult(videoPath, audioPath, output, fs, missing) == Raised(missing(videoPath))
  {
  }
}
