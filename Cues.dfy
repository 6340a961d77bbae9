/** Cue extraction and speech synthesis (`generate_audio_from_points`): every
    slide's narratable cues become audio files `slide_<s>_point_<i>.mp3`, and the
    audio map lists them per slide in cue order. */
module Cues {
  import opened Text
  import opened Report
  import opened Paths
  import opened Deck

  /** The file name of cue `point` of slide `slide`. */
  function CueName(slide: nat, point: nat): string {
    "slide_" + NatToString(slide) + "_point_" + NatToString(point) + ".mp3"
  }

  /** `os.path.join(output_dir, f"slide_{slide}_point_{point}.mp3")`. */
  function CueFile(dir: string, slide: nat, point: nat): string {
    Join(dir, CueName(slide, point))
  }

  /** Distinct cues of a slide never share a file. */
  lemma CueFileInjective(dir: string, slide: nat, p: nat, q: nat)
    ensures CueFile(dir, slide, p) == CueFile(dir, slide, q) ==> p == q
  {
    var a, b := CueName(slide, p), CueName(slide, q);
    var pre := "slide_" + NatToString(slide) + "_point_";
    if CueFile(dir, slide, p) == CueFile(dir, slide, q) {
      JoinInjective(dir, a, b);
      assert a == pre + NatToString(p) + ".mp3" && b == pre + NatToString(q) + ".mp3";
      assert NatToString(p) == a[|pre|..|a| - 4];
      assert NatToString(q) == b[|pre|..|b| - 4];
      NatToStringInjective(p, q);
    }
  }

  /** A cue file is never the output directory or one of its ancestors. */
  lemma CueFileOutsideLineage(dir: string, slide: nat, point: nat)
    ensures CueFile(dir, slide, point) !in Lineage(dir)
  {
    LineageShort(dir);
  }

  /** The state of the walk over one slide: `point_counter`, `image_counter`,
      the slide's list in the audio map so far, and the files that exist. */
  datatype Walk = Walk(point: nat, images: nat, paths: seq<string>, fs: set<string>)

  /** The TTS oracle: `rejects(text)` holds when `edge_tts` raises
      `AssertionError` for `text` (nothing is written then). */
  type Rejects = string -> bool

  /** The second picture of a slide: a 4-second silent clip, written unless present. */
  function SilenceStep(dir: string, slide: nat, w: Walk): Walk {
    var f := CueFile(dir, slide, w.point);
    Walk(w.point + 1, w.images, w.paths + [f], w.fs + {f})
  }

  /** A speech cue: an existing file is reused without synthesis; otherwise TTS
      either writes it or rejects the text, and a rejection consumes no index. */
  function SpeechStep(dir: string, slide: nat, rejects: Rejects, text: string, w: Walk): Walk {
    var f := CueFile(dir, slide, w.point);
    if f in w.fs then w.(point := w.point + 1, paths := w.paths + [f])
    else if rejects(text) then w
    else w.(point := w.point + 1, paths := w.paths + [f], fs := w.fs + {f})
  }

  /** One paragraph: skipped unless its stripped text contains a `\w` character. */
  function ParagraphStep(dir: string, slide: nat, rejects: Rejects, para: string, w: Walk): Walk {
    var text := Strip(para);
    if text == [] || !HasWordChar(text) then w else SpeechStep(dir, slide, rejects, text, w)
  }

  function ParagraphsWalk(dir: string, slide: nat, rejects: Rejects, paras: seq<string>, w: Walk): Walk
    decreases |paras|
  {
    if paras == [] then w
    else ParagraphsWalk(dir, slide, rejects, paras[1..], ParagraphStep(dir, slide, rejects, paras[0], w))
  }

  /** One shape: count it if it is a picture, emit the silence cue if it is the
      second picture, then walk its paragraphs if it has a text frame. */
  function ShapeStep(dir: string, slide: nat, rejects: Rejects, shape: Shape, w: Walk): Walk {
    var w2 := PictureStep(dir, slide, shape, w);
    if shape.hasTextFrame then ParagraphsWalk(dir, slide, rejects, shape.paragraphs, w2) else w2
  }

  /** The picture part of a shape: `image_counter += 1`, and the silence cue at the second picture. */
  function PictureStep(dir: string, slide: nat, shape: Shape, w: Walk): Walk {
    var w1 := if shape.isPicture then w.(images := w.images + 1) else w;
    if shape.isPicture && w1.images == 2 then SilenceStep(dir, slide, w1) else w1
  }

  function ShapesWalk(dir: string, slide: nat, rejects: Rejects, shapes: seq<Shape>, w: Walk): Walk
    decreases |shapes|
  {
    if shapes == [] then w
    else ShapesWalk(dir, slide, rejects, shapes[1..], ShapeStep(dir, slide, rejects, shapes[0], w))
  }

  /** The walk over slide `slide`, starting with `point_counter = 1`, `image_counter = 0`. */
  function SlideWalk(dir: string, slide: nat, rejects: Rejects, shapes: seq<Shape>, fs: set<string>): Walk {
    ShapesWalk(dir, slide, rejects, shapes, Walk(1, 0, [], fs))
  }

  /** The lists of slides `i + 1 .. |deck|` and the filesystem after them. */
  function DeckWalk(dir: string, rejects: Rejects, deck: seq<Slide>, i: nat, fs: set<string>): (r: (seq<seq<string>>, set<string>))
    requires i <= |deck|
    ensures |r.0| == |deck| - i
    decreases |deck| - i
  {
    if i == |deck| then ([], fs)
    else
      var w := SlideWalk(dir, i + 1, rejects, deck[i].shapes, fs);
      var rest := DeckWalk(dir, rejects, deck, i + 1, w.fs);
      ([w.paths] + rest.0, rest.1)
  }

  /** The slide numbers `1..n`. */
  function SlideNumbers(n: nat): (r: set<int>)
    ensures forall k :: k in r <==> 1 <= k <= n
  {
    if n == 0 then {} else SlideNumbers(n - 1) + {n}
  }

  /** The audio map: slide `k` (1-based) maps to `lists[k - 1]`. */
  function AudioMapOf(lists: seq<seq<string>>): (m: map<int, seq<string>>)
    ensures m.Keys == SlideNumbers(|lists|)
    ensures forall k :: 1 <= k <= |lists| ==> m[k] == lists[k - 1]
  {
    if lists == [] then map[]
    else AudioMapOf(lists[..|lists| - 1])[|lists| := lists[|lists| - 1]]
  }

  /** After `i` slides from `fs0`: `lists` are the first `i` slides' lists, and the
      rest of the walk from `fs` finishes the walk from `fs0`. */
  ghost predicate DeckWalked(dir: string, rejects: Rejects, deck: seq<Slide>, i: nat, fs: set<string>,
                             fs0: set<string>, lists: seq<seq<string>>)
    requires i <= |deck|
  {
    |lists| == i
    && lists + DeckWalk(dir, rejects, deck, i, fs).0 == DeckWalk(dir, rejects, deck, 0, fs0).0
    && DeckWalk(dir, rejects, deck, i, fs).1 == DeckWalk(dir, rejects, deck, 0, fs0).1
  }

  lemma DeckWalkedStep(dir: string, rejects: Rejects, deck: seq<Slide>, i: nat, fs: set<string>, fs': set<string>,
                       fs0: set<string>, lists: seq<seq<string>>, paths: seq<string>)
    requires i < |deck| && DeckWalked(dir, rejects, deck, i, fs, fs0, lists)
    requires var w := SlideWalk(dir, i + 1, rejects, deck[i].shapes, fs); paths == w.paths && fs' == w.fs
    ensures DeckWalked(dir, rejects, deck, i + 1, fs', fs0, lists + [paths])
  {
    DeckWalkUnfold(dir, rejects, deck, i, fs, paths, fs');
    assert lists + ([paths] + DeckWalk(dir, rejects, deck, i + 1, fs').0)
        == (lists + [paths]) + DeckWalk(dir, rejects, deck, i + 1, fs').0;
  }

  lemma DeckWalkedDone(dir: string, rejects: Rejects, deck: seq<Slide>, fs: set<string>,
                       fs0: set<string>, lists: seq<seq<string>>)
    requires DeckWalked(dir, rejects, deck, |deck|, fs, fs0, lists)
    ensures lists == DeckWalk(dir, rejects, deck, 0, fs0).0 && fs == DeckWalk(dir, rejects, deck, 0, fs0).1
  {
    assert lists + [] == lists;
  }

  lemma DeckWalkUnfold(dir: string, rejects: Rejects, deck: seq<Slide>, i: nat, fs: set<string>,
                       paths: seq<string>, fs': set<string>)
    requires i < |deck|
    requires var w := SlideWalk(dir, i + 1, rejects, deck[i].shapes, fs); paths == w.paths && fs' == w.fs
    ensures DeckWalk(dir, rejects, deck, i, fs).0 == [paths] + DeckWalk(dir, rejects, deck, i + 1, fs').0
    ensures DeckWalk(dir, rejects, deck, i, fs).1 == DeckWalk(dir, rejects, deck, i + 1, fs').1
  {
  }

  /** Adding slide `|lists| + 1` to the audio map. */
  lemma AudioMapOfAppend(lists: seq<seq<string>>, paths: seq<string>)
    ensures AudioMapOf(lists + [paths]) == AudioMapOf(lists)[|lists| + 1 := paths]
  {
    assert (lists + [paths])[..|lists|] == lists;
  }

  /** A whole `generate_audio_from_points` call: `output_dir` is created, the deck
      is walked, and the audio map and the resulting filesystem are returned. */
  function AudioRun(deck: seq<Slide>, dir: string, rejects: Rejects, fs: set<string>): (map<int, seq<string>>, set<string>) {
    var r := DeckWalk(dir, rejects, deck, 0, fs + Lineage(dir));
    (AudioMapOf(r.0), r.1)
  }

  /** The paragraph loop of one text frame. */
  method NarrateParagraphs(dir: string, slideIdx: nat, rejects: Rejects, paras: seq<string>, fs: FileSystem,
                           point0: nat, images: nat, paths0: seq<string>)
    returns (point: nat, paths: seq<string>)
    modifies fs
    ensures Walk(point, images, paths, fs.paths)
         == ParagraphsWalk(dir, slideIdx, rejects, paras, Walk(point0, images, paths0, old(fs.paths)))
  {
    point, paths := point0, paths0;
    var k := 0;
    while k < |paras|
      invariant 0 <= k <= |paras|
      invariant ParagraphsWalk(dir, slideIdx, rejects, paras[k..], Walk(point, images, paths, fs.paths))
             == ParagraphsWalk(dir, slideIdx, rejects, paras, Walk(point0, images, paths0, old(fs.paths)))
    {
      ghost var before := Walk(point, images, paths, fs.paths);
      point, paths := NarrateParagraph(dir, slideIdx, rejects, paras[k], fs, point, images, paths);
      ParagraphsWalkStep(dir, slideIdx, rejects, paras, k, before);
      k := k + 1;
    }
    assert paras[k..] == [];
  }

  /** One paragraph of the loop: narrated unless its stripped text has no `\w`
      character; an existing file is reused, and a text TTS rejects is skipped. */
  method NarrateParagraph(dir: string, slideIdx: nat, rejects: Rejects, para: string, fs: FileSystem,
                          point0: nat, images: nat, paths0: seq<string>)
    returns (point: nat, paths: seq<string>)
    modifies fs
    ensures Walk(point, images, paths, fs.paths)
         == ParagraphStep(dir, slideIdx, rejects, para, Walk(point0, images, paths0, old(fs.paths)))
  {
    point, paths := point0, paths0;
    var text := Strip(para);
    if text != [] && HasWordChar(text) {
      var fname := CueFile(dir, slideIdx, point);
      var synthesized := true;
      if !fs.Exists(fname) {
        synthesized := !rejects(text);
        if synthesized {
          fs.Write(fname);
        }
      }
      if synthesized {
        paths := paths + [fname];
        point := point + 1;
      }
    }
  }

  lemma ParagraphsWalkStep(dir: string, slide: nat, rejects: Rejects, paras: seq<string>, k: nat, w: Walk)
    requires k < |paras|
    ensures ParagraphsWalk(dir, slide, rejects, paras[k..], w)
         == ParagraphsWalk(dir, slide, rejects, paras[k + 1..], ParagraphStep(dir, slide, rejects, paras[k], w))
  {
    assert paras[k..][0] == paras[k] && paras[k..][1..] == paras[k + 1..];
  }

  /** One shape of the slide loop: a picture bumps the image counter (the second
      one gets the silent clip), then a text frame narrates its paragraphs. */
  method NarrateShape(dir: string, slideIdx: nat, rejects: Rejects, shape: Shape, fs: FileSystem,
                      point0: nat, images0: nat, paths0: seq<string>)
    returns (point: nat, images: nat, paths: seq<string>)
    modifies fs
    ensures Walk(point, images, paths, fs.paths)
         == ShapeStep(dir, slideIdx, rejects, shape, Walk(point0, images0, paths0, old(fs.paths)))
  {
    ghost var before := Walk(point0, images0, paths0, fs.paths);
    point, images, paths := point0, images0, paths0;
    if shape.isPicture {
      images := images + 1;
    }
    if shape.isPicture && images == 2 {
      var fname := CueFile(dir, slideIdx, point);
      if !fs.Exists(fname) {
        fs.Write(fname);
      }
      paths := paths + [fname];
      point := point + 1;
    }
    assert Walk(point, images, paths, fs.paths) == PictureStep(dir, slideIdx, shape, before);
    if shape.hasTextFrame {
      point, paths := NarrateParagraphs(dir, slideIdx, rejects, shape.paragraphs, fs, point, images, paths);
    }
  }

  /** The shape loop of one slide, with its counters `point_counter` and `image_counter`. */
  method NarrateSlide(dir: string, slideIdx: nat, rejects: Rejects, shapes: seq<Shape>, fs: FileSystem)
    returns (paths: seq<string>)
    modifies fs
    ensures var w := SlideWalk(dir, slideIdx, rejects, shapes, old(fs.paths));
            paths == w.paths && fs.paths == w.fs
  {
    paths := [];
    var pointCounter: nat := 1;
    var imageCounter: nat := 0;
    var j := 0;
    while j < |shapes|
      invariant 0 <= j <= |shapes|
      invariant ShapesWalk(dir, slideIdx, rejects, shapes[j..], Walk(pointCounter, imageCounter, paths, fs.paths))
             == SlideWalk(dir, slideIdx, rejects, shapes, old(fs.paths))
    {
      ghost var before := Walk(pointCounter, imageCounter, paths, fs.paths);
      pointCounter, imageCounter, paths := NarrateShape(dir, slideIdx, rejects, shapes[j], fs, pointCounter, imageCounter, paths);
      ShapesWalkStep(dir, slideIdx, rejects, shapes, j, before);
      j := j + 1;
    }
    assert shapes[j..] == [];
  }

  lemma ShapesWalkStep(dir: string, slide: nat, rejects: Rejects, shapes: seq<Shape>, j: nat, w: Walk)
    requires j < |shapes|
    ensures ShapesWalk(dir, slide, rejects, shapes[j..], w)
         == ShapesWalk(dir, slide, rejects, shapes[j + 1..], ShapeStep(dir, slide, rejects, shapes[j], w))
  {
    assert shapes[j..][0] == shapes[j] && shapes[j..][1..] == shapes[j + 1..];
  }

  /** Cue extraction and synthesis over the whole deck, as `generate_audio_from_points`
      does it: `output_dir` is created, and slide `s` gets one list (possibly empty)
      of the files it narrates. */
  method GenerateAudioFromPoints(deck: seq<Slide>, outputDir: string, fs: FileSystem, rejects: Rejects)
    returns (audioMap: map<int, seq<string>>, events: seq<Progress>)
    modifies fs
    ensures (audioMap, fs.paths) == AudioRun(deck, outputDir, rejects, old(fs.paths))
    ensures events == Ticks("Generating audio ", |deck|)
  {
    fs.MakeDirs(outputDir);
    ghost var fs0 := fs.paths;
    ghost var lists: seq<seq<string>> := [];
    audioMap := map[];
    events := [];
    var slideCount := |deck|;
    var i := 0;
    while i < slideCount
      invariant i <= slideCount
      invariant DeckWalked(outputDir, rejects, deck, i, fs.paths, fs0, lists)
      invariant audioMap == AudioMapOf(lists)
      invariant events == Ticks("Generating audio ", slideCount)[..i]
    {
      var slideIdx := i + 1;
      events := events + [Tick("Generating audio ", slideIdx, slideCount)];
      ghost var fsBefore := fs.paths;
      var paths := NarrateSlide(outputDir, slideIdx, rejects, deck[i].shapes, fs);
      DeckWalkedStep(outputDir, rejects, deck, i, fsBefore, fs.paths, fs0, lists, paths);
      AudioMapOfAppend(lists, paths);
      TicksAppend("Generating audio ", slideCount, i);
      audioMap := audioMap[slideIdx := paths];
      lists := lists + [paths];
      i := i + 1;
    }
    DeckWalkedDone(outputDir, rejects, deck, fs.paths, fs0, lists);
  }

  // ---------------------------------------------------------------------------
  // The cue plan: which cues a slide has, independently of files and TTS.

  /** A cue of a slide: the silent clip of its second picture, or a paragraph's stripped text. */
  datatype Cue = Silence | Speech(text: string)

  /** The speech cues of a text frame: one per paragraph with a `\w` character, in order. */
  function SpeechCues(paras: seq<string>): seq<Cue> {
    if paras == [] then []
    else (if HasWordChar(paras[0]) then [Speech(Strip(paras[0]))] else []) + SpeechCues(paras[1..])
  }

  /** The cues of one shape when `before` pictures precede it on the slide. */
  function ShapeCues(shape: Shape, before: nat): seq<Cue> {
    (if shape.isPicture && before + 1 == 2 then [Silence] else [])
    + (if shape.hasTextFrame then SpeechCues(shape.paragraphs) else [])
  }

  /** The number of pictures among `shapes`. */
  function Pictures(shapes: seq<Shape>): nat {
    if shapes == [] then 0 else (if shapes[0].isPicture then 1 else 0) + Pictures(shapes[1..])
  }

  /** The cues of `shapes` when `before` pictures precede them. */
  function SlideCues(shapes: seq<Shape>, before: nat): seq<Cue> {
    if shapes == [] then []
    else ShapeCues(shapes[0], before) + SlideCues(shapes[1..], before + (if shapes[0].isPicture then 1 else 0))
  }

  /** One cue taken by the walk. */
  function CueStep(dir: string, slide: nat, rejects: Rejects, cue: Cue, w: Walk): Walk {
    match cue
    case Silence => SilenceStep(dir, slide, w)
    case Speech(text) => SpeechStep(dir, slide, rejects, text, w)
  }

  function CuesWalk(dir: string, slide: nat, rejects: Rejects, cues: seq<Cue>, w: Walk): Walk {
    if cues == [] then w else CuesWalk(dir, slide, rejects, cues[1..], CueStep(dir, slide, rejects, cues[0], w))
  }

  lemma {:induction false} CuesWalkAppend(dir: string, slide: nat, rejects: Rejects, a: seq<Cue>, b: seq<Cue>, w: Walk)
    ensures CuesWalk(dir, slide, rejects, a + b, w)
         == CuesWalk(dir, slide, rejects, b, CuesWalk(dir, slide, rejects, a, w))
    decreases |a|
  {
    if a == [] {
      assert a + b == b;
    } else {
      assert (a + b)[0] == a[0] && (a + b)[1..] == a[1..] + b;
      CuesWalkAppend(dir, slide, rejects, a[1..], b, CueStep(dir, slide, rejects, a[0], w));
    }
  }

  /** Taking cues never depends on, nor changes, the picture counter. */
  lemma {:induction false} CuesIgnoreImages(dir: string, slide: nat, rejects: Rejects, cues: seq<Cue>, w: Walk, n: nat)
    ensures CuesWalk(dir, slide, rejects, cues, w.(images := n)) == CuesWalk(dir, slide, rejects, cues, w).(images := n)
    ensures CuesWalk(dir, slide, rejects, cues, w).images == w.images
    decreases |cues|
  {
    if cues != [] {
      var w' := CueStep(dir, slide, rejects, cues[0], w);
      assert CueStep(dir, slide, rejects, cues[0], w.(images := n)) == w'.(images := n);
      CuesIgnoreImages(dir, slide, rejects, cues[1..], w', n);
    }
  }

  /** The paragraph loop takes exactly the speech cues of the paragraphs: the
      test on the stripped text agrees with the test on the raw paragraph. */
  lemma {:induction false} ParagraphsFollowPlan(dir: string, slide: nat, rejects: Rejects, paras: seq<string>, w: Walk)
    ensures ParagraphsWalk(dir, slide, rejects, paras, w) == CuesWalk(dir, slide, rejects, SpeechCues(paras), w)
    decreases |paras|
  {
    if paras != [] {
      var head := if HasWordChar(paras[0]) then [Speech(Strip(paras[0]))] else [];
      StripKeepsWordChars(paras[0]);
      var w' := ParagraphStep(dir, slide, rejects, paras[0], w);
      assert CuesWalk(dir, slide, rejects, head, w) == w';
      ParagraphsFollowPlan(dir, slide, rejects, paras[1..], w');
      CuesWalkAppend(dir, slide, rejects, head, SpeechCues(paras[1..]), w);
    }
  }

  lemma ShapeFollowsPlan(dir: string, slide: nat, rejects: Rejects, shape: Shape, w: Walk)
    ensures ShapeStep(dir, slide, rejects, shape, w)
         == CuesWalk(dir, slide, rejects, ShapeCues(shape, w.images), w).(images := w.images + if shape.isPicture then 1 else 0)
  {
    var m := w.images + if shape.isPicture then 1 else 0;
    var silence: seq<Cue> := if shape.isPicture && w.images + 1 == 2 then [Silence] else [];
    var speech := if shape.hasTextFrame then SpeechCues(shape.paragraphs) else [];
    assert ShapeCues(shape, w.images) == silence + speech;
    var x := CuesWalk(dir, slide, rejects, silence, w);
    CuesWalkAppend(dir, slide, rejects, silence, speech, w);
    var w2 := PictureStep(dir, slide, shape, w);
    PictureFollowsPlan(dir, slide, rejects, shape, w);
    CuesIgnoreImages(dir, slide, rejects, speech, x, m);
    if shape.hasTextFrame {
      ParagraphsFollowPlan(dir, slide, rejects, shape.paragraphs, w2);
    } else {
      assert CuesWalk(dir, slide, rejects, speech, x) == x;
    }
  }

  lemma PictureFollowsPlan(dir: string, slide: nat, rejects: Rejects, shape: Shape, w: Walk)
    ensures var silence: seq<Cue> := if shape.isPicture && w.images + 1 == 2 then [Silence] else [];
            PictureStep(dir, slide, shape, w)
            == CuesWalk(dir, slide, rejects, silence, w).(images := w.images + if shape.isPicture then 1 else 0)
  {
    if shape.isPicture && w.images + 1 == 2 {
      assert CuesWalk(dir, slide, rejects, [Silence], w) == CuesWalk(dir, slide, rejects, [], SilenceStep(dir, slide, w));
    }
  }

  /** The shape loop of a slide takes exactly the slide's planned cues, and counts its pictures. */
  lemma {:induction false} ShapesFollowPlan(dir: string, slide: nat, rejects: Rejects, shapes: seq<Shape>, w: Walk)
    ensures ShapesWalk(dir, slide, rejects, shapes, w)
         == CuesWalk(dir, slide, rejects, SlideCues(shapes, w.images), w).(images := w.images + Pictures(shapes))
    decreases |shapes|
  {
    if shapes == [] {
      assert w.(images := w.images) == w;
    } else {
      var first := ShapeCues(shapes[0], w.images);
      var y := CuesWalk(dir, slide, rejects, first, w);
      var m := w.images + if shapes[0].isPicture then 1 else 0;
      var rest := SlideCues(shapes[1..], m);
      var n := m + Pictures(shapes[1..]);
      ShapeFollowsPlan(dir, slide, rejects, shapes[0], w);
      assert ShapeStep(dir, slide, rejects, shapes[0], w) == y.(images := m);
      ShapesFollowPlan(dir, slide, rejects, shapes[1..], y.(images := m));
      CuesIgnoreImages(dir, slide, rejects, rest, y, m);
      var z := CuesWalk(dir, slide, rejects, rest, y);
      assert ShapesWalk(dir, slide, rejects, shapes[1..], y.(images := m)) == z.(images := n);
      CuesWalkAppend(dir, slide, rejects, first, rest, w);
      assert SlideCues(shapes, w.images) == first + rest;
      assert CuesWalk(dir, slide, rejects, SlideCues(shapes, w.images), w) == z;
      assert n == w.images + Pictures(shapes);
    }
  }

  lemma {:induction false} SpeechCuesHaveNoSilence(paras: seq<string>)
    ensures multiset(SpeechCues(paras))[Silence] == 0
    decreases |paras|
  {
    if paras != [] {
      SpeechCuesHaveNoSilence(paras[1..]);
    }
  }

  /** A paragraph yields a speech cue, with its stripped text, exactly when it has a `\w`
      character; every speech cue's text is non-empty. */
  lemma {:induction false} SpeechCuesExactly(paras: seq<string>)
    ensures forall p :: p in paras && HasWordChar(p) ==> Speech(Strip(p)) in SpeechCues(paras)
    ensures forall c :: c in SpeechCues(paras) ==>
              c.Speech? && c.text != [] && exists p :: p in paras && HasWordChar(p) && c.text == Strip(p)
    decreases |paras|
  {
    if paras != [] {
      SpeechCuesExactly(paras[1..]);
      StripKeepsWordChars(paras[0]);
      assert forall p :: p in paras ==> p == paras[0] || p in paras[1..];
    }
  }

  /** Only the second picture of a slide yields the silence cue: with `before` pictures
      already counted, the shapes hold one silence cue exactly when the count passes 2. */
  lemma {:induction false} SilenceCount(shapes: seq<Shape>, before: nat)
    ensures multiset(SlideCues(shapes, before))[Silence] == if before < 2 <= before + Pictures(shapes) then 1 else 0
    decreases |shapes|
  {
    if shapes != [] {
      var m := before + if shapes[0].isPicture then 1 else 0;
      SilenceCount(shapes[1..], m);
      if shapes[0].hasTextFrame {
        SpeechCuesHaveNoSilence(shapes[0].paragraphs);
      }
    }
  }

  /** A slide has one silence cue exactly when it has at least two pictures. */
  lemma SlideSilence(shapes: seq<Shape>)
    ensures multiset(SlideCues(shapes, 0))[Silence] == if Pictures(shapes) >= 2 then 1 else 0
  {
    SilenceCount(shapes, 0);
  }

  // ---------------------------------------------------------------------------
  // Numbering: file names run contiguously 1..k in emission order.

  /** The list of the walk names cues `1 .. |paths|` in order, `point_counter` is the
      next index, and every listed file exists. */
  ghost predicate Numbered(dir: string, slide: nat, w: Walk) {
    |w.paths| + 1 == w.point
    && forall j :: 0 <= j < |w.paths| ==> w.paths[j] == CueFile(dir, slide, j + 1) && w.paths[j] in w.fs
  }

  /** Appending the next cue's file, once it exists, keeps the list numbered. */
  lemma NumberedAppend(dir: string, slide: nat, w: Walk, fs: set<string>)
    requires Numbered(dir, slide, w) && w.fs <= fs && CueFile(dir, slide, w.point) in fs
    ensures Numbered(dir, slide, Walk(w.point + 1, w.images, w.paths + [CueFile(dir, slide, w.point)], fs))
  {
    var f := CueFile(dir, slide, w.point);
    var r := Walk(w.point + 1, w.images, w.paths + [f], fs);
    forall j | 0 <= j < |r.paths|
      ensures r.paths[j] == CueFile(dir, slide, j + 1) && r.paths[j] in fs
    {
      if j < |w.paths| {
        assert r.paths[j] == w.paths[j];
        assert w.paths[j] == CueFile(dir, slide, j + 1) && w.paths[j] in w.fs;
      } else {
        assert j + 1 == w.point;
        assert r.paths[j] == f;
      }
    }
    assert |r.paths| + 1 == r.point;
  }

  lemma CueStepNumbered(dir: string, slide: nat, rejects: Rejects, cue: Cue, w: Walk)
    requires Numbered(dir, slide, w)
    ensures var r := CueStep(dir, slide, rejects, cue, w);
            Numbered(dir, slide, r) && w.fs <= r.fs && w.paths <= r.paths && |r.paths| <= |w.paths| + 1
  {
    var f := CueFile(dir, slide, w.point);
    var r := CueStep(dir, slide, rejects, cue, w);
    if cue.Silence? {
      assert r == Walk(w.point + 1, w.images, w.paths + [f], w.fs + {f});
      NumberedAppend(dir, slide, w, w.fs + {f});
    } else if f in w.fs {
      assert r == Walk(w.point + 1, w.images, w.paths + [f], w.fs);
      NumberedAppend(dir, slide, w, w.fs);
    } else if rejects(cue.text) {
      assert r == w;
    } else {
      assert r == Walk(w.point + 1, w.images, w.paths + [f], w.fs + {f});
      NumberedAppend(dir, slide, w, w.fs + {f});
    }
  }

  /** Whatever TTS rejects, the walk keeps its list numbered, only adds files, and
      only appends to the list, at most once per cue. */
  lemma {:induction false} CuesWalkNumbered(dir: string, slide: nat, rejects: Rejects, cues: seq<Cue>, w: Walk)
    requires Numbered(dir, slide, w)
    ensures var r := CuesWalk(dir, slide, rejects, cues, w);
            Numbered(dir, slide, r) && w.fs <= r.fs && w.paths <= r.paths && |r.paths| <= |w.paths| + |cues|
    decreases |cues|
  {
    if cues != [] {
      CueStepNumbered(dir, slide, rejects, cues[0], w);
      CuesWalkNumbered(dir, slide, rejects, cues[1..], CueStep(dir, slide, rejects, cues[0], w));
    }
  }

  /** Slide `s`'s list is `slide_<s>_point_1.mp3, slide_<s>_point_2.mp3, …` with no gap, at
      most one file per planned cue, every listed file exists, and no file disappears. */
  lemma SlideWalkNumbered(dir: string, slide: nat, rejects: Rejects, shapes: seq<Shape>, fs: set<string>)
    ensures var r := SlideWalk(dir, slide, rejects, shapes, fs);
            |r.paths| <= |SlideCues(shapes, 0)| && fs <= r.fs
            && forall j :: 0 <= j < |r.paths| ==> r.paths[j] == CueFile(dir, slide, j + 1) && r.paths[j] in r.fs
  {
    var w := Walk(1, 0, [], fs);
    ShapesFollowPlan(dir, slide, rejects, shapes, w);
    CuesWalkNumbered(dir, slide, rejects, SlideCues(shapes, 0), w);
  }

  /** List `t` of `lists` names cues `1, 2, …` of slide `first + t`, files in `fs`. */
  ghost predicate ListsNumbered(dir: string, lists: seq<seq<string>>, first: nat, fs: set<string>) {
    forall t, j :: 0 <= t < |lists| && 0 <= j < |lists[t]| ==>
      lists[t][j] == CueFile(dir, first + t, j + 1) && lists[t][j] in fs
  }

  lemma {:induction false} DeckWalkNumbered(dir: string, rejects: Rejects, deck: seq<Slide>, i: nat, fs: set<string>)
    requires i <= |deck|
    ensures var r := DeckWalk(dir, rejects, deck, i, fs);
            fs <= r.1 && ListsNumbered(dir, r.0, i + 1, r.1)
    decreases |deck| - i
  {
    if i < |deck| {
      var w := SlideWalk(dir, i + 1, rejects, deck[i].shapes, fs);
      SlideWalkNumbered(dir, i + 1, rejects, deck[i].shapes, fs);
      DeckWalkNumbered(dir, rejects, deck, i + 1, w.fs);
      var rest := DeckWalk(dir, rejects, deck, i + 1, w.fs);
      DeckWalkUnfold(dir, rejects, deck, i, fs, w.paths, w.fs);
      ListsNumberedCons(dir, w.paths, rest.0, i + 1, w.fs, rest.1);
    }
  }

  /** A numbered list for slide `first` ahead of numbered lists for the slides after it. */
  lemma ListsNumberedCons(dir: string, paths: seq<string>, rest: seq<seq<string>>, first: nat,
                          fs: set<string>, fs': set<string>)
    requires fs <= fs' && ListsNumbered(dir, rest, first + 1, fs')
    requires forall j :: 0 <= j < |paths| ==> paths[j] == CueFile(dir, first, j + 1) && paths[j] in fs
    ensures ListsNumbered(dir, [paths] + rest, first, fs')
  {
    var lists := [paths] + rest;
    forall t, j | 0 <= t < |lists| && 0 <= j < |lists[t]|
      ensures lists[t][j] == CueFile(dir, first + t, j + 1) && lists[t][j] in fs'
    {
      if t > 0 {
        assert lists[t] == rest[t - 1];
        assert first + t == (first + 1) + (t - 1);
      } else {
        assert lists[t] == paths;
      }
    }
  }

  /** The audio map has the keys `1..n` for an `n`-slide deck, an empty slide included,
      and slide `k`'s list names `slide_<k>_point_1.mp3 …` under `output_dir`, files that exist afterwards. */
  lemma AudioMapShape(deck: seq<Slide>, dir: string, rejects: Rejects, fs: set<string>)
    ensures var (m, fs') := AudioRun(deck, dir, rejects, fs);
            (forall k :: k in m <==> 1 <= k <= |deck|)
            && (forall k, j :: 1 <= k <= |deck| && 0 <= j < |m[k]| ==> m[k][j] == CueFile(dir, k, j + 1) && m[k][j] in fs')
            && fs + Lineage(dir) <= fs'
  {
    var r := DeckWalk(dir, rejects, deck, 0, fs + Lineage(dir));
    DeckWalkNumbered(dir, rejects, deck, 0, fs + Lineage(dir));
    AudioMapNumbered(dir, r.0, r.1);
  }

  /** In the audio map of numbered lists, slide `k` maps to its own numbered files. */
  lemma AudioMapNumbered(dir: string, lists: seq<seq<string>>, fs: set<string>)
    requires ListsNumbered(dir, lists, 1, fs)
    ensures var m := AudioMapOf(lists);
            forall k, j :: 1 <= k <= |lists| && 0 <= j < |m[k]| ==> m[k][j] == CueFile(dir, k, j + 1) && m[k][j] in fs
  {
    var m := AudioMapOf(lists);
    forall k, j | 1 <= k <= |lists| && 0 <= j < |m[k]|
      ensures m[k][j] == CueFile(dir, k, j + 1) && m[k][j] in fs
    {
      assert m[k] == lists[k - 1];
      assert 1 + (k - 1) == k;
    }
  }

  // ---------------------------------------------------------------------------
  // Re-running over the files a run left behind.

  /** TTS accepts every text. */
  ghost predicate NoRejects(rejects: Rejects) {
    forall t :: !rejects(t)
  }

  /** The names of cues `start .. start + n - 1` of a slide. */
  function Run(dir: string, slide: nat, start: nat, n: nat): (r: seq<string>)
    ensures |r| == n
    decreases n
  {
    if n == 0 then [] else [CueFile(dir, slide, start)] + Run(dir, slide, start + 1, n - 1)
  }

  function RunFiles(dir: string, slide: nat, start: nat, n: nat): set<string>
    decreases n
  {
    if n == 0 then {} else {CueFile(dir, slide, start)} + RunFiles(dir, slide, start + 1, n - 1)
  }

  /** When TTS accepts everything, or every file the cues would name already exists,
      each cue takes the next index and the walk is determined by the cue count alone. */
  lemma {:induction false} CuesWalkSettled(dir: string, slide: nat, rejects: Rejects, cues: seq<Cue>, w: Walk)
    requires NoRejects(rejects) || RunFiles(dir, slide, w.point, |cues|) <= w.fs
    ensures CuesWalk(dir, slide, rejects, cues, w)
         == Walk(w.point + |cues|, w.images, w.paths + Run(dir, slide, w.point, |cues|),
                 w.fs + RunFiles(dir, slide, w.point, |cues|))
    decreases |cues|
  {
    if cues == [] {
      assert w.paths + [] == w.paths;
    } else {
      var n := |cues|;
      var f := CueFile(dir, slide, w.point);
      var w' := Walk(w.point + 1, w.images, w.paths + [f], w.fs + {f});
      var tail := cues[1..];
      RunCons(dir, slide, w.point, n, w.paths, w.fs);
      SettledStep(dir, slide, rejects, cues[0], w, !NoRejects(rejects));
      assert CuesWalk(dir, slide, rejects, cues, w) == CuesWalk(dir, slide, rejects, tail, w');
      CuesWalkSettled(dir, slide, rejects, tail, w');
      assert |tail| == n - 1 && w'.point + (n - 1) == w.point + n;
      assert w'.paths + Run(dir, slide, w'.point, n - 1) == w.paths + Run(dir, slide, w.point, n);
      assert w'.fs + RunFiles(dir, slide, w'.point, n - 1) == w.fs + RunFiles(dir, slide, w.point, n);
    }
  }

  /** The first of `n > 0` names, then the other `n - 1`. */
  lemma RunCons(dir: string, slide: nat, start: nat, n: nat, paths: seq<string>, fs: set<string>)
    requires n > 0
    ensures var f := CueFile(dir, slide, start);
            var files, rest := RunFiles(dir, slide, start, n), RunFiles(dir, slide, start + 1, n - 1);
            f in files && rest <= files
            && (paths + [f]) + Run(dir, slide, start + 1, n - 1) == paths + Run(dir, slide, start, n)
            && (fs + {f}) + rest == fs + files
  {
    var f := CueFile(dir, slide, start);
    assert Run(dir, slide, start, n) == [f] + Run(dir, slide, start + 1, n - 1);
  }

  /** One cue under the settling condition takes the next index and leaves its file. */
  lemma SettledStep(dir: string, slide: nat, rejects: Rejects, cue: Cue, w: Walk, onDisk: bool)
    requires onDisk ==> CueFile(dir, slide, w.point) in w.fs
    requires !onDisk ==> NoRejects(rejects)
    ensures var f := CueFile(dir, slide, w.point);
            CueStep(dir, slide, rejects, cue, w) == Walk(w.point + 1, w.images, w.paths + [f], w.fs + {f})
  {
    var f := CueFile(dir, slide, w.point);
    if cue.Speech? && f in w.fs {
      assert w.fs + {f} == w.fs;
    }
  }

  /** The lists a run settles on: slide `s` names its cues `1 .. |SlideCues|`. */
  function SettledLists(dir: string, deck: seq<Slide>, i: nat): seq<seq<string>>
    requires i <= |deck|
    decreases |deck| - i
  {
    if i == |deck| then [] else [Run(dir, i + 1, 1, |SlideCues(deck[i].shapes, 0)|)] + SettledLists(dir, deck, i + 1)
  }

  function SettledFiles(dir: string, deck: seq<Slide>, i: nat): set<string>
    requires i <= |deck|
    decreases |deck| - i
  {
    if i == |deck| then {} else RunFiles(dir, i + 1, 1, |SlideCues(deck[i].shapes, 0)|) + SettledFiles(dir, deck, i + 1)
  }

  lemma {:induction false} DeckWalkSettled(dir: string, rejects: Rejects, deck: seq<Slide>, i: nat, fs: set<string>)
    requires i <= |deck|
    requires NoRejects(rejects) || SettledFiles(dir, deck, i) <= fs
    ensures DeckWalk(dir, rejects, deck, i, fs) == (SettledLists(dir, deck, i), fs + SettledFiles(dir, deck, i))
    decreases |deck| - i
  {
    if i < |deck| {
      var shapes := deck[i].shapes;
      var w0 := Walk(1, 0, [], fs);
      ShapesFollowPlan(dir, i + 1, rejects, shapes, w0);
      CuesWalkSettled(dir, i + 1, rejects, SlideCues(shapes, 0), w0);
      var w := SlideWalk(dir, i + 1, rejects, shapes, fs);
      var files := RunFiles(dir, i + 1, 1, |SlideCues(shapes, 0)|);
      assert SettledFiles(dir, deck, i) == files + SettledFiles(dir, deck, i + 1);
      assert w.paths == Run(dir, i + 1, 1, |SlideCues(shapes, 0)|) && w.fs == fs + files;
      DeckWalkSettled(dir, rejects, deck, i + 1, w.fs);
      assert w.fs + SettledFiles(dir, deck, i + 1) == fs + SettledFiles(dir, deck, i);
      var rest := DeckWalk(dir, rejects, deck, i + 1, w.fs);
      assert DeckWalk(dir, rejects, deck, i, fs) == ([w.paths] + rest.0, rest.1);
      assert SettledLists(dir, deck, i) == [w.paths] + SettledLists(dir, deck, i + 1);
    } else {
      assert SettledFiles(dir, deck, i) == {};
      assert fs + {} == fs;
    }
  }

  /** Under a TTS that rejects no text, a re-run returns the same audio map and writes
      nothing, whatever TTS would do on the second run. */
  lemma RerunIdempotent(deck: seq<Slide>, dir: string, rejects: Rejects, rejects': Rejects, fs: set<string>)
    requires NoRejects(rejects)
    ensures AudioRun(deck, dir, rejects', AudioRun(deck, dir, rejects, fs).1) == AudioRun(deck, dir, rejects, fs)
  {
    var fs1 := fs + Lineage(dir);
    DeckWalkSettled(dir, rejects, deck, 0, fs1);
    var fs2 := AudioRun(deck, dir, rejects, fs).1 + Lineage(dir);
    assert fs2 == fs1 + SettledFiles(dir, deck, 0);
    DeckWalkSettled(dir, rejects', deck, 0, fs2);
  }

  /** A one-letter paragraph is spoken as it is. */
  lemma PlainParagraph(dir: string, slide: nat, rejects: Rejects, c: char, w: Walk)
    requires 'A' <= c <= 'Z'
    ensures ParagraphStep(dir, slide, rejects, [c], w) == SpeechStep(dir, slide, rejects, [c], w)
  {
    StripUnpadded([c]);
    assert IsWordChar([c][0]);
  }

  lemma OneSlideDeck(dir: string, rejects: Rejects, deck: seq<Slide>, fs: set<string>)
    requires |deck| == 1
    ensures var w := SlideWalk(dir, 1, rejects, deck[0].shapes, fs);
            DeckWalk(dir, rejects, deck, 0, fs) == ([w.paths], w.fs)
  {
    var w := SlideWalk(dir, 1, rejects, deck[0].shapes, fs);
    assert DeckWalk(dir, rejects, deck, 1, w.fs) == ([], w.fs);
    assert [w.paths] + [] == [w.paths];
  }

  /** The one-slide deck of the counterexample: a text frame with paragraphs "A" and "B". */
  function ExampleDeck(): seq<Slide> {
    [Slide([Shape(false, true, ["A", "B"])], [], false, 0.0)]
  }

  /** The example slide under a TTS that rejects "A" and accepts "B": if index 1 is
      not on disk, "A" is skipped and "B" takes index 1; if it is, "A" takes it and
      "B" takes index 2. */
  lemma ExampleSlideWalk(dir: string, rejects: Rejects, fs: set<string>)
    requires rejects("A") && !rejects("B")
    requires CueFile(dir, 1, 2) !in fs
    ensures var f1, f2 := CueFile(dir, 1, 1), CueFile(dir, 1, 2);
            var w := SlideWalk(dir, 1, rejects, ExampleDeck()[0].shapes, fs);
            if f1 in fs then w.paths == [f1, f2] && w.fs == fs + {f2}
            else w.paths == [f1] && w.fs == fs + {f1}
  {
    var f1, f2 := CueFile(dir, 1, 1), CueFile(dir, 1, 2);
    CueFileInjective(dir, 1, 1, 2);
    var shape := ExampleDeck()[0].shapes[0];
    var w0 := Walk(1, 0, [], fs);
    var w1 := ParagraphStep(dir, 1, rejects, "A", w0);
    var w2 := ParagraphStep(dir, 1, rejects, "B", w1);
    PlainParagraph(dir, 1, rejects, 'A', w0);
    PlainParagraph(dir, 1, rejects, 'B', w1);
    if f1 in fs {
      assert w1 == Walk(2, 0, [f1], fs);
      assert w2 == Walk(3, 0, [f1, f2], fs + {f2});
    } else {
      assert w1 == w0;
      assert w2 == Walk(2, 0, [f1], fs + {f1});
    }
    assert ["A", "B"][1..] == ["B"] && ["B"][1..] == [];
    assert ParagraphsWalk(dir, 1, rejects, ["A", "B"], w0) == w2;
    assert ShapeStep(dir, 1, rejects, shape, w0) == w2;
    assert [shape][1..] == [];
  }

  /** Without the no-rejection premise re-running is not idempotent: a rejected first
      paragraph leaves index 1 to the second paragraph, and on the re-run the first
      paragraph finds that file and takes it, so slide 1's list grows. */
  lemma RerunAfterRejection(dir: string, rejects: Rejects)
    requires rejects("A") && !rejects("B")
    ensures var first := AudioRun(ExampleDeck(), dir, rejects, {});
            var second := AudioRun(ExampleDeck(), dir, rejects, first.1);
            first.0[1] == [CueFile(dir, 1, 1)]
            && second.0[1] == [CueFile(dir, 1, 1), CueFile(dir, 1, 2)]
  {
    var f1, f2 := CueFile(dir, 1, 1), CueFile(dir, 1, 2);
    var deck := ExampleDeck();
    CueFileInjective(dir, 1, 1, 2);
    CueFileOutsideLineage(dir, 1, 1);
    CueFileOutsideLineage(dir, 1, 2);
    var fs1 := {} + Lineage(dir);
    ExampleSlideWalk(dir, rejects, fs1);
    OneSlideDeck(dir, rejects, deck, fs1);
    var fs2 := fs1 + {f1} + Lineage(dir);
    ExampleSlideWalk(dir, rejects, fs2);
    OneSlideDeck(dir, rejects, deck, fs2);
  }
}
