/** Timing injection (`apply_point_timings`): each slide listed in the duration map
    has its main animation sequence re-triggered from the measured cue durations
    and its transition set to advance after their sum; the deck is saved at the end. */
module Timing {
  import opened Report
  import opened Deck

  /** The message of the `IndexError` raised by `point_durs[0]` on an empty list. */
  const IndexErrorMessage := "list index out of range"

  /** `sum(durs)`. */
  function Sum(durs: seq<real>): real {
    if durs == [] then 0.0 else durs[0] + Sum(durs[1..])
  }

  /** The timed effect `k` (0-based) of a slide: the first starts with the previous
      event after `durs[0]`; effect `k >= 1` starts after the previous one, after
      `durs[k]` when that exists and after 0 otherwise. */
  function TimedEffect(durs: seq<real>, k: nat): Effect
    requires k == 0 ==> durs != []
  {
    if k == 0 then Effect(WithPrevious, durs[0])
    else Effect(AfterPrevious, if k < |durs| then durs[k] else 0.0)
  }

  function TimedEffects(count: nat, durs: seq<real>): (r: seq<Effect>)
    requires count > 0 ==> durs != []
    ensures |r| == count
    ensures forall k :: 0 <= k < count ==> r[k] == TimedEffect(durs, k)
  {
    seq(count, k requires 0 <= k < count => TimedEffect(durs, k))
  }

  /** One slide listed in the duration map: an animated slide with no durations
      raises; otherwise every effect is re-timed, the shapes are kept, and the slide
      advances on time after the sum of the durations, even with no effects. */
  function TimeSlide(slide: Slide, durs: seq<real>): Raised<Slide> {
    if |slide.effects| >= 1 && durs == [] then Raised(IndexErrorMessage)
    else Returned(Slide(slide.shapes, TimedEffects(|slide.effects|, durs), true, Sum(durs)))
  }

  /** The progress reported for one slide listed in the map: a tick per effect
      (`completed/Count`) and then `(100, "Timing applied")`; nothing if it raises. */
  function SlideTimingEvents(slide: Slide, durs: seq<real>): seq<Progress> {
    if |slide.effects| >= 1 && durs == [] then []
    else Ticks("Applying timing ", |slide.effects|) + [Progress(100, "Timing applied")]
  }

  /** Slide `i + 1` (`SlideIndex`) of the deck: timed if it is a key of the map, untouched otherwise. */
  function SlideStep(slides: seq<Slide>, durations: map<int, seq<real>>, i: nat): Raised<Slide>
    requires i < |slides|
  {
    if i + 1 in durations then TimeSlide(slides[i], durations[i + 1]) else Returned(slides[i])
  }

  function SlideStepEvents(slides: seq<Slide>, durations: map<int, seq<real>>, i: nat): seq<Progress>
    requires i < |slides|
  {
    if i + 1 in durations then SlideTimingEvents(slides[i], durations[i + 1]) else []
  }

  /** Slides `i ..` after timing, or the first exception raised on the way. */
  function TimeFrom(slides: seq<Slide>, durations: map<int, seq<real>>, i: nat): (r: Raised<seq<Slide>>)
    requires i <= |slides|
    ensures r.Returned? ==> |r.value| == |slides| - i
    decreases |slides| - i
  {
    if i == |slides| then Returned([])
    else match SlideStep(slides, durations, i)
      case Raised(e) => Raised(e)
      case Returned(s) =>
        match TimeFrom(slides, durations, i + 1)
        case Raised(e) => Raised(e)
        case Returned(rest) => Returned([s] + rest)
  }

  /** The progress reported over slides `i ..`, up to the exception if one is raised. */
  function EventsFrom(slides: seq<Slide>, durations: map<int, seq<real>>, i: nat): seq<Progress>
    requires i <= |slides|
    decreases |slides| - i
  {
    if i == |slides| then []
    else SlideStepEvents(slides, durations, i)
         + if SlideStep(slides, durations, i).Raised? then [] else EventsFrom(slides, durations, i + 1)
  }

  /** What `apply_point_timings` makes of the deck file: `openFault` is the error
      of opening the presentation, if any; the deck is saved only when every slide
      went through. */
  function ApplyTimings(slides: seq<Slide>, durations: map<int, seq<real>>, openFault: Option<string>): Raised<seq<Slide>> {
    if openFault.Some? then Raised(openFault.value) else TimeFrom(slides, durations, 0)
  }

  function ApplyTimingsEvents(slides: seq<Slide>, durations: map<int, seq<real>>, openFault: Option<string>): seq<Progress> {
    if openFault.Some? then [] else EventsFrom(slides, durations, 0)
  }

  /** `prefix` in front of what the rest produced, or its exception. */
  function Prepend(prefix: seq<Slide>, r: Raised<seq<Slide>>): Raised<seq<Slide>> {
    match r
    case Raised(e) => Raised(e)
    case Returned(rest) => Returned(prefix + rest)
  }

  /** The timing of one slide of the presentation, effect by effect. */
  method TimeSlideEffects(slide: Slide, durs: seq<real>) returns (r: Raised<Slide>, events: seq<Progress>)
    ensures r == TimeSlide(slide, durs)
    ensures events == SlideTimingEvents(slide, durs)
  {
    var effects := slide.effects;
    var count := |effects|;
    events := [];
    if count >= 1 {
      if |durs| == 0 {
        return Raised(IndexErrorMessage), events;
      }
      effects := effects[0 := Effect(WithPrevious, durs[0])];
      events := events + [Tick("Applying timing ", 1, count)];
    }
    var k := 1;
    while k < count
      invariant |effects| == count
      invariant count == 0 ==> k == 1 && events == []
      invariant count > 0 ==> 1 <= k <= count && durs != []
      invariant forall j :: 0 <= j < k && j < count ==> effects[j] == TimedEffect(durs, j)
      invariant count > 0 ==> events == Ticks("Applying timing ", count)[..k]
    {
      var prevDur := if k < |durs| then durs[k] else 0.0;
      effects := effects[k := Effect(AfterPrevious, prevDur)];
      events := events + [Tick("Applying timing ", k + 1, count)];
      TicksAppend("Applying timing ", count, k);
      k := k + 1;
    }
    assert forall j :: 0 <= j < count ==> effects[j] == TimedEffects(count, durs)[j];
    assert effects == TimedEffects(count, durs);
    if count == 0 {
      assert Ticks("Applying timing ", count) == [];
    } else {
      assert Ticks("Applying timing ", count)[..k] == Ticks("Applying timing ", count);
    }
    events := events + [Progress(100, "Timing applied")];
    r := Returned(Slide(slide.shapes, effects, true, Sum(durs)));
  }

  /** `apply_point_timings` on the deck file: the presentation is opened, every
      slide that is a key of `durations` is re-timed in order, and the deck is saved;
      an exception leaves the file as it was. */
  method ApplyPointTimings(deck: DeckFile, durations: map<int, seq<real>>, openFault: Option<string>)
    returns (r: Raised<()>, events: seq<Progress>)
    modifies deck
    ensures events == ApplyTimingsEvents(old(deck.slides), durations, openFault)
    ensures match ApplyTimings(old(deck.slides), durations, openFault)
            case Raised(e) => r == Raised(e) && deck.slides == old(deck.slides)
            case Returned(timed) => r == Returned(()) && deck.slides == timed
  {
    events := [];
    if openFault.Some? {
      return Raised(openFault.value), events;
    }
    var pres := deck.slides;
    ghost var original := deck.slides;
    TimedUpToStart(original, durations);
    var i := 0;
    while i < |pres|
      invariant i <= |original| && deck.slides == original
      invariant TimedUpTo(original, durations, i, pres, events)
    {
      var slideIdx := i + 1;
      if slideIdx in durations {
        var timed, slideEvents := TimeSlideEffects(pres[i], durations[slideIdx]);
        if timed.Raised? {
          TimedUpToRaise(original, durations, i, pres, events, timed.error);
          events := events + slideEvents;
          return Raised(timed.error), events;
        }
        TimedUpToStep(original, durations, i, pres, events, timed.value, slideEvents);
        events := events + slideEvents;
        pres := pres[i := timed.value];
      } else {
        TimedUpToStep(original, durations, i, pres, events, pres[i], []);
        assert events + [] == events && pres[i := pres[i]] == pres;
      }
      i := i + 1;
    }
    TimedUpToDone(original, durations, pres, events);
    deck.slides := pres;
    r := Returned(());
  }

  /** The loop over the presentation's slides has re-timed slides `1 .. i` into
      `pres` and reported `events`; the rest of `pres` is still the deck as opened. */
  ghost predicate TimedUpTo(original: seq<Slide>, durations: map<int, seq<real>>, i: nat,
                            pres: seq<Slide>, events: seq<Progress>)
    requires i <= |original|
  {
    |pres| == |original|
    && (forall j :: i <= j < |pres| ==> pres[j] == original[j])
    && Prepend(pres[..i], TimeFrom(original, durations, i)) == TimeFrom(original, durations, 0)
    && events + EventsFrom(original, durations, i) == EventsFrom(original, durations, 0)
  }

  lemma TimedUpToStart(original: seq<Slide>, durations: map<int, seq<real>>)
    ensures TimedUpTo(original, durations, 0, original, [])
  {
    PrependNothing(TimeFrom(original, durations, 0));
    assert [] + EventsFrom(original, durations, 0) == EventsFrom(original, durations, 0);
  }

  lemma TimedUpToStep(original: seq<Slide>, durations: map<int, seq<real>>, i: nat,
                      pres: seq<Slide>, events: seq<Progress>, s: Slide, slideEvents: seq<Progress>)
    requires i < |original| && TimedUpTo(original, durations, i, pres, events)
    requires SlideStep(original, durations, i) == Returned(s)
    requires slideEvents == SlideStepEvents(original, durations, i)
    ensures TimedUpTo(original, durations, i + 1, pres[i := s], events + slideEvents)
  {
    StepSlides(original, durations, i, pres, s);
    StepEvents(original, durations, i, events, slideEvents);
  }

  lemma StepSlides(original: seq<Slide>, durations: map<int, seq<real>>, i: nat, pres: seq<Slide>, s: Slide)
    requires i < |original| == |pres| && (forall j :: i <= j < |pres| ==> pres[j] == original[j])
    requires Prepend(pres[..i], TimeFrom(original, durations, i)) == TimeFrom(original, durations, 0)
    requires SlideStep(original, durations, i) == Returned(s)
    ensures var pres' := pres[i := s];
            |pres'| == |original| && (forall j :: i + 1 <= j < |pres'| ==> pres'[j] == original[j])
            && Prepend(pres'[..i + 1], TimeFrom(original, durations, i + 1)) == TimeFrom(original, durations, 0)
  {
    var pres' := pres[i := s];
    assert pres'[..i + 1] == pres[..i] + [s];
    PrependStep(original, durations, i, pres[..i], s);
  }

  lemma StepEvents(original: seq<Slide>, durations: map<int, seq<real>>, i: nat, events: seq<Progress>, slideEvents: seq<Progress>)
    requires i < |original| && SlideStep(original, durations, i).Returned?
    requires events + EventsFrom(original, durations, i) == EventsFrom(original, durations, 0)
    requires slideEvents == SlideStepEvents(original, durations, i)
    ensures (events + slideEvents) + EventsFrom(original, durations, i + 1) == EventsFrom(original, durations, 0)
  {
    EventsStep(original, durations, i);
    ProgressAssoc(events, slideEvents, EventsFrom(original, durations, i + 1));
  }

  lemma EventsStep(slides: seq<Slide>, durations: map<int, seq<real>>, i: nat)
    requires i < |slides| && SlideStep(slides, durations, i).Returned?
    ensures EventsFrom(slides, durations, i) == SlideStepEvents(slides, durations, i) + EventsFrom(slides, durations, i + 1)
  {
  }

  lemma ProgressAssoc(a: seq<Progress>, b: seq<Progress>, c: seq<Progress>)
    ensures (a + b) + c == a + (b + c)
  {
  }

  lemma TimedUpToRaise(original: seq<Slide>, durations: map<int, seq<real>>, i: nat,
                       pres: seq<Slide>, events: seq<Progress>, e: string)
    requires i < |original| && TimedUpTo(original, durations, i, pres, events)
    requires i + 1 in durations && TimeSlide(pres[i], durations[i + 1]) == Raised(e)
    ensures TimeFrom(original, durations, 0) == Raised(e)
    ensures events + SlideTimingEvents(pres[i], durations[i + 1]) == EventsFrom(original, durations, 0)
  {
    assert pres[i] == original[i];
    assert EventsFrom(original, durations, i) == SlideTimingEvents(pres[i], durations[i + 1]) + [];
  }

  lemma TimedUpToDone(original: seq<Slide>, durations: map<int, seq<real>>, pres: seq<Slide>, events: seq<Progress>)
    requires TimedUpTo(original, durations, |original|, pres, events)
    ensures TimeFrom(original, durations, 0) == Returned(pres)
    ensures events == EventsFrom(original, durations, 0)
  {
    assert pres[..|original|] == pres;
    assert pres + [] == pres;
    assert events + [] == events;
  }

  lemma PrependNothing(r: Raised<seq<Slide>>)
    ensures Prepend([], r) == r
  {
    if r.Returned? {
      assert [] + r.value == r.value;
    }
  }

  lemma PrependStep(slides: seq<Slide>, durations: map<int, seq<real>>, i: nat, prefix: seq<Slide>, s: Slide)
    requires i < |slides| && SlideStep(slides, durations, i) == Returned(s)
    ensures Prepend(prefix, TimeFrom(slides, durations, i)) == Prepend(prefix + [s], TimeFrom(slides, durations, i + 1))
    ensures EventsFrom(slides, durations, i) == SlideStepEvents(slides, durations, i) + EventsFrom(slides, durations, i + 1)
  {
    match TimeFrom(slides, durations, i + 1)
    case Raised(e) =>
    case Returned(rest) =>
      assert prefix + ([s] + rest) == (prefix + [s]) + rest;
  }

  // ---------------------------------------------------------------------------
  // Properties of the timing rule.

  /** The rule for one slide: the effect count and the shapes are kept, the first
      effect starts with the previous one after the first cue's duration, effect
      `k >= 1` after the previous one after cue `k + 1`'s own duration (0 past the
      end of the list), and the slide advances on time after the sum. */
  lemma TimingRule(slide: Slide, durs: seq<real>)
    requires |slide.effects| == 0 || durs != []
    ensures TimeSlide(slide, durs).Returned?
    ensures var t := TimeSlide(slide, durs).value;
            t.shapes == slide.shapes && |t.effects| == |slide.effects|
            && (|t.effects| >= 1 ==> t.effects[0] == Effect(WithPrevious, durs[0]))
            && (forall k :: 1 <= k < |t.effects| && k < |durs| ==> t.effects[k] == Effect(AfterPrevious, durs[k]))
            && (forall k :: |durs| <= k < |t.effects| ==> t.effects[k] == Effect(AfterPrevious, 0.0))
            && t.advanceOnTime && t.advanceTime == Sum(durs)
  {
  }

  /** The example durations `[2.0, 3.5, 1.0]` on a slide with three effects give the
      delays `[2.0, 3.5, 1.0]` and an advance time of 6.5 seconds. */
  lemma TimingExample(shapes: seq<Shape>, effects: seq<Effect>, advanceOnTime: bool, advanceTime: real)
    requires |effects| == 3
    ensures var t := TimeSlide(Slide(shapes, effects, advanceOnTime, advanceTime), [2.0, 3.5, 1.0]);
            t == Returned(Slide(shapes, [Effect(WithPrevious, 2.0), Effect(AfterPrevious, 3.5), Effect(AfterPrevious, 1.0)], true, 6.5))
  {
    var durs := [2.0, 3.5, 1.0];
    assert durs[1..] == [3.5, 1.0] && durs[1..][1..] == [1.0] && durs[1..][1..][1..] == [];
    assert Sum(durs) == 6.5;
    assert TimedEffects(3, durs) == [Effect(WithPrevious, 2.0), Effect(AfterPrevious, 3.5), Effect(AfterPrevious, 1.0)];
  }

  /** A slide without animation is still set to advance after the sum of its durations. */
  lemma StaticSlideAdvances(slide: Slide, durs: seq<real>)
    requires slide.effects == []
    ensures TimeSlide(slide, durs) == Returned(slide.(advanceOnTime := true, advanceTime := Sum(durs)))
    ensures SlideTimingEvents(slide, durs) == [Progress(100, "Timing applied")]
  {
    assert Ticks("Applying timing ", 0) == [];
  }

  /** Every percentage reported for a slide lies within 0..100, and the last one is 100. */
  lemma SlideTimingEventsInRange(slide: Slide, durs: seq<real>)
    ensures var ev := SlideTimingEvents(slide, durs);
            (forall j :: 0 <= j < |ev| ==> 0 <= ev[j].percent <= 100)
            && (ev != [] ==> ev[|ev| - 1] == Progress(100, "Timing applied"))
            && (ev == [] <==> |slide.effects| >= 1 && durs == [])
  {
    TicksInRange("Applying timing ", |slide.effects|);
  }

  /** A slide of the map can fail, and then only with `IndexError`. */
  ghost predicate Timeable(slides: seq<Slide>, durations: map<int, seq<real>>, i: nat)
    requires i <= |slides|
  {
    forall j :: i <= j < |slides| && j + 1 in durations ==> |slides[j].effects| == 0 || durations[j + 1] != []
  }

  /** Timing goes through exactly when no animated slide of the map has an empty
      duration list; otherwise it raises `IndexError`. */
  lemma {:induction false} TimingSucceedsIff(slides: seq<Slide>, durations: map<int, seq<real>>, i: nat)
    requires i <= |slides|
    ensures TimeFrom(slides, durations, i).Returned? <==> Timeable(slides, durations, i)
    ensures TimeFrom(slides, durations, i).Raised? ==> TimeFrom(slides, durations, i).error == IndexErrorMessage
    decreases |slides| - i
  {
    if i < |slides| {
      TimingSucceedsIff(slides, durations, i + 1);
    }
  }

  /** A successful pass times exactly the slides that are keys of the map, by the
      rule, and returns every other slide as it was. */
  lemma {:induction false} TimingPointwise(slides: seq<Slide>, durations: map<int, seq<real>>, i: nat)
    requires i <= |slides| && TimeFrom(slides, durations, i).Returned?
    ensures var t := TimeFrom(slides, durations, i).value;
            forall j :: i <= j < |slides| ==> SlideStep(slides, durations, j) == Returned(t[j - i])
    decreases |slides| - i
  {
    if i < |slides| {
      TimingPointwise(slides, durations, i + 1);
      var t := TimeFrom(slides, durations, i).value;
      var rest := TimeFrom(slides, durations, i + 1).value;
      assert t == [SlideStep(slides, durations, i).value] + rest;
    }
  }

  /** Timing never alters a slide's content, only its animation and transition. */
  lemma TimingKeepsShapes(slides: seq<Slide>, durations: map<int, seq<real>>, openFault: Option<string>)
    requires ApplyTimings(slides, durations, openFault).Returned?
    ensures var t := ApplyTimings(slides, durations, openFault).value;
            |t| == |slides| && forall j :: 0 <= j < |slides| ==> t[j].shapes == slides[j].shapes
  {
    TimingPointwise(slides, durations, 0);
    var t := ApplyTimings(slides, durations, openFault).value;
    forall j | 0 <= j < |slides|
      ensures t[j].shapes == slides[j].shapes
    {
      assert SlideStep(slides, durations, j) == Returned(t[j]);
    }
  }

  lemma TimeSlideTwice(slide: Slide, durs: seq<real>)
    requires TimeSlide(slide, durs).Returned?
    ensures TimeSlide(TimeSlide(slide, durs).value, durs) == TimeSlide(slide, durs)
  {
  }

  /** Applying the timings to a deck that already has them changes nothing. */
  lemma {:induction false} TimingIdempotent(slides: seq<Slide>, durations: map<int, seq<real>>, i: nat)
    requires i <= |slides| && TimeFrom(slides, durations, i).Returned?
    ensures var t := TimeFrom(slides, durations, i).value;
            TimeFrom(slides[..i] + t, durations, i) == TimeFrom(slides, durations, i)
    decreases |slides| - i
  {
    var t := TimeFrom(slides, durations, i).value;
    var again := slides[..i] + t;
    if i < |slides| {
      var s := SlideStep(slides, durations, i).value;
      var rest := TimeFrom(slides, durations, i + 1).value;
      assert t == [s] + rest;
      assert again[i] == s;
      if i + 1 in durations {
        TimeSlideTwice(slides[i], durations[i + 1]);
      }
      assert SlideStep(again, durations, i) == Returned(s);
      TimingIdempotent(slides, durations, i + 1);
      assert again == (slides[..i] + [s]) + rest;
      assert TimeFrom(again, durations, i + 1) == TimeFrom(slides[..i + 1] + rest, durations, i + 1) by {
        TimeFromIgnoresPrefix(again, slides[..i + 1] + rest, durations, i + 1);
      }
    }
  }

  /** Only the slides from `i` on matter to the rest of the pass. */
  lemma {:induction false} TimeFromIgnoresPrefix(a: seq<Slide>, b: seq<Slide>, durations: map<int, seq<real>>, i: nat)
    requires i <= |a| == |b| && a[i..] == b[i..]
    ensures TimeFrom(a, durations, i) == TimeFrom(b, durations, i)
    decreases |a| - i
  {
    if i < |a| {
      assert a[i] == a[i..][0] == b[i..][0] == b[i];
      assert a[i + 1..] == a[i..][1..];
      assert b[i + 1..] == b[i..][1..];
      TimeFromIgnoresPrefix(a, b, durations, i + 1);
    }
  }
}
