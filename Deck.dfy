/** The slide deck as the pipeline sees it: the shapes python-pptx reads for
    narration, and the animation timings PowerPoint reads and writes. */
module Deck {

  /** A shape on a slide: whether it is a picture (`MSO_SHAPE_TYPE.PICTURE`),
      whether it has a text frame, and the raw text of its paragraphs. */
  datatype Shape = Shape(isPicture: bool, hasTextFrame: bool, paragraphs: seq<string>)

  /** `msoAnimTrigger*`: how an animation effect is started. */
  datatype Trigger = OnPageClick | WithPrevious | AfterPrevious | OnShapeClick

  /** One effect of a slide's `TimeLine.MainSequence`: its trigger and its `TriggerDelayTime` in seconds. */
  datatype Effect = Effect(trigger: Trigger, delay: real)

  /** A slide: its shapes, its main animation sequence, and its
      `SlideShowTransition.AdvanceOnTime` / `AdvanceTime` settings. */
  datatype Slide = Slide(shapes: seq<Shape>, effects: seq<Effect>, advanceOnTime: bool, advanceTime: real)

  /** The deck file on disk; slide `i` (1-based `SlideIndex`) is `slides[i - 1]`. */
  class DeckFile {
    var slides: seq<Slide>

    constructor (slides: seq<Slide>)
      ensures this.slides == slides
    {
      this.slides := slides;
    }
  }
}
