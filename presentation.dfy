/**
 * The `SpeakerPresentation` component: its one piece of mutable state, the
 * current slide index, the two navigation handlers that change it, and what
 * the component derives from it on every render.
 */
module Presentation {
  import opened Wrappers
  import opened Deck
  import opened Navigation
  import opened Dispatch
  import opened Numerals

  class SpeakerPresentation {
    /** Index of the slide on screen. */
    var currentSlide: int

    /** The index always names a slide of the deck. */
    ghost predicate Valid()
      reads this
    {
      0 <= currentSlide < |Slides|
    }

    /** The component mounts on the first slide. */
    constructor ()
      ensures Valid()
      ensures currentSlide == 0
      ensures Current() == Title("Understanding Consumer Preferences",
                                 "Premium Bluetooth & Wired Speakers Market Analysis")
    {
      currentSlide := 0;
    }

    /** `nextSlide`: advance one slide unless on the last; otherwise do nothing. */
    method NextSlide()
      requires Valid()
      modifies this
      ensures Valid()
      ensures currentSlide == NextIndex(old(currentSlide), |Slides|)
      ensures old(NextDisabled()) <==> currentSlide == old(currentSlide)
    {
      if currentSlide < |Slides| - 1 {
        currentSlide := currentSlide + 1;
      }
    }

    /** `prevSlide`: go back one slide unless on the first; otherwise do nothing. */
    method PrevSlide()
      requires Valid()
      modifies this
      ensures Valid()
      ensures currentSlide == PrevIndex(old(currentSlide))
      ensures old(PrevDisabled()) <==> currentSlide == old(currentSlide)
    {
      if currentSlide > 0 {
        currentSlide := currentSlide - 1;
      }
    }

    /** `slides[currentSlide]`, always defined because of the invariant. */
    function Current(): (s: Slide)
      reads this
      requires Valid()
      ensures s in Slides
      ensures !s.Other?
    {
      Slides[currentSlide]
    }

    /** `renderSlide(slides[currentSlide])`: never `undefined` on this deck. */
    function Shown(): (v: Option<View>)
      reads this
      requires Valid()
      ensures v.Some?
      ensures v.value.heading == Current().title
    {
      DeckAlwaysRenders();
      RenderSlide(Slides[currentSlide])
    }

    /** The "previous" button's `disabled` flag. */
    predicate PrevDisabled()
      reads this
      ensures Valid() ==> (PrevDisabled() <==> PrevIndex(currentSlide) == currentSlide)
    {
      PrevDisabledAt(currentSlide)
    }

    /** The "next" button's `disabled` flag. */
    predicate NextDisabled()
      reads this
      ensures Valid() ==> (NextDisabled() <==> NextIndex(currentSlide, |Slides|) == currentSlide)
    {
      NextDisabledAt(currentSlide, |Slides|)
    }

    /** The text "{currentSlide + 1} / {slides.length}": a digit from 1 to 7, then " / 7". */
    function Indicator(): (r: string)
      reads this
      requires Valid()
      ensures |r| == 5
      ensures '1' <= r[0] <= '7'
      ensures r[0] as int - '0' as int == currentSlide + 1
      ensures r[1..] == " / 7"
    {
      Decimal(currentSlide + 1) + " / " + Decimal(|Slides|)
    }
  }

  /**
   * From a freshly mounted component, six presses of "next" reach the
   * "Thank You" slide, where a seventh press changes nothing.
   */
  method SixNextsReachTheEnd() returns (reached: Slide, afterSeventh: int, indicator: string)
    ensures reached == Title("Thank You", "Questions & Discussion")
    ensures afterSeventh == |Slides| - 1 == 6
    ensures indicator == "7 / 7"
  {
    var p := new SpeakerPresentation();
    p.NextSlide();
    p.NextSlide();
    p.NextSlide();
    p.NextSlide();
    p.NextSlide();
    p.NextSlide();
    reached := p.Current();
    p.NextSlide();
    afterSeventh := p.currentSlide;
    indicator := p.Indicator();
  }
}
