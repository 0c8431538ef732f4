/**
 * The offer carousel (src/pages/User/Carousel.jsx): three slides, advanced by a timer and
 * chosen directly by a row of dots.
 */
module Carousel {

  /** The number of offers, `offers.length`. */
  const SlideCount := 3

  /** The slide after `s`, wrapping from the last back to the first. */
  function NextSlide(s: int): (r: int)
    requires 0 <= s
    ensures 0 <= r < SlideCount
    ensures s < SlideCount - 1 ==> r == s + 1
    ensures s == SlideCount - 1 ==> r == 0
  {
    (s + 1) % SlideCount
  }

  /** Three ticks bring the carousel back to the slide it started on. */
  lemma ThreeTicks(s: int)
    requires 0 <= s < SlideCount
    ensures NextSlide(NextSlide(NextSlide(s))) == s
  {
  }

  /** The state of the carousel. */
  class OfferCarousel {
    var currentSlide: int

    predicate Valid()
      reads this
    {
      0 <= currentSlide < SlideCount
    }

    constructor()
      ensures currentSlide == 0 && Valid()
    {
      currentSlide := 0;
    }

    /** The interval timer fires: the next slide is shown. */
    method Tick()
      requires Valid()
      modifies this
      ensures currentSlide == NextSlide(old(currentSlide)) && Valid()
    {
      currentSlide := (currentSlide + 1) % SlideCount;
    }

    /** A click on dot `index` shows that slide. */
    method SelectDot(index: int)
      requires 0 <= index < SlideCount
      modifies this
      ensures currentSlide == index && Valid()
    {
      currentSlide := index;
    }

    /** How far left the slide track is moved, in percent of one slide. */
    function TrackOffset(): (offset: int)
      requires Valid()
      reads this
      ensures 0 <= offset <= 100 * (SlideCount - 1) && offset % 100 == 0
      ensures IsHighlighted(offset / 100)
    {
      currentSlide * 100
    }

    /** Dot `index` is drawn highlighted. */
    predicate IsHighlighted(index: int)
      reads this
    {
      currentSlide == index
    }

    /** The dots drawn highlighted: exactly one, the current slide's. */
    function HighlightedDots(): (dots: set<int>)
      requires Valid()
      reads this
      ensures |dots| == 1 && currentSlide in dots
      ensures forall i :: i in dots ==> 0 <= i < SlideCount
    {
      var dots := set i | 0 <= i < SlideCount && IsHighlighted(i);
      assert dots == {currentSlide};
      dots
    }
  }
}
