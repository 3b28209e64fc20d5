/** The home-page banner (src/components/Banner.tsx): three slides, arrows, dots and a
    five-second timer that always advances, whatever the user did before. */
module Banner {
  import opened Common

  datatype Slide = Slide(id: int, image: string, title: string, subtitle: string, buttonText: string)

  const Slides: seq<Slide> := [
    Slide(1, "/banner1.jpg", "Rakhi Edit 2025", "EARLY BIRD SALE - UPTO 40% OFF", "NOW LIVE"),
    Slide(2, "/banner2.jpg", "New Potli Collection", "Exclusive Handcrafted Designs", "SHOP NOW"),
    Slide(3, "/banner3.jpg", "Festival Special", "Traditional Handicrafts", "EXPLORE")
  ]

  /** The strip's `translateX` in percent of the banner width, for slide `index`. */
  function SlideOffset(index: int): (r: int)
    requires 0 <= index < |Slides|
    ensures r == 0 || r == 100 || r == 200
    ensures r / 100 == index && r % 100 == 0
  {
    index * 100
  }

  class BannerCarousel {
    var currentSlide: int

    ghost predicate Valid()
      reads this
    {
      0 <= currentSlide < |Slides|
    }

    constructor ()
      ensures Valid() && currentSlide == 0
    {
      currentSlide := 0;
    }

    /** `nextSlide`, called by the right arrow and by the timer alike. */
    method Next()
      requires Valid()
      modifies this
      ensures Valid() && currentSlide == NextIndex(old(currentSlide), |Slides|)
    {
      currentSlide := NextIndex(currentSlide, |Slides|);
    }

    /** `prevSlide`: from the first slide it wraps to the last. */
    method Prev()
      requires Valid()
      modifies this
      ensures Valid() && currentSlide == PrevIndex(old(currentSlide), |Slides|)
      ensures old(currentSlide) == 0 ==> currentSlide == 2
    {
      currentSlide := PrevIndex(currentSlide, |Slides|);
    }

    /** A click on dot k. */
    method SelectDot(k: int)
      requires 0 <= k < |Slides|
      modifies this
      ensures Valid() && currentSlide == k
    {
      currentSlide := k;
    }

    /** The strip's offset for the slide on screen. */
    function Offset(): int
      requires Valid()
      reads this
    {
      SlideOffset(currentSlide)
    }
  }

  /** Prev after Next returns the slide, and the timer then still advances it. */
  method NavigationKeepsTimer(b: BannerCarousel)
    requires b.Valid()
    modifies b
    ensures b.Valid() && b.currentSlide == NextIndex(old(b.currentSlide), |Slides|)
  {
    b.Next();
    b.Prev();
    PrevUndoesNext(old(b.currentSlide), |Slides|);
    assert b.currentSlide == old(b.currentSlide);
    b.Next();
  }
}
