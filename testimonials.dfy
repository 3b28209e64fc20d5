/** The testimonial carousel (src/components/testimonials-section.tsx): six fixed
    reviews, an index that steps forward on a timer while autoplay is on, and arrows and
    dots that move it and switch autoplay off for good. */
module Testimonials {
  import opened Common

  datatype Testimonial = Testimonial(id: int, name: string, rating: int, location: Option<string>, product: Option<string>)

  /** The six reviews (their texts and images are left out). */
  const Reviews: seq<Testimonial> := [
    Testimonial(1, "Aarti Sharma", 5, Some("Mumbai"), Some("Handmade Rakhi")),
    Testimonial(2, "Rohan Mehta", 5, Some("Delhi"), Some("Festive Collection")),
    Testimonial(3, "Sneha Kulkarni", 5, Some("Pune"), Some("Art Rakhis")),
    Testimonial(4, "Kavya Desai", 5, Some("Bangalore"), Some("Eco-Friendly Rakhi")),
    Testimonial(5, "Neha & Ankit", 5, Some("Gurgaon"), Some("Bulk Order")),
    Testimonial(6, "Priya Bhargava", 5, Some("Hyderabad"), Some("Gift Collection"))
  ]

  const StarCount := 5

  /** `renderStars`: five stars, the i-th filled when i is below the rating. */
  function Stars(rating: int): (r: seq<bool>)
    ensures |r| == StarCount
    ensures forall i :: 0 <= i < StarCount ==> (r[i] <==> i < rating)
  {
    seq(StarCount, i => i < rating)
  }

  /** The number of filled stars in a row. */
  function Filled(stars: seq<bool>): nat
  {
    if stars == [] then 0 else Filled(stars[..|stars| - 1]) + (if stars[|stars| - 1] then 1 else 0)
  }

  lemma {:induction false} FilledPrefix(n: nat, rating: int)
    ensures Filled(seq(n, i => i < rating)) == if rating < 0 then 0 else if rating > n then n else rating
  {
    if n > 0 {
      var s := seq(n, i => i < rating);
      assert s[..n - 1] == seq(n - 1, i => i < rating);
      FilledPrefix(n - 1, rating);
    }
  }

  /** A rating fills exactly that many stars, clamped to 0..5; every review shows five. */
  lemma StarsFilled(rating: int)
    ensures Filled(Stars(rating)) == if rating < 0 then 0 else if rating > StarCount then StarCount else rating
    ensures forall k :: 0 <= k < |Reviews| ==> Filled(Stars(Reviews[k].rating)) == StarCount
  {
    FilledPrefix(StarCount, rating);
    FilledPrefix(StarCount, 5);
  }

  class Carousel {
    var currentIndex: int
    var isAutoPlaying: bool

    ghost predicate Valid()
      reads this
    {
      0 <= currentIndex < |Reviews|
    }

    constructor ()
      ensures Valid() && currentIndex == 0 && isAutoPlaying
    {
      currentIndex := 0;
      isAutoPlaying := true;
    }

    /** The review on screen. */
    function Current(): Testimonial
      requires Valid()
      reads this
    {
      Reviews[currentIndex]
    }

    /** One four-second interval, which runs only while autoplay is on. */
    method AutoTick()
      requires Valid()
      modifies this
      ensures Valid() && isAutoPlaying == old(isAutoPlaying)
      ensures old(isAutoPlaying) ==> currentIndex == NextIndex(old(currentIndex), |Reviews|)
      ensures !old(isAutoPlaying) ==> currentIndex == old(currentIndex)
    {
      if isAutoPlaying {
        currentIndex := NextIndex(currentIndex, |Reviews|);
      }
    }

    /** `nextTestimonial`. */
    method Next()
      requires Valid()
      modifies this
      ensures Valid() && !isAutoPlaying
      ensures currentIndex == NextIndex(old(currentIndex), |Reviews|)
    {
      currentIndex := NextIndex(currentIndex, |Reviews|);
      isAutoPlaying := false;
    }

    /** `prevTestimonial`. */
    method Prev()
      requires Valid()
      modifies this
      ensures Valid() && !isAutoPlaying
      ensures currentIndex == PrevIndex(old(currentIndex), |Reviews|)
    {
      currentIndex := PrevIndex(currentIndex, |Reviews|);
      isAutoPlaying := false;
    }

    /** `goToTestimonial`, reached from the dot of review k. */
    method GoTo(k: int)
      requires 0 <= k < |Reviews|
      modifies this
      ensures Valid() && !isAutoPlaying && currentIndex == k
    {
      currentIndex := k;
      isAutoPlaying := false;
    }
  }

  /** Prev after Next shows the same review again, and the timer no longer moves it. */
  method NextThenPrev(c: Carousel)
    requires c.Valid()
    modifies c
    ensures c.Valid() && c.currentIndex == old(c.currentIndex) && !c.isAutoPlaying
  {
    c.Next();
    c.Prev();
    PrevUndoesNext(old(c.currentIndex), |Reviews|);
    c.AutoTick();
  }
}
