/**
 * The home page's image carousel (src/components/ImageCarousel.tsx): a slide
 * index moved by next, previous and go-to-slide, each refused while the
 * previous move's 800 ms transition runs. The end of that timer and the
 * five-second auto-advance are events the caller delivers.
 */
module Carousel {
  import opened Wrappers

  /** The slides shown when no `images` are passed. */
  const DefaultSlides: seq<string> := ["/images/Slide-1.png", "/images/Slide-2.png", "/images/Slide-3.png"]

  /** `(prevIndex + 1) % carouselImages.length` */
  function NextIndex(i: nat, n: nat): (r: nat)
    requires i < n
    ensures r < n
    ensures r == if i + 1 < n then i + 1 else 0
  {
    (i + 1) % n
  }

  /** `prevIndex === 0 ? carouselImages.length - 1 : prevIndex - 1` */
  function PreviousIndex(i: nat, n: nat): (r: nat)
    requires i < n
    ensures r < n
    ensures r == if i == 0 then n - 1 else i - 1
  {
    if i == 0 then n - 1 else i - 1
  }

  /** Previous undoes next. */
  lemma PreviousAfterNext(i: nat, n: nat)
    requires i < n
    ensures PreviousIndex(NextIndex(i, n), n) == i
  {
  }

  /** Next undoes previous. */
  lemma NextAfterPrevious(i: nat, n: nat)
    requires i < n
    ensures NextIndex(PreviousIndex(i, n), n) == i
  {
  }

  /** The index after `m` moves to the next slide. */
  function Advanced(i: nat, n: nat, m: nat): (r: nat)
    requires i < n
    ensures r < n
  {
    if m == 0 then i else NextIndex(Advanced(i, n, m - 1), n)
  }

  /** Up to a full turn, `m` moves add `m` to the index, wrapping once past the last slide. */
  lemma {:induction false} AdvancedWraps(i: nat, n: nat, m: nat)
    requires i < n && m <= n
    ensures Advanced(i, n, m) == if i + m < n then i + m else i + m - n
  {
    if m > 0 {
      AdvancedWraps(i, n, m - 1);
    }
  }

  /** As many moves as there are slides come back to the starting slide. */
  lemma FullTurn(i: nat, n: nat)
    requires i < n
    ensures Advanced(i, n, n) == i
  {
    AdvancedWraps(i, n, n);
  }

  class ImageCarousel {
    const slides: seq<string>
    var currentIndex: nat
    var isTransitioning: bool

    /** The index names one of the slides. */
    predicate Valid()
      reads this`currentIndex
    {
      |slides| > 0 && currentIndex < |slides|
    }

    /** `images || defaultImages`; the carousel starts on the first slide, not transitioning. */
    constructor (images: Option<seq<string>>)
      requires images.Some? ==> |images.value| > 0
      ensures slides == if images.Some? then images.value else DefaultSlides
      ensures currentIndex == 0 && !isTransitioning && Valid()
    {
      slides := if images.Some? then images.value else DefaultSlides;
      currentIndex := 0;
      isTransitioning := false;
    }

    /** `goToNext`, also what the five-second interval calls. */
    method GoToNext()
      requires Valid()
      modifies this`currentIndex, this`isTransitioning
      ensures Valid() && isTransitioning
      ensures old(isTransitioning) ==> currentIndex == old(currentIndex)
      ensures !old(isTransitioning) ==> currentIndex == NextIndex(old(currentIndex), |slides|)
    {
      if isTransitioning {
        return;
      }
      isTransitioning := true;
      currentIndex := NextIndex(currentIndex, |slides|);
    }

    /** `goToPrevious` */
    method GoToPrevious()
      requires Valid()
      modifies this`currentIndex, this`isTransitioning
      ensures Valid() && isTransitioning
      ensures old(isTransitioning) ==> currentIndex == old(currentIndex)
      ensures !old(isTransitioning) ==> currentIndex == PreviousIndex(old(currentIndex), |slides|)
    {
      if isTransitioning {
        return;
      }
      isTransitioning := true;
      currentIndex := PreviousIndex(currentIndex, |slides|);
    }

    /** `goToSlide(index)` from one of the dots: nothing happens for the current slide. */
    method GoToSlide(index: nat)
      requires Valid() && index < |slides|
      modifies this`currentIndex, this`isTransitioning
      ensures Valid()
      ensures old(isTransitioning) || index == old(currentIndex) ==>
                currentIndex == old(currentIndex) && isTransitioning == old(isTransitioning)
      ensures !old(isTransitioning) && index != old(currentIndex) ==> currentIndex == index && isTransitioning
    {
      if isTransitioning || index == currentIndex {
        return;
      }
      isTransitioning := true;
      currentIndex := index;
    }

    /** The 800 ms timer of an accepted move fires. */
    method TransitionEnded()
      modifies this`isTransitioning
      ensures !isTransitioning
    {
      isTransitioning := false;
    }
  }
}
