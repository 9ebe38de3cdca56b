/**
 * The cross-fading slide carousel: a current index and a transition lock.
 * A move to another slide is refused while a fade is under way; the lock is
 * released by the end of the fade, which the component schedules 500 ms
 * later and which is an explicit event here.
 */
module FadeGallery {

  /** The target of `goToNext`: the following slide, wrapping from the last to the first. */
  function NextIndex(current: nat, n: nat): (r: nat)
    requires current < n
    ensures r < n
  {
    if current == n - 1 then 0 else current + 1
  }

  /** The target of `goToPrevious`: the preceding slide, wrapping from the first to the last. */
  function PreviousIndex(current: nat, n: nat): (r: nat)
    requires current < n
    ensures r < n
  {
    if current == 0 then n - 1 else current - 1
  }

  /** Next is addition modulo the number of slides, previous is subtraction. */
  lemma IndicesAreModular(current: nat, n: nat)
    requires current < n
    ensures NextIndex(current, n) == (current + 1) % n
    ensures PreviousIndex(current, n) == (current - 1 + n) % n
  {
    if current == n - 1 {
      assert (current + 1) % n == n % n == 0;
    } else {
      ModSmall(current + 1, n);
    }
    if current == 0 {
      ModSmall(n - 1, n);
    } else {
      ModWrap(current - 1 + n, n);
    }
  }

  lemma ModSmall(x: int, n: int)
    requires 0 <= x < n
    ensures x % n == x
  {
  }

  /** One full count past a valid index wraps back to it. */
  lemma ModWrap(y: int, n: int)
    requires 0 < n <= y < 2 * n
    ensures y % n == y - n
  {
    ModSmall(y - n, n);
    assert y == (y - n) + n;
  }

  /** Previous undoes next and next undoes previous. */
  lemma NextPreviousInverse(current: nat, n: nat)
    requires current < n
    ensures PreviousIndex(NextIndex(current, n), n) == current
    ensures NextIndex(PreviousIndex(current, n), n) == current
  {
  }

  /** With a single slide both arrows target the slide already shown. */
  lemma SingleSlideFixed(current: nat)
    requires current < 1
    ensures NextIndex(current, 1) == current && PreviousIndex(current, 1) == current
  {
  }

  /** What the component renders for `n` items. */
  datatype Rendering =
    | Placeholder
    | Slides(shown: nat, arrows: bool, dots: bool)

  /**
   * Only an empty list shows the placeholder; otherwise the current slide is
   * shown, and the arrows and dots appear only with at least two slides.
   */
  function Render(n: nat, current: nat, showArrows: bool, showDots: bool): (r: Rendering)
    ensures r.Placeholder? <==> n == 0
    ensures r.Slides? ==> r.shown == current
    ensures r.Slides? && (r.arrows || r.dots) ==> n > 1
  {
    if n == 0 then Placeholder
    else Slides(current, showArrows && n > 1, showDots && n > 1)
  }

  class Carousel {
    const count: nat
    var currentIndex: nat
    var isTransitioning: bool

    ghost predicate Valid()
      reads this
    {
      currentIndex < count
    }

    /** The first slide shows and nothing is fading. */
    constructor(n: nat)
      requires n >= 1
      ensures Valid() && count == n && currentIndex == 0 && !isTransitioning
    {
      count := n;
      currentIndex := 0;
      isTransitioning := false;
    }

    /** `goToSlide`: ignored for the current slide or during a fade; otherwise moves and locks. */
    method GoToSlide(index: nat)
      requires Valid() && index < count
      modifies this
      ensures Valid()
      ensures old(isTransitioning) || index == old(currentIndex) ==>
        currentIndex == old(currentIndex) && isTransitioning == old(isTransitioning)
      ensures !old(isTransitioning) && index != old(currentIndex) ==>
        currentIndex == index && isTransitioning
    {
      if index == currentIndex || isTransitioning {
        return;
      }
      isTransitioning := true;
      currentIndex := index;
    }

    method GoToNext()
      requires Valid()
      modifies this
      ensures Valid()
      ensures !old(isTransitioning) && count > 1 ==>
        currentIndex == NextIndex(old(currentIndex), count) && isTransitioning
      ensures old(isTransitioning) || count == 1 ==>
        currentIndex == old(currentIndex) && isTransitioning == old(isTransitioning)
    {
      GoToSlide(NextIndex(currentIndex, count));
    }

    method GoToPrevious()
      requires Valid()
      modifies this
      ensures Valid()
      ensures !old(isTransitioning) && count > 1 ==>
        currentIndex == PreviousIndex(old(currentIndex), count) && isTransitioning
      ensures old(isTransitioning) || count == 1 ==>
        currentIndex == old(currentIndex) && isTransitioning == old(isTransitioning)
    {
      GoToSlide(PreviousIndex(currentIndex, count));
    }

    /** The end of the fade, 500 ms after a move: the lock is released. */
    method TransitionEnd()
      requires Valid()
      modifies this
      ensures Valid()
      ensures !isTransitioning && currentIndex == old(currentIndex)
    {
      isTransitioning := false;
    }

    /** Slide `index` is the opaque one. */
    function IsShown(index: nat): bool
      reads this
    {
      index == currentIndex
    }

    /** Next, the end of the fade, then previous: back at the starting slide, fading. */
    method NextAndBack()
      requires Valid() && !isTransitioning
      modifies this
      ensures Valid()
      ensures currentIndex == old(currentIndex)
    {
      GoToNext();
      TransitionEnd();
      GoToPrevious();
      NextPreviousInverse(old(currentIndex), count);
    }
  }
}
