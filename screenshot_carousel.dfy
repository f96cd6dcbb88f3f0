/** A screenshot carousel: the index of the shown slide, moved by the arrows and the dots. */
module ScreenshotCarousel {
  import opened Strings

  /** The slide before `i`, wrapping from the first to the last. */
  function PrevIndex(i: int, n: nat): (r: int)
    requires 0 <= i < n
    ensures 0 <= r < n && r == (i + n - 1) % n
  {
    if i == 0 then ModBelow(n - 1, n); n - 1 else ModAbove(i + n - 1, n); i - 1
  }

  /** The slide after `i`, wrapping from the last to the first. */
  function NextIndex(i: int, n: nat): (r: int)
    requires 0 <= i < n
    ensures 0 <= r < n && r == (i + 1) % n
  {
    if i == n - 1 then ModAbove(n, n); 0 else ModBelow(i + 1, n); i + 1
  }

  lemma PrevUndoesNext(i: int, n: nat)
    requires 0 <= i < n
    ensures PrevIndex(NextIndex(i, n), n) == i && NextIndex(PrevIndex(i, n), n) == i
  {
  }

  /** `k` presses of the next arrow. */
  function NextTimes(i: int, n: nat, k: nat): (r: int)
    requires 0 <= i < n
    ensures 0 <= r < n
  {
    if k == 0 then i else NextIndex(NextTimes(i, n, k - 1), n)
  }

  /** Up to a full round, `k` presses move `k` slides forward, wrapping once past the last. */
  lemma {:induction false} NextTimesWraps(i: int, n: nat, k: nat)
    requires 0 <= i < n && k <= n
    ensures NextTimes(i, n, k) == if i + k < n then i + k else i + k - n
  {
    if k > 0 {
      NextTimesWraps(i, n, k - 1);
    }
  }

  /** Pressing next once per slide comes back to the start. */
  lemma NextRoundTrip(i: int, n: nat)
    requires 0 <= i < n
    ensures NextTimes(i, n, n) == i
  {
    NextTimesWraps(i, n, n);
  }

  lemma ModBelow(x: int, n: int)
    requires 0 <= x < n
    ensures x % n == x
  {
  }

  lemma ModAbove(x: int, n: int)
    requires n <= x < 2 * n
    ensures x % n == x - n
  {
  }

  /** What the component renders: a message when there is nothing to show, else the slide, arrows and dots. */
  datatype View = NoScreenshots | Slides(shown: String, arrows: bool, dots: nat)

  class Carousel {
    const screenshots: seq<String>
    var currentIndex: int

    ghost predicate Valid()
      reads this
    {
      0 <= currentIndex < |screenshots|
    }

    constructor(screenshots: seq<String>)
      ensures this.screenshots == screenshots && currentIndex == 0
      ensures |screenshots| > 0 ==> Valid()
    {
      this.screenshots := screenshots;
      currentIndex := 0;
    }

    /** The arrows are rendered only for more than one slide, one dot per slide. */
    function Render(): (v: View)
      reads this
      requires screenshots != [] ==> Valid()
      ensures v.NoScreenshots? <==> screenshots == []
      ensures v.Slides? ==> v.shown == screenshots[currentIndex] && (v.arrows <==> |screenshots| > 1) && v.dots == |screenshots|
    {
      if screenshots == [] then NoScreenshots
      else Slides(screenshots[currentIndex], |screenshots| > 1, |screenshots|)
    }

    /** `goToPrevious`. */
    method GoToPrevious()
      requires Valid()
      modifies this
      ensures Valid()
      ensures currentIndex == (old(currentIndex) + |screenshots| - 1) % |screenshots|
    {
      var n := |screenshots|;
      var isFirstSlide := currentIndex == 0;
      if isFirstSlide { ModBelow(n - 1, n); } else { ModAbove(currentIndex + n - 1, n); }
      currentIndex := if isFirstSlide then n - 1 else currentIndex - 1;
    }

    /** `goToNext`. */
    method GoToNext()
      requires Valid()
      modifies this
      ensures Valid()
      ensures currentIndex == (old(currentIndex) + 1) % |screenshots|
    {
      var n := |screenshots|;
      var isLastSlide := currentIndex == n - 1;
      if isLastSlide { ModAbove(n, n); } else { ModBelow(currentIndex + 1, n); }
      currentIndex := if isLastSlide then 0 else currentIndex + 1;
    }

    /** `goToSlide`, called from the dots, which exist only for the indices of the slides. */
    method GoToSlide(slideIndex: int)
      requires 0 <= slideIndex < |screenshots|
      modifies this
      ensures Valid() && currentIndex == slideIndex
    {
      currentIndex := slideIndex;
    }
  }
}
