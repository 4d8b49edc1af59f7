/**
  The image carousel: a cyclic index over a fixed, non-empty list of image
  sources, a two-phase fade whose second phase is a deferred swap, and the
  handle of the auto-advance interval.
*/
module Slider {
  import opened Wrappers

  /** sliderConfig: the page's three images, an auto-advance every 5000 ms
      and a 1000 ms fade. */
  const ConfigImages: seq<string> := ["assets/image1.jpeg", "assets/image2.jpeg", "assets/image3.png"]
  const ConfigAutoSlideInterval := 5000
  const ConfigTransitionDuration := 1000

  /** nextImage's new index, (i + 1) % n. Both operands are non-negative, so
      the remainder of the page code and Dafny's agree. */
  function NextIndex(i: int, n: int): (r: int)
    requires 0 <= i && 0 < n
    ensures 0 <= r < n
    ensures i < n ==> r == if i == n - 1 then 0 else i + 1
  {
    (i + 1) % n
  }

  /** prevImage's new index, (i - 1 + n) % n; again on non-negative operands. */
  function PrevIndex(i: int, n: int): (r: int)
    requires 0 <= i && 0 < n
    ensures 0 <= r < n
    ensures i < n ==> r == if i == 0 then n - 1 else i - 1
  {
    (i - 1 + n) % n
  }

  /** Going back after going forward, or forward after going back, returns
      to the same image. */
  lemma NextPrevRoundTrip(i: int, n: int)
    requires 0 <= i < n
    ensures PrevIndex(NextIndex(i, n), n) == i
    ensures NextIndex(PrevIndex(i, n), n) == i
  {
  }

  /** With one image both buttons stay on it. */
  lemma SingleImage()
    ensures NextIndex(0, 1) == 0 && PrevIndex(0, 1) == 0
  {
  }

  /** The index after k ticks of the auto-advance from i. */
  function Advance(i: int, k: nat, n: int): (r: int)
    requires 0 <= i < n
    ensures 0 <= r < n
  {
    if k == 0 then i else NextIndex(Advance(i, k - 1, n), n)
  }

  /** Division by n leaves a unique remainder in [0, n). */
  lemma ModOfSum(q: int, r: int, n: int)
    requires 0 <= r < n
    ensures (q * n + r) % n == r
  {
    var a := q * n + r;
    var q0, r0 := a / n, a % n;
    assert (q - q0) * n == r0 - r by {
      assert a == q0 * n + r0;
      assert q * n - q0 * n == (q - q0) * n;
    }
    if q0 < q {
      assert (q - q0) * n >= n by { MulMonotone(q - q0, n); }
    } else if q < q0 {
      assert (q0 - q) * n >= n by { MulMonotone(q0 - q, n); }
    }
  }

  lemma MulMonotone(d: int, n: int)
    requires 1 <= d && 0 < n
    ensures d * n >= n
  {
  }

  /** k ticks move the index by k, modulo the number of images. */
  lemma {:induction false} AdvanceIsModular(i: int, k: nat, n: int)
    requires 0 <= i < n
    ensures Advance(i, k, n) == (i + k) % n
  {
    if k > 0 {
      AdvanceIsModular(i, k - 1, n);
      NextOfRemainder(i + k - 1, n);
    }
  }

  /** One step forward from x % n is (x + 1) % n. */
  lemma NextOfRemainder(x: int, n: int)
    requires 0 <= x && 0 < n
    ensures NextIndex(x % n, n) == (x + 1) % n
  {
    var q, r := x / n, x % n;
    assert x + 1 == q * n + (r + 1);
    if r + 1 < n {
      ModOfSum(q, r + 1, n);
    } else {
      assert q * n + (r + 1) == (q + 1) * n + 0;
      ModOfSum(q + 1, 0, n);
    }
  }

  /** After n ticks the carousel is back at the image it started from, and
      no earlier tick returns there. */
  lemma FullCycle(i: int, n: int)
    requires 0 <= i < n
    ensures Advance(i, n, n) == i
    ensures forall k: nat :: 0 < k < n ==> Advance(i, k, n) != i
  {
    AdvanceIsModular(i, n, n);
    ModOfSum(1, i, n);
    forall k: nat | 0 < k < n ensures Advance(i, k, n) != i {
      AdvanceIsModular(i, k, n);
      if i + k < n {
        ModOfSum(0, i + k, n);
      } else {
        ModOfSum(1, i + k - n, n);
      }
    }
  }

  class ImageSlider {
    const images: seq<string>
    const autoSlideInterval: int
    const transitionDuration: int
    var currentIndex: int
    /** The slider image element's source and style.opacity. */
    var src: string
    var opacity: int
    /** Fade timeouts scheduled by updateImage that have not fired yet. */
    var pendingSwaps: nat
    /** The handle stored by startAutoSlide (null until the first start). */
    var autoSlideTimer: Option<nat>
    /** Intervals registered with the page and not cleared. */
    var activeIntervals: set<nat>

    ghost predicate Valid()
      reads this
    {
      |images| > 0 && 0 <= currentIndex < |images|
    }

    constructor (images: seq<string>, autoSlideInterval: int, transitionDuration: int, src: string, opacity: int)
      requires |images| > 0
      ensures Valid()
      ensures this.images == images && this.autoSlideInterval == autoSlideInterval
      ensures this.transitionDuration == transitionDuration
      ensures currentIndex == 0 && this.src == src && this.opacity == opacity
      ensures pendingSwaps == 0 && autoSlideTimer == None && activeIntervals == {}
    {
      this.images := images;
      this.autoSlideInterval := autoSlideInterval;
      this.transitionDuration := transitionDuration;
      currentIndex := 0;
      this.src := src;
      this.opacity := opacity;
      pendingSwaps := 0;
      autoSlideTimer := None;
      activeIntervals := {};
    }

    /** init: starts the auto-advance with the handle the page returns. */
    method Init(handle: nat)
      requires handle !in activeIntervals
      modifies this`autoSlideTimer, this`activeIntervals
      ensures autoSlideTimer == Some(handle) && activeIntervals == old(activeIntervals) + {handle}
    {
      StartAutoSlide(handle);
    }

    method NextImage()
      requires Valid()
      modifies this`currentIndex, this`opacity, this`pendingSwaps
      ensures Valid()
      ensures currentIndex == NextIndex(old(currentIndex), |images|)
      ensures opacity == 0 && pendingSwaps == old(pendingSwaps) + 1
    {
      currentIndex := (currentIndex + 1) % |images|;
      UpdateImage();
    }

    method PrevImage()
      requires Valid()
      modifies this`currentIndex, this`opacity, this`pendingSwaps
      ensures Valid()
      ensures currentIndex == PrevIndex(old(currentIndex), |images|)
      ensures opacity == 0 && pendingSwaps == old(pendingSwaps) + 1
    {
      currentIndex := (currentIndex - 1 + |images|) % |images|;
      UpdateImage();
    }

    /** First phase of the fade: the image goes transparent and one swap is
        scheduled for half the transition duration later. */
    method UpdateImage()
      modifies this`opacity, this`pendingSwaps
      ensures opacity == 0 && pendingSwaps == old(pendingSwaps) + 1
    {
      opacity := 0;
      pendingSwaps := pendingSwaps + 1;
    }

    /** A scheduled swap fires: the source becomes the image at the index
        current NOW, which later clicks may have moved since the swap was
        scheduled, and the image is opaque again. */
    method FireSwap()
      requires Valid() && pendingSwaps > 0
      modifies this`src, this`opacity, this`pendingSwaps
      ensures src == images[currentIndex] && opacity == 1
      ensures pendingSwaps == old(pendingSwaps) - 1
    {
      src := images[currentIndex];
      opacity := 1;
      pendingSwaps := pendingSwaps - 1;
    }

    /** Registers a new interval and stores its handle, overwriting the
        previous handle without clearing that interval. */
    method StartAutoSlide(handle: nat)
      requires handle !in activeIntervals
      modifies this`autoSlideTimer, this`activeIntervals
      ensures autoSlideTimer == Some(handle) && activeIntervals == old(activeIntervals) + {handle}
    {
      autoSlideTimer := Some(handle);
      activeIntervals := activeIntervals + {handle};
    }

    /** Clears the interval of the stored handle (clearing null does nothing);
        the handle itself is kept. */
    method StopAutoSlide()
      modifies this`activeIntervals
      ensures activeIntervals == match autoSlideTimer
                                 case Some(h) => old(activeIntervals) - {h}
                                 case None => old(activeIntervals)
    {
      match autoSlideTimer
      case Some(h) => activeIntervals := activeIntervals - {h};
      case None =>
    }

    /** An active interval fires: one step forward. */
    method AutoSlideTick(handle: nat)
      requires Valid() && handle in activeIntervals
      modifies this`currentIndex, this`opacity, this`pendingSwaps
      ensures Valid()
      ensures currentIndex == NextIndex(old(currentIndex), |images|)
      ensures opacity == 0 && pendingSwaps == old(pendingSwaps) + 1
    {
      NextImage();
    }
  }
}
