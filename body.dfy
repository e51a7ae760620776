/**
 * The landing page's background carousel (frontend/src/Component/Body.jsx):
 * an index into four images, advanced by a timer and wrapping to the start.
 */
module Body {

  /** `backgroundImages.length`. */
  const ImageCount: nat := 4

  /** `prev === backgroundImages.length - 1 ? 0 : prev + 1`: one step forward, modulo the image count. */
  function Next(prev: int): (i: int)
    ensures 0 <= prev < ImageCount ==> 0 <= i < ImageCount && i == (prev + 1) % ImageCount
  {
    if prev == ImageCount - 1 then 0 else prev + 1
  }

  /** The index after `n` ticks. */
  function Steps(start: int, n: nat): int
    decreases n
  {
    if n == 0 then start else Next(Steps(start, n - 1))
  }

  /** From a valid index, `n` ticks land on `(start + n) mod 4`. */
  lemma {:induction false} StepsIsModular(start: int, n: nat)
    requires 0 <= start < ImageCount
    ensures Steps(start, n) == (start + n) % ImageCount
    decreases n
  {
    if n > 0 {
      StepsIsModular(start, n - 1);
    }
  }

  /** As many ticks as there are images bring the index back to where it was. */
  lemma FullCycle(start: int)
    requires 0 <= start < ImageCount
    ensures Steps(start, ImageCount) == start
  {
    StepsIsModular(start, ImageCount);
  }

  class Carousel {
    var currentImageIndex: int

    ghost predicate Valid()
      reads this
    {
      0 <= currentImageIndex < ImageCount
    }

    constructor ()
      ensures currentImageIndex == 0 && Valid()
    {
      currentImageIndex := 0;
    }

    /** One timer tick. */
    method Tick()
      requires Valid()
      modifies this
      ensures currentImageIndex == Next(old(currentImageIndex))
      ensures currentImageIndex == (old(currentImageIndex) + 1) % ImageCount
      ensures Valid()
    {
      currentImageIndex := Next(currentImageIndex);
    }
  }
}
