/** The image gallery of a tour page: one image at a time, arrows that step
    through the images with wrap-around, and one dot per image. */
module TourGallery {

  /** Image shown when the current one is missing or empty. */
  const Placeholder: string := "/placeholder.svg"

  /** The index after the "next" arrow: from the last image back to the first. */
  function NextIndex(current: int, count: nat): (r: int)
    ensures 0 <= current < count ==> 0 <= r < count
  {
    if current == count - 1 then 0 else current + 1
  }

  /** The index after the "previous" arrow: from the first image to the last. */
  function PreviousIndex(current: int, count: nat): (r: int)
    ensures 0 <= current < count ==> 0 <= r < count
  {
    if current == 0 then count - 1 else current - 1
  }

  /** The index after pressing "next" `steps` times. */
  function Advance(current: int, count: nat, steps: nat): int
  {
    if steps == 0 then current else NextIndex(Advance(current, count, steps - 1), count)
  }

  /** `images[currentImageIndex] || "/placeholder.svg"`: an index outside the
      list reads `undefined`, which is falsy like the empty string. */
  function ShownImage(images: seq<string>, current: int): (r: string)
    ensures r == Placeholder || (0 <= current < |images| && r == images[current])
    ensures 0 <= current < |images| && images[current] != "" ==> r == images[current]
  {
    if 0 <= current < |images| && images[current] != "" then images[current] else Placeholder
  }

  /** "Previous" undoes "next". */
  lemma PreviousAfterNext(current: int, count: nat)
    requires 0 <= current < count
    ensures PreviousIndex(NextIndex(current, count), count) == current
  {
  }

  /** "Next" undoes "previous". */
  lemma NextAfterPrevious(current: int, count: nat)
    requires 0 <= current < count
    ensures NextIndex(PreviousIndex(current, count), count) == current
  {
  }

  /** Pressing "next" never leaves the images. */
  lemma {:induction false} AdvanceInRange(current: int, count: nat, steps: nat)
    requires 0 <= current < count
    ensures 0 <= Advance(current, count, steps) < count
  {
    if steps > 0 {
      AdvanceInRange(current, count, steps - 1);
    }
  }

  /** Pressing "next" k times, without reaching past the last image, moves k
      images forward. */
  lemma {:induction false} AdvanceForward(current: int, count: nat, steps: nat)
    requires 0 <= current && current + steps < count
    ensures Advance(current, count, steps) == current + steps
  {
    if steps > 0 {
      AdvanceForward(current, count, steps - 1);
    }
  }

  /** Pressing "next" past the last image starts again from the first. */
  lemma {:induction false} AdvanceWraps(current: int, count: nat, steps: nat)
    requires 0 <= current < count <= current + steps < 2 * count
    ensures Advance(current, count, steps) == current + steps - count
  {
    if current + steps - 1 < count {
      AdvanceForward(current, count, steps - 1);
    } else {
      AdvanceWraps(current, count, steps - 1);
    }
  }

  /** Presses add up. */
  lemma {:induction false} AdvanceCompose(current: int, count: nat, first: nat, second: nat)
    ensures Advance(current, count, first + second) == Advance(Advance(current, count, first), count, second)
  {
    if second > 0 {
      AdvanceCompose(current, count, first, second - 1);
    }
  }

  /** One press per image brings the gallery back to where it started, so
      the arrows cycle through every image with period `count`. */
  lemma AdvancePeriodic(current: int, count: nat, steps: nat)
    requires 0 <= current < count
    ensures Advance(current, count, count) == current
    ensures Advance(current, count, count + steps) == Advance(current, count, steps)
  {
    AdvanceWraps(current, count, count);
    AdvanceCompose(current, count, count, steps);
  }

  class Gallery {
    const images: seq<string>
    var currentImageIndex: int

    /** The index names an image whenever there is one. */
    predicate Valid()
      reads this
    {
      |images| > 0 ==> 0 <= currentImageIndex < |images|
    }

    constructor(images: seq<string>)
      ensures this.images == images && currentImageIndex == 0
      ensures Valid()
    {
      this.images := images;
      currentImageIndex := 0;
    }

    /** The image on screen. */
    function Shown(): (r: string)
      reads this
      ensures Valid() && |images| > 0 && images[currentImageIndex] != "" ==> r == images[currentImageIndex]
    {
      ShownImage(images, currentImageIndex)
    }

    /** `handleNext`. */
    method HandleNext()
      modifies this
      requires Valid()
      ensures currentImageIndex == NextIndex(old(currentImageIndex), |images|)
      ensures Valid()
    {
      currentImageIndex := if currentImageIndex == |images| - 1 then 0 else currentImageIndex + 1;
    }

    /** `handlePrevious`. */
    method HandlePrevious()
      modifies this
      requires Valid()
      ensures currentImageIndex == PreviousIndex(old(currentImageIndex), |images|)
      ensures Valid()
    {
      currentImageIndex := if currentImageIndex == 0 then |images| - 1 else currentImageIndex - 1;
    }

    /** Clicking the dot of image `index`; dots exist for the images only. */
    method SelectDot(index: nat)
      modifies this
      requires index < |images|
      ensures currentImageIndex == index
      ensures Valid()
    {
      currentImageIndex := index;
    }
  }
}
