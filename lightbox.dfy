/**
 * The image viewer (src/components/Lightbox.jsx): previous/next guarded
 * by the bounds of the image list, keyboard and swipe navigation, the
 * thumbnails and the loading spinner.
 *
 * `currentIndex` is a prop that the parent sets to whatever `onNavigate`
 * receives, so the model keeps it as the viewer's own field. Touch
 * coordinates are whole pixels.
 */
module Lightbox {
  import opened Common

  const MinSwipeDistance := 50

  /** What a key press or a swipe asks for. */
  datatype Action = Close | Previous | Next | NoAction

  /** `handlePrevious`'s guard: the index it navigates to, if any. */
  function PreviousIndex(i: int): (r: Option<int>)
    ensures r.Some? <==> i > 0
    ensures r.Some? ==> r.value == i - 1
  {
    if i > 0 then Some(i - 1) else None
  }

  /** `handleNext`'s guard, for `count` images. */
  function NextIndex(i: int, count: nat): (r: Option<int>)
    ensures r.Some? <==> i < count - 1
    ensures r.Some? ==> r.value == i + 1
  {
    if i < count - 1 then Some(i + 1) else None
  }

  /** The keydown switch: Escape, ArrowLeft and ArrowRight; every other key does nothing. */
  function KeyAction(key: string): (a: Action)
    ensures a == Close <==> key == "Escape"
    ensures a == Previous <==> key == "ArrowLeft"
    ensures a == Next <==> key == "ArrowRight"
  {
    if key == "Escape" then Close
    else if key == "ArrowLeft" then Previous
    else if key == "ArrowRight" then Next
    else NoAction
  }

  /** A coordinate is usable when present and not 0 (`!touchStart` is true for null and for 0). */
  predicate Truthy(c: Option<int>) {
    c.Some? && c.value != 0
  }

  /**
   * `onTouchEnd`: with both coordinates usable, a distance `start - end`
   * beyond 50 is a left swipe (next), below -50 a right swipe (previous).
   */
  function SwipeAction(start: Option<int>, end: Option<int>): (a: Action)
    ensures a != Close
    ensures !Truthy(start) || !Truthy(end) ==> a == NoAction
    ensures a == Next <==> Truthy(start) && Truthy(end) && start.value - end.value > MinSwipeDistance
    ensures a == Previous <==> Truthy(start) && Truthy(end) && start.value - end.value < -MinSwipeDistance
  {
    if !Truthy(start) || !Truthy(end) then NoAction
    else
      var distance := start.value - end.value;
      if distance > MinSwipeDistance then Next
      else if distance < -MinSwipeDistance then Previous
      else NoAction
  }

  /** A navigation request: previous, next, or a thumbnail. */
  datatype Nav = Prev | Forward | Thumb(k: nat)

  /** The index after one request (unchanged when the guard refuses). */
  function Navigate(i: int, count: nat, nav: Nav): int {
    match nav
    case Prev => PreviousIndex(i).GetOr(i)
    case Forward => NextIndex(i, count).GetOr(i)
    case Thumb(k) => k
  }

  function NavigateAll(i: int, count: nat, navs: seq<Nav>): int
    decreases |navs|
  {
    if navs == [] then i else Navigate(NavigateAll(i, count, navs[..|navs| - 1]), count, navs[|navs| - 1])
  }

  /** The thumbnails offered: one per image, so their indices are in range. */
  predicate ThumbsInRange(count: nat, navs: seq<Nav>) {
    forall j :: 0 <= j < |navs| && navs[j].Thumb? ==> navs[j].k < count
  }

  /** From an index in range, any sequence of previous/next/thumbnail requests stays in range. */
  lemma {:induction false} NavigationStaysInRange(i: int, count: nat, navs: seq<Nav>)
    requires 0 <= i < count && ThumbsInRange(count, navs)
    ensures 0 <= NavigateAll(i, count, navs) < count
    decreases |navs|
  {
    if navs != [] {
      NavigationStaysInRange(i, count, navs[..|navs| - 1]);
      assert navs[|navs| - 1] == navs[..][|navs| - 1];
    }
  }

  /** Previous then next from an index that has a previous one returns to it. */
  lemma PreviousThenNext(i: int, count: nat)
    requires 0 < i < count
    ensures NavigateAll(i, count, [Prev, Forward]) == i
  {
    assert [Prev, Forward][..1] == [Prev];
    assert [Prev][..0] == [];
  }

  /** The counter "i+1 / N". */
  function Counter(i: nat, count: nat): string {
    NatToString(i + 1) + " / " + NatToString(count)
  }

  /**
   * The counter reads back: the digits before " / " are the one-based index
   * and the digits after it are the number of images.
   */
  lemma CounterReadsBack(i: nat, count: nat)
    ensures var r := Counter(i, count); var k := |NatToString(i + 1)|;
      && k + 3 <= |r| && r[k..k + 3] == " / "
      && AllDigits(r[..k]) && AllDigits(r[k + 3..])
      && ParseNat(r[..k]) == i + 1 && ParseNat(r[k + 3..]) == count
  {
    var r, k := Counter(i, count), |NatToString(i + 1)|;
    assert r[..k] == NatToString(i + 1);
    assert r[k + 3..] == NatToString(count);
    ParseNatOfNatToString(i + 1);
    ParseNatOfNatToString(count);
  }

  /** The previous and next buttons appear exactly when their handlers would navigate. */
  lemma ButtonsMatchGuards(i: int, count: nat)
    ensures (i > 0) <==> PreviousIndex(i).Some?
    ensures (i < count - 1) <==> NextIndex(i, count).Some?
  {
  }

  /** The viewer with its parent's index. */
  class Viewer {
    const count: nat
    var index: int
    var touchStart: Option<int>
    var touchEnd: Option<int>
    var isLoading: bool
    var closeRequests: nat

    ghost predicate Valid()
      reads this
    {
      0 <= index < count
    }

    constructor (count: nat, start: int)
      requires 0 <= start < count
      ensures Valid() && this.count == count && index == start
      ensures touchStart == None && touchEnd == None && isLoading && closeRequests == 0
    {
      this.count := count;
      index := start;
      touchStart, touchEnd, isLoading, closeRequests := None, None, true, 0;
    }

    method HandlePrevious()
      requires Valid()
      modifies this
      ensures Valid() && index == PreviousIndex(old(index)).GetOr(old(index))
      ensures isLoading == (old(isLoading) || old(index) > 0)
      ensures touchStart == old(touchStart) && touchEnd == old(touchEnd) && closeRequests == old(closeRequests)
    {
      if index > 0 {
        index := index - 1;
        isLoading := true;
      }
    }

    method HandleNext()
      requires Valid()
      modifies this
      ensures Valid() && index == NextIndex(old(index), count).GetOr(old(index))
      ensures isLoading == (old(isLoading) || old(index) < count - 1)
      ensures touchStart == old(touchStart) && touchEnd == old(touchEnd) && closeRequests == old(closeRequests)
    {
      if index < count - 1 {
        index := index + 1;
        isLoading := true;
      }
    }

    /** The document keydown listener. */
    method KeyDown(key: string)
      requires Valid()
      modifies this
      ensures Valid()
      ensures KeyAction(key) == Close ==>
        closeRequests == old(closeRequests) + 1 && index == old(index) && isLoading == old(isLoading)
      ensures KeyAction(key) != Close ==> closeRequests == old(closeRequests)
      ensures KeyAction(key) == Previous ==>
        index == Navigate(old(index), count, Prev) && isLoading == (old(isLoading) || old(index) > 0)
      ensures KeyAction(key) == Next ==>
        index == Navigate(old(index), count, Forward) && isLoading == (old(isLoading) || old(index) < count - 1)
      ensures KeyAction(key) == NoAction ==> index == old(index) && isLoading == old(isLoading)
      ensures touchStart == old(touchStart) && touchEnd == old(touchEnd)
    {
      match KeyAction(key)
      case Close => closeRequests := closeRequests + 1;
      case Previous => HandlePrevious();
      case Next => HandleNext();
      case NoAction =>
    }

    /** A touch starts: the previous end coordinate is forgotten. */
    method TouchStart(x: int)
      modifies this`touchStart, this`touchEnd
      ensures touchStart == Some(x) && touchEnd == None
    {
      touchEnd := None;
      touchStart := Some(x);
    }

    method TouchMove(x: int)
      modifies this`touchEnd
      ensures touchEnd == Some(x)
    {
      touchEnd := Some(x);
    }

    method TouchEnd()
      requires Valid()
      modifies this
      ensures Valid()
      ensures SwipeAction(old(touchStart), old(touchEnd)) == Next ==>
        index == Navigate(old(index), count, Forward) && isLoading == (old(isLoading) || old(index) < count - 1)
      ensures SwipeAction(old(touchStart), old(touchEnd)) == Previous ==>
        index == Navigate(old(index), count, Prev) && isLoading == (old(isLoading) || old(index) > 0)
      ensures SwipeAction(old(touchStart), old(touchEnd)) == NoAction ==> index == old(index) && isLoading == old(isLoading)
      ensures touchStart == old(touchStart) && touchEnd == old(touchEnd) && closeRequests == old(closeRequests)
    {
      match SwipeAction(touchStart, touchEnd)
      case Next => HandleNext();
      case Previous => HandlePrevious();
      case _ =>
    }

    /** A thumbnail click: navigates to its index and shows the spinner. */
    method ThumbnailClick(k: nat)
      requires Valid() && k < count
      modifies this`index, this`isLoading
      ensures Valid() && index == k && isLoading
    {
      index := k;
      isLoading := true;
    }

    method HandleImageLoad()
      modifies this`isLoading
      ensures !isLoading
    {
      isLoading := false;
    }

    /** The counter shown at the top. */
    function CounterText(): (r: string)
      requires Valid()
      reads this
      ensures r == NatToString(index + 1) + " / " + NatToString(count)
      ensures IsPrefix(NatToString(index + 1), r)
    {
      Counter(index, count)
    }
  }
}
