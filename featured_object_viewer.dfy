/** The home page carousel: one featured object at a time, with next and
    previous buttons that wrap around at both ends. */
module FeaturedObjectViewer {
  import opened NeoTypes

  /** `(prevIndex + 1) % objects.length`. */
  function NextIndex(i: int, n: int): (r: int)
    requires 0 <= i && n > 0
    ensures 0 <= r < n
  {
    (i + 1) % n
  }

  /** `(prevIndex - 1 + objects.length) % objects.length`. */
  function PreviousIndex(i: int, n: int): (r: int)
    requires 0 <= i && n > 0
    ensures 0 <= r < n
  {
    (i - 1 + n) % n
  }

  /** Within the carousel, next steps one place forward and wraps from the
      last object to the first. */
  lemma NextWraps(i: int, n: int)
    requires 0 <= i < n
    ensures NextIndex(i, n) == if i == n - 1 then 0 else i + 1
  {
    if i == n - 1 {
      assert i + 1 == n;
    }
  }

  /** Previous steps one place back and wraps from the first object to the
      last. */
  lemma PreviousWraps(i: int, n: int)
    requires 0 <= i < n
    ensures PreviousIndex(i, n) == if i == 0 then n - 1 else i - 1
  {
  }

  /** Previous undoes next, and next undoes previous. */
  lemma NextPreviousInverse(i: int, n: int)
    requires 0 <= i < n
    ensures PreviousIndex(NextIndex(i, n), n) == i
    ensures NextIndex(PreviousIndex(i, n), n) == i
  {
    NextWraps(i, n);
    PreviousWraps(i, n);
    var j, k := NextIndex(i, n), PreviousIndex(i, n);
    PreviousWraps(j, n);
    NextWraps(k, n);
  }

  /** The index after k presses of next. */
  function Advance(i: int, n: int, k: nat): (r: int)
    requires 0 <= i && n > 0
    ensures 0 <= r < n || (k == 0 && r == i)
  {
    if k == 0 then i else NextIndex(Advance(i, n, k - 1), n)
  }

  /** Pressing next a times and then b times is pressing it a + b times. */
  lemma {:induction false} AdvanceAdds(i: int, n: int, a: nat, b: nat)
    requires 0 <= i && n > 0
    ensures Advance(Advance(i, n, a), n, b) == Advance(i, n, a + b)
  {
    if b > 0 {
      AdvanceAdds(i, n, a, b - 1);
    }
  }

  /** Before the end of the list, k presses move k places forward. */
  lemma {:induction false} AdvanceWithinTurn(i: int, n: int, k: nat)
    requires 0 <= i && i + k < n
    ensures Advance(i, n, k) == i + k
  {
    if k > 0 {
      AdvanceWithinTurn(i, n, k - 1);
      NextWraps(i + k - 1, n);
    }
  }

  /** From index i, n - i presses reach the first object. */
  lemma AdvanceToStart(i: int, n: int)
    requires 0 <= i < n
    ensures Advance(i, n, n - i) == 0
  {
    AdvanceWithinTurn(i, n, n - i - 1);
    NextWraps(n - 1, n);
  }

  /** n presses of next come back to the object where they started. */
  lemma FullTurn(i: int, n: int)
    requires 0 <= i < n
    ensures Advance(i, n, n) == i
  {
    AdvanceToStart(i, n);
    AdvanceAdds(i, n, n - i, i);
    if i > 0 {
      AdvanceWithinTurn(0, n, i);
    }
  }

  /** The horizontal offset a slide enters from: from the right when moving
      forward, from the left otherwise. */
  function EnterOffset(direction: int): int {
    if direction > 0 then 1000 else -1000
  }

  /** The horizontal offset a slide leaves to. */
  function ExitOffset(direction: int): int {
    if direction < 0 then 1000 else -1000
  }

  /** After a press the outgoing slide leaves on the side opposite to the one
      the incoming slide enters from. */
  lemma SlidesMoveTogether(direction: int)
    requires direction == 1 || direction == -1
    ensures ExitOffset(direction) == -EnterOffset(direction)
    ensures (EnterOffset(direction) > 0) == (direction == 1)
  {
  }

  /** The carousel's state over a non-empty list of objects. */
  class Carousel {
    const objects: seq<SpaceObject>
    var currentIndex: int
    var direction: int

    /** The shown index is a position of the list. */
    predicate Valid()
      reads this
    {
      0 <= currentIndex < |objects| && -1 <= direction <= 1
    }

    constructor (featured: seq<SpaceObject>)
      requires |featured| > 0
      ensures objects == featured && currentIndex == 0 && direction == 0
      ensures Valid()
    {
      objects := featured;
      currentIndex := 0;
      direction := 0;
    }

    /** `currentObject`. */
    function Current(): (o: SpaceObject)
      requires Valid()
      reads this
      ensures o in objects
    {
      objects[currentIndex]
    }

    method Next()
      requires Valid()
      modifies this
      ensures Valid()
      ensures direction == 1 && currentIndex == NextIndex(old(currentIndex), |objects|)
    {
      direction := 1;
      currentIndex := NextIndex(currentIndex, |objects|);
    }

    method Previous()
      requires Valid()
      modifies this
      ensures Valid()
      ensures direction == -1 && currentIndex == PreviousIndex(old(currentIndex), |objects|)
    {
      direction := -1;
      currentIndex := PreviousIndex(currentIndex, |objects|);
    }
  }
}
