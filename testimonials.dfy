/**
 * The testimonial carousel: five cards, one shown at a time; next and
 * previous buttons wrap around, a 5-second interval advances the card, and
 * a dot or a mini card jumps to its own position.
 */
module Testimonials {

  const Count: nat := 5

  /** `(prev + 1) % testimonials.length` */
  function Next(i: int): (r: int)
    requires 0 <= i < Count
    ensures 0 <= r < Count
    ensures r == if i == Count - 1 then 0 else i + 1
  {
    (i + 1) % Count
  }

  /** `(prev - 1 + testimonials.length) % testimonials.length` */
  function Prev(i: int): (r: int)
    requires 0 <= i < Count
    ensures 0 <= r < Count
    ensures r == if i == 0 then Count - 1 else i - 1
  {
    (i - 1 + Count) % Count
  }

  lemma NextUndoesPrev(i: int)
    requires 0 <= i < Count
    ensures Next(Prev(i)) == i
  {
  }

  lemma PrevUndoesNext(i: int)
    requires 0 <= i < Count
    ensures Prev(Next(i)) == i
  {
  }

  /** The card after `n` steps forward. */
  function Advance(i: int, n: nat): (r: int)
    requires 0 <= i < Count
    ensures 0 <= r < Count
  {
    if n == 0 then i else Next(Advance(i, n - 1))
  }

  /** `n` steps forward move `n` places round the circle of five. */
  lemma {:induction false} AdvanceWraps(i: int, n: nat)
    requires 0 <= i < Count
    ensures Advance(i, n) == (i + n) % Count
  {
    if n > 0 {
      AdvanceWraps(i, n - 1);
      ModSucc(i + n - 1);
    }
  }

  /** Stepping a remainder modulo five is the remainder of the next number. */
  lemma ModSucc(x: nat)
    ensures (x + 1) % Count == Next(x % Count)
  {
    var q, m := x / Count, x % Count;
    assert x == q * Count + m;
    if m == Count - 1 {
      assert x + 1 == (q + 1) * Count;
    } else {
      assert x + 1 == q * Count + (m + 1);
    }
  }

  /** Five steps forward come back to the same card. */
  lemma FiveNextsReturn(i: int)
    requires 0 <= i < Count
    ensures Advance(i, 5) == i
  {
    AdvanceWraps(i, 5);
  }

  /** The dots (and the mini cards): exactly the current position is highlighted. */
  function Dots(current: int): (d: seq<bool>)
    ensures |d| == Count
    ensures forall k :: 0 <= k < Count ==> (d[k] <==> k == current)
  {
    seq(Count, k => k == current)
  }

  class Carousel {
    var currentIndex: int

    predicate Valid()
      reads this
    {
      0 <= currentIndex < Count
    }

    constructor ()
      ensures currentIndex == 0 && Valid()
    {
      currentIndex := 0;
    }

    /** The right arrow. */
    method NextTestimonial()
      requires Valid()
      modifies this
      ensures Valid() && currentIndex == Next(old(currentIndex))
    {
      currentIndex := (currentIndex + 1) % Count;
    }

    /** The left arrow. */
    method PrevTestimonial()
      requires Valid()
      modifies this
      ensures Valid() && currentIndex == Prev(old(currentIndex))
    {
      currentIndex := (currentIndex - 1 + Count) % Count;
    }

    /** One firing of the 5000 ms interval. */
    method AutoAdvance()
      requires Valid()
      modifies this
      ensures Valid() && currentIndex == Next(old(currentIndex))
    {
      currentIndex := (currentIndex + 1) % Count;
    }

    /** A dot or a mini card: `setCurrentIndex(index)` with its own position. */
    method Select(index: int)
      requires 0 <= index < Count
      modifies this
      ensures Valid() && currentIndex == index
    {
      currentIndex := index;
    }
  }
}
