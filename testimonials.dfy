/**
 * The testimonials section: a fixed list of four client quotes, a star row
 * per quote, and on small screens a carousel whose `activeIndex` state is
 * stepped by "previous"/"next" buttons and set directly by one dot per quote.
 */
module Testimonials {
  import Carousel

  datatype Testimonial = Testimonial(id: nat, name: string, role: string, rating: nat)

  /** The hard-coded quotes, in display order (photos and quote texts left out). */
  const Catalogue: seq<Testimonial> := [
    Testimonial(1, "Alexandra Chen", "Regular Client", 5),
    Testimonial(2, "Michael Torres", "New Client", 5),
    Testimonial(3, "Sophia Williams", "Monthly Subscriber", 5),
    Testimonial(4, "James Rodriguez", "Regular Client", 4)
  ]

  /** Every star row has this many stars. */
  const StarCount: nat := 5

  /** The number of `true` entries of a row of flags (filled stars, lit dots). */
  function CountTrue(row: seq<bool>): (c: nat)
    ensures c <= |row|
  {
    if row == [] then 0 else CountTrue(row[..|row| - 1]) + (if row[|row| - 1] then 1 else 0)
  }

  /** The star row of one quote: star `i` is drawn filled when `i < rating`. */
  function Stars(rating: int): (row: seq<bool>)
    ensures |row| == StarCount
  {
    seq(StarCount, i => i < rating)
  }

  /** The dot row under the carousel: dot `k` is highlighted when `k == active`. */
  function Dots(active: int, n: nat): (row: seq<bool>)
    ensures |row| == n
  {
    seq(n, k => k == active)
  }

  /** A row whose first `m` flags are set and the rest clear has `m` set flags. */
  lemma {:induction false} CountThreshold(row: seq<bool>, m: int)
    requires forall i :: 0 <= i < |row| ==> row[i] == (i < m)
    ensures CountTrue(row) == if m < 0 then 0 else if m > |row| then |row| else m
  {
    if row != [] {
      CountThreshold(row[..|row| - 1], m);
    }
  }

  /** A row with only position `a` set has one set flag if `a` is in range, none otherwise. */
  lemma {:induction false} CountSingle(row: seq<bool>, a: int)
    requires forall k :: 0 <= k < |row| ==> row[k] == (k == a)
    ensures CountTrue(row) == if 0 <= a < |row| then 1 else 0
  {
    if row != [] {
      CountSingle(row[..|row| - 1], a);
    }
  }

  /** A quote rated `r` shows `r` filled stars (clamped to the row), and they come first. */
  lemma FilledStars(rating: int)
    ensures CountTrue(Stars(rating)) == if rating < 0 then 0 else if rating > StarCount then StarCount else rating
    ensures forall i, j :: 0 <= i < j < StarCount && Stars(rating)[j] ==> Stars(rating)[i]
  {
    CountThreshold(Stars(rating), rating);
  }

  /** Exactly one dot is highlighted when the active index is in range. */
  lemma OneDotLit(active: nat, n: nat)
    requires active < n
    ensures CountTrue(Dots(active, n)) == 1
    ensures Dots(active, n)[active]
  {
    CountSingle(Dots(active, n), active);
  }

  /** The mobile carousel's state. */
  class TestimonialCarousel {
    var activeIndex: nat

    ghost predicate Valid()
      reads this
    {
      activeIndex < |Catalogue|
    }

    /** `useState(0)`: the first quote is shown first. */
    constructor ()
      ensures Valid() && activeIndex == 0
    {
      activeIndex := 0;
    }

    /** The quote the carousel shows: `testimonials[activeIndex]`. */
    function Current(): (t: Testimonial)
      reads this
      requires Valid()
      ensures t in Catalogue
    {
      Catalogue[activeIndex]
    }

    /** The dot row under the carousel: one dot per quote, the active one lit. */
    function DotRow(): (row: seq<bool>)
      reads this
      requires Valid()
      ensures |row| == |Catalogue|
      ensures CountTrue(row) == 1 && row[activeIndex]
    {
      OneDotLit(activeIndex, |Catalogue|);
      Dots(activeIndex, |Catalogue|)
    }

    /** `nextTestimonial`: one step forward, wrapping from the last quote to the first. */
    method NextTestimonial()
      requires Valid()
      modifies this
      ensures Valid()
      ensures activeIndex == Carousel.Next(old(activeIndex), |Catalogue|)
    {
      activeIndex := (activeIndex + 1) % |Catalogue|;
    }

    /** `prevTestimonial`: one step back, wrapping from the first quote to the last. */
    method PrevTestimonial()
      requires Valid()
      modifies this
      ensures Valid()
      ensures activeIndex == Carousel.Prev(old(activeIndex), |Catalogue|)
    {
      activeIndex := (activeIndex - 1 + |Catalogue|) % |Catalogue|;
    }

    /** A click on dot `index`; one dot is rendered per quote, so `index` is in range. */
    method SelectDot(index: nat)
      requires Valid()
      requires index < |Catalogue|
      modifies this
      ensures Valid()
      ensures activeIndex == index
    {
      activeIndex := index;
    }
  }

  /** A client of the carousel: "next" then "previous" leaves it where it was. */
  method NextThenPrev(c: TestimonialCarousel)
    requires c.Valid()
    modifies c
    ensures c.Valid() && c.activeIndex == old(c.activeIndex)
  {
    c.NextTestimonial();
    c.PrevTestimonial();
    Carousel.NextPrevInverse(old(c.activeIndex), |Catalogue|);
  }
}
