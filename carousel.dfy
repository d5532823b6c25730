/** `TestimonialCarousel`: a row of slides with one navigation dot per slide, exactly
    one of each marked `active`, and an index that advances with wrap-around. */
module Carousel {

  /** `currentSlide`: a number, or `NaN`, which `(x + 1) % 0` yields when there are no slides. */
  datatype SlideIndex = At(i: int) | NotANumber

  /** JavaScript's `%`: the remainder takes the sign of the dividend. */
  function JsRem(a: int, n: int): int
    requires n > 0
  {
    if a >= 0 then a % n else -((-a) % n)
  }

  /** `(this.currentSlide + 1) % this.slides.length`. */
  function NextIndex(current: SlideIndex, n: nat): (r: SlideIndex)
    ensures n == 0 || current.NotANumber? ==> r == NotANumber
    ensures n > 0 && current.At? && 0 <= current.i < n ==>
      r == At(if current.i == n - 1 then 0 else current.i + 1)
    ensures n > 0 && current.At? && current.i >= -1 ==> r.At? && 0 <= r.i < n
  {
    if n == 0 || current.NotANumber? then NotANumber else At(JsRem(current.i + 1, n))
  }

  /** The index after `steps` calls of `nextSlide`. */
  function Advance(current: SlideIndex, n: nat, steps: nat): SlideIndex
    decreases steps
  {
    if steps == 0 then current else Advance(NextIndex(current, n), n, steps - 1)
  }

  lemma MulNonNegative(a: int, b: int)
    requires a >= 0 && b >= 0
    ensures a * b >= 0
  {
  }

  /** Euclidean division has one quotient-remainder pair. */
  lemma RemainderUnique(x: int, n: int, q: int, r: int)
    requires n > 0 && x == q * n + r && 0 <= r < n
    ensures x % n == r
  {
    var d := q - x / n;
    assert d * n == x % n - r;
    if d >= 1 {
      MulNonNegative(d - 1, n);
    } else if d <= -1 {
      MulNonNegative(-d - 1, n);
    }
  }

  lemma RemainderStep(x: nat, n: nat)
    requires n > 0
    ensures (x + 1) % n == if x % n == n - 1 then 0 else x % n + 1
  {
    if x % n == n - 1 {
      RemainderUnique(x + 1, n, x / n + 1, 0);
    } else {
      RemainderUnique(x + 1, n, x / n, x % n + 1);
    }
  }

  lemma {:induction false} AdvanceFrom(n: nat, x: nat, steps: nat)
    requires n > 0
    ensures Advance(At(x % n), n, steps) == At((x + steps) % n)
    decreases steps
  {
    if steps > 0 {
      RemainderStep(x, n);
      AdvanceFrom(n, x + 1, steps - 1);
    }
  }

  /** Starting from slide 0, the carousel shows slide `steps mod n` after `steps` advances. */
  lemma AdvanceFromStart(n: nat, steps: nat)
    requires n > 0
    ensures Advance(At(0), n, steps) == At(steps % n)
  {
    AdvanceFrom(n, 0, steps);
  }

  /** `index` is the one position marked in `flags`. */
  predicate OnlyActive(flags: seq<bool>, index: SlideIndex) {
    forall i :: 0 <= i < |flags| ==> flags[i] == (index == At(i))
  }

  lemma ExactlyOneActive(flags: seq<bool>, k: nat)
    requires k < |flags| && OnlyActive(flags, At(k))
    ensures flags[k]
    ensures forall i :: 0 <= i < |flags| && flags[i] ==> i == k
  {
  }

  class TestimonialCarousel {
    /** The `active` class of each `.testimonial-slide`, and of each `.nav-dot`. */
    const slides: array<bool>
    const dots: array<bool>
    var currentSlide: SlideIndex

    ghost predicate Valid()
      reads this
    {
      slides != dots && slides.Length == dots.Length
    }

    function Count(): nat
      reads this
    {
      slides.Length
    }

    /** The constructor with `init` on a carousel of `n` slides: one dot per slide is
        created, then slide 0 is shown. */
    constructor(n: nat)
      ensures Valid() && Count() == n && fresh(slides) && fresh(dots)
      ensures currentSlide == At(0)
      ensures OnlyActive(slides[..], At(0)) && OnlyActive(dots[..], At(0))
    {
      slides := new bool[n];
      dots := new bool[n];
      currentSlide := At(0);
      new;
      ShowSlide(At(0));
    }

    method ShowSlide(index: SlideIndex)
      requires Valid()
      modifies this`currentSlide, slides, dots
      ensures Valid() && currentSlide == index
      ensures OnlyActive(slides[..], index) && OnlyActive(dots[..], index)
    {
      for i := 0 to slides.Length
        invariant forall k :: 0 <= k < i ==> slides[k] == (index == At(k))
      {
        slides[i] := index == At(i);
      }
      for i := 0 to dots.Length
        invariant forall k :: 0 <= k < i ==> dots[k] == (index == At(k))
        invariant forall k :: 0 <= k < slides.Length ==> slides[k] == (index == At(k))
      {
        dots[i] := index == At(i);
      }
      currentSlide := index;
    }

    method NextSlide()
      requires Valid()
      modifies this`currentSlide, slides, dots
      ensures Valid()
      ensures currentSlide == NextIndex(old(currentSlide), Count())
      ensures OnlyActive(slides[..], currentSlide) && OnlyActive(dots[..], currentSlide)
    {
      var next := NextIndex(currentSlide, slides.Length);
      ShowSlide(next);
    }
  }
}
