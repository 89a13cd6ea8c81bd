/**
 * The hero carousel's index arithmetic (`home/components/HeroSection.tsx`):
 * the next/previous updaters and each slide's offset. The
 * index itself lives in the landing page (see `HomePage`).
 */
module HeroSection {

  /** JavaScript's `%`: the remainder truncates toward zero, so it takes the sign of `a`. */
  function JsRem(a: int, n: int): (r: int)
    requires n > 0
    ensures a >= 0 ==> r == a % n
    ensures a < 0 ==> r == -((-a) % n)
  {
    if a >= 0 then a % n else -((-a) % n)
  }

  /**
   * `JsRem` is the remainder of a division whose quotient is truncated toward
   * zero: it is smaller than `n` in magnitude and never has the opposite sign of `a`.
   */
  lemma JsRemIsTruncatingRemainder(a: int, n: int) returns (q: int)
    requires n > 0
    ensures a == q * n + JsRem(a, n) && -n < JsRem(a, n) < n
    ensures a >= 0 ==> JsRem(a, n) >= 0
    ensures a < 0 ==> JsRem(a, n) <= 0
  {
    if a >= 0 {
      q := a / n;
    } else {
      q := -((-a) / n);
      assert -a == ((-a) / n) * n + (-a) % n;
    }
  }

  /** `(prev + 1) % heroSlides.length`. */
  function NextSlide(i: int, n: int): (r: int)
    requires n > 0
    ensures 0 <= i < n ==> 0 <= r < n && r == (if i == n - 1 then 0 else i + 1)
  {
    JsRem(i + 1, n)
  }

  /** `(prev - 1 + heroSlides.length) % heroSlides.length`. */
  function PrevSlide(i: int, n: int): (r: int)
    requires n > 0
    ensures 0 <= i < n ==> 0 <= r < n && r == (if i == 0 then n - 1 else i - 1)
  {
    JsRem(i - 1 + n, n)
  }

  /** Previous undoes next and next undoes previous, on every valid index. */
  lemma PrevNextInverse(i: int, n: int)
    requires n > 0 && 0 <= i < n
    ensures PrevSlide(NextSlide(i, n), n) == i
    ensures NextSlide(PrevSlide(i, n), n) == i
  {
  }

  /** `k` presses of "next" (or `k` ticks of the timer, which applies the same updater). */
  function NextTimes(i: int, n: int, k: nat): (r: int)
    requires n > 0
    ensures 0 <= i < n ==> 0 <= r < n
  {
    if k == 0 then i else NextSlide(NextTimes(i, n, k - 1), n)
  }

  lemma {:induction false} ModStep(a: nat, n: int)
    requires n > 0
    ensures (if a % n == n - 1 then 0 else a % n + 1) == (a + 1) % n
  {
    var q, r := a / n, a % n;
    assert a == q * n + r;
    if r == n - 1 {
      assert a + 1 == (q + 1) * n;
      ModOfMultiple(q + 1, n);
    } else {
      assert a + 1 == q * n + (r + 1);
      ModOfMultiplePlus(q, n, r + 1);
    }
  }

  lemma {:induction false} ModOfMultiple(q: nat, n: int)
    requires n > 0
    ensures (q * n) % n == 0
  {
    ModOfMultiplePlus(q, n, 0);
  }

  lemma ModOfMultiplePlus(q: nat, n: int, r: int)
    requires n > 0 && 0 <= r < n
    ensures (q * n + r) % n == r
  {
    var a := q * n + r;
    var d, m := a / n, a % n;
    assert (q - d) * n == m - r;
    MultipleBounds(q - d, n);
  }

  lemma MultipleBounds(k: int, n: int)
    requires n > 0
    ensures k >= 1 ==> k * n >= n
    ensures k <= -1 ==> k * n <= -n
  {
    if k >= 1 {
      assert k * n == n + (k - 1) * n;
    } else if k <= -1 {
      assert k * n == -n + (k + 1) * n;
    }
  }

  /** `k` steps forward from a valid index land on `(i + k) mod n`. */
  lemma {:induction false} NextTimesIsShift(i: int, n: int, k: nat)
    requires n > 0 && 0 <= i < n
    ensures NextTimes(i, n, k) == (i + k) % n
  {
    if k == 0 {
      ModOfMultiplePlus(0, n, i);
    } else {
      NextTimesIsShift(i, n, k - 1);
      ModStep(i + k - 1, n);
    }
  }

  /** `n` steps forward return to the starting slide. */
  lemma FullCycle(i: int, n: int)
    requires n > 0 && 0 <= i < n
    ensures NextTimes(i, n, n) == i
  {
    NextTimesIsShift(i, n, n);
    ModOfMultiplePlus(1, n, i);
  }

  /** `translateX((index - currentSlide) * 100%)`: zero exactly for the current slide, and on its side of it. */
  function Offset(index: int, currentSlide: int): (r: int)
    ensures r == 0 <==> index == currentSlide
    ensures r < 0 <==> index < currentSlide
  {
    (index - currentSlide) * 100
  }
}
