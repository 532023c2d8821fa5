/** The home page's hero carousel: three slides and the index of the one on
    show, moved by the arrows and the indicator dots. */
module HeroCarousel {

  datatype Slide = Slide(id: nat, title: string, link: string)

  const Slides: seq<Slide> := [
    Slide(1, "Summer Collection", "/products?category=clothing"),
    Slide(2, "Tech Essentials", "/products?category=electronics"),
    Slide(3, "Home Makeover", "/products?category=home-kitchen")
  ]

  /** `(current + 1) % items.length`. */
  function NextIndex(current: nat, n: nat): (r: nat)
    requires n > 0
    ensures r < n
    ensures current < n - 1 ==> r == current + 1
    ensures current == n - 1 ==> r == 0
  {
    (current + 1) % n
  }

  /** `(current - 1 + items.length) % items.length`; both operands are
      non-negative for an index in range, so the remainder is JavaScript's. */
  function PrevIndex(current: nat, n: nat): (r: nat)
    requires n > 0 && current < n
    ensures r < n
    ensures current > 0 ==> r == current - 1
    ensures current == 0 ==> r == n - 1
  {
    (current - 1 + n) % n
  }

  /** `prev` undoes `next` and `next` undoes `prev`. */
  lemma PrevUndoesNext(i: nat, n: nat)
    requires n > 0 && i < n
    ensures PrevIndex(NextIndex(i, n), n) == i
    ensures NextIndex(PrevIndex(i, n), n) == i
  {
  }

  /** `k` presses of `next` from `start`. */
  function Advance(start: nat, n: nat, k: nat): (r: nat)
    requires n > 0 && start < n
    ensures r < n
  {
    if k == 0 then start else NextIndex(Advance(start, n, k - 1), n)
  }

  /** `k` presses of `next` move the index `k` places round the ring. */
  lemma {:induction false} AdvanceIsModular(start: nat, n: nat, k: nat)
    requires n > 0 && start < n
    ensures Advance(start, n, k) == (start + k) % n
  {
    if k > 0 {
      var x: nat := start + k - 1;
      AdvanceIsModular(start, n, k - 1);
      assert Advance(start, n, k) == (x % n + 1) % n;
      ModSucc(x, n);
    }
  }

  lemma ModSucc(x: nat, n: nat)
    requires n > 0
    ensures (x % n + 1) % n == (x + 1) % n
  {
    var q := x / n;
    if x % n + 1 < n {
      ModUnique(x + 1, q, x % n + 1, n);
      ModUnique(x % n + 1, 0, x % n + 1, n);
    } else {
      ModUnique(x + 1, q + 1, 0, n);
      ModUnique(x % n + 1, 1, 0, n);
    }
  }

  /** The remainder is the `r` of any `z == k * n + r` with `0 <= r < n`. */
  lemma ModUnique(z: int, k: int, r: int, n: int)
    requires n > 0 && 0 <= r < n && z == k * n + r
    ensures z % n == r
  {
    var d := z / n;
    var m := z % n;
    assert (k - d) * n == m - r;
    ZeroIfSmallMultiple(k - d, n);
  }

  lemma ZeroIfSmallMultiple(a: int, n: int)
    requires n > 0 && -n < a * n < n
    ensures a == 0
  {
    var b: nat := if a >= 0 then a else -a;
    assert b * n == if a >= 0 then a * n else -(a * n);
    MulAtLeast(b, n);
  }

  lemma MulAtLeast(b: nat, n: nat)
    ensures b >= 1 ==> b * n >= n
  {
    if b >= 1 {
      assert b * n == (b - 1) * n + n;
    }
  }

  /** As many presses of `next` as there are slides come back to the start. */
  lemma FullTurnReturns(start: nat, n: nat)
    requires n > 0 && start < n
    ensures Advance(start, n, n) == start
  {
    AdvanceIsModular(start, n, n);
    ModUnique(start + n, 1, start, n);
  }

  class Carousel {
    var current: nat

    predicate Valid()
      reads this
    {
      current < |Slides|
    }

    constructor ()
      ensures Valid() && current == 0
    {
      current := 0;
    }

    method Next()
      requires Valid()
      modifies this
      ensures Valid()
      ensures current == NextIndex(old(current), |Slides|)
    {
      current := (current + 1) % |Slides|;
    }

    method Prev()
      requires Valid()
      modifies this
      ensures Valid()
      ensures current == PrevIndex(old(current), |Slides|)
    {
      current := (current - 1 + |Slides|) % |Slides|;
    }

    /** A click on the indicator of slide `index`; there is one indicator per
        slide. */
    method GoTo(index: nat)
      requires index < |Slides|
      modifies this
      ensures Valid() && current == index
    {
      current := index;
    }
  }
}
