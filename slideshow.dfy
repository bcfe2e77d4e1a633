/** The `ProductSlideshow` component's state: the current slide index and
    the auto-play flag, the 4-second interval that exists only while
    auto-playing, the arrow buttons, the dots and the auto-play toggle.
    Remainders are JavaScript's, so an index outside the list is carried
    through `%` the way the browser would. */
module Slideshow {
  import opened Common

  datatype Product = Product(id: int, name: string, category: string)

  const Products: seq<Product> := [
    Product(1, "Silos de Armazenamento", "Armazenagem"),
    Product(2, "Sistemas de Irrigação", "Irrigação"),
    Product(3, "Processamento de Grãos", "Processamento"),
    Product(4, "Logística e Transporte", "Logística")
  ]

  /** The auto-advance period in milliseconds. */
  const IntervalMs: int := 4000

  /** `(prev + 1) % products.length`. */
  function NextSlide(i: int, n: int): (j: int)
    requires n > 0
    ensures 0 <= i < n ==> 0 <= j < n && (if i < n - 1 then j == i + 1 else j == 0)
  {
    JsRem(i + 1, n)
  }

  /** `(prev - 1 + products.length) % products.length`. */
  function PrevSlide(i: int, n: int): (j: int)
    requires n > 0
    ensures 0 <= i < n ==> 0 <= j < n && (if i > 0 then j == i - 1 else j == n - 1)
  {
    JsRem(i - 1 + n, n)
  }

  /** Forward and back are inverse on valid indices. */
  lemma {:induction false} NextPrevInverse(i: int, n: int)
    requires n > 0 && 0 <= i < n
    ensures PrevSlide(NextSlide(i, n), n) == i
    ensures NextSlide(PrevSlide(i, n), n) == i
  {
    if i < n - 1 {
      ModUnique(i + 1, 0, i + 1, n);
      ModUnique(i + n, 1, i, n);
    } else {
      ModUnique(i + 1, 1, 0, n);
      ModUnique(n - 1, 0, n - 1, n);
    }
    if i > 0 {
      ModUnique(i - 1 + n, 1, i - 1, n);
      ModUnique(i, 0, i, n);
    } else {
      ModUnique(n - 1, 0, n - 1, n);
      ModUnique(n, 1, 0, n);
    }
  }

  /** The slide after k interval ticks. */
  function Advance(i: int, n: int, k: nat): int
    requires n > 0
  {
    if k == 0 then i else NextSlide(Advance(i, n, k - 1), n)
  }

  /** From a valid index, k ticks land on (i + k) mod n, so a full round
      of four ticks shows every product once and returns to the start. */
  lemma {:induction false} AdvanceIsRotation(i: int, n: int, k: nat)
    requires n > 0 && 0 <= i < n
    ensures Advance(i, n, k) == (i + k) % n
  {
    if k == 0 {
      ModUnique(i, 0, i, n);
    } else {
      AdvanceIsRotation(i, n, k - 1);
      ModAdd(i + k - 1, 1, n);
    }
  }

  lemma FourTicksReturn(i: int)
    requires 0 <= i < |Products|
    ensures Advance(i, |Products|, 4) == i
  {
    AdvanceIsRotation(i, |Products|, 4);
    ModUnique(i + 4, 1, i, 4);
  }

  class Slideshow {
    var currentSlide: int
    var isAutoPlaying: bool

    /** The index names a product. */
    predicate Valid()
      reads this
    {
      0 <= currentSlide < |Products|
    }

    constructor ()
      ensures currentSlide == 0 && isAutoPlaying && Valid()
    {
      currentSlide := 0;
      isAutoPlaying := true;
    }

    /** The product on show. */
    function Current(): (p: Product)
      reads this
      requires Valid()
      ensures p in Products
    {
      Products[currentSlide]
    }

    /** The interval fires; it only exists while auto-playing. */
    method Tick()
      modifies this`currentSlide
      ensures isAutoPlaying ==> currentSlide == NextSlide(old(currentSlide), |Products|)
      ensures !isAutoPlaying ==> currentSlide == old(currentSlide)
      ensures old(Valid()) ==> Valid()
    {
      if !isAutoPlaying {
        return;
      }
      currentSlide := JsRem(currentSlide + 1, |Products|);
    }

    /** nextSlide: forward one and stop auto-play. */
    method Next()
      modifies this
      ensures currentSlide == NextSlide(old(currentSlide), |Products|) && !isAutoPlaying
      ensures old(Valid()) ==> Valid()
    {
      currentSlide := JsRem(currentSlide + 1, |Products|);
      isAutoPlaying := false;
    }

    /** prevSlide: back one (wrapping) and stop auto-play. */
    method Prev()
      modifies this
      ensures currentSlide == PrevSlide(old(currentSlide), |Products|) && !isAutoPlaying
      ensures old(Valid()) ==> Valid()
    {
      currentSlide := JsRem(currentSlide - 1 + |Products|, |Products|);
      isAutoPlaying := false;
    }

    /** goToSlide: jump to the dot's index and stop auto-play. */
    method GoTo(index: int)
      modifies this
      ensures currentSlide == index && !isAutoPlaying
      ensures Valid() <==> 0 <= index < |Products|
    {
      currentSlide := index;
      isAutoPlaying := false;
    }

    /** The auto-play button: `setIsAutoPlaying(!isAutoPlaying)`. */
    method ToggleAutoPlay()
      modifies this`isAutoPlaying
      ensures isAutoPlaying == !old(isAutoPlaying)
    {
      isAutoPlaying := !isAutoPlaying;
    }
  }

  /** A client run: next then prev comes back, and every dot is reachable. */
  method BrowseSession(dot: int)
    requires 0 <= dot < |Products|
  {
    var show := new Slideshow();
    show.Tick();
    assert show.currentSlide == 1;
    show.Next();
    show.Prev();
    NextPrevInverse(1, |Products|);
    assert show.currentSlide == 1 && !show.isAutoPlaying;
    show.Tick();
    assert show.currentSlide == 1;
    show.GoTo(dot);
    assert show.Valid() && show.Current() == Products[dot];
  }
}
