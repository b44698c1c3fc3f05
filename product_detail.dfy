/** The product card (src/components/ProductDetailModal.tsx): a photo viewer
    that steps through the product's images with wrap-around arrows and a
    row of dots, and the product's total quantity over its locations. */
module ProductDetail {
  import opened Js

  /** One place the product is kept. */
  datatype Location = Location(zone: string, channel: string, qty: real, unit: string)

  /** The prop `product`; an absent `images` is `None`. */
  datatype Product = Product(name: string, images: Option<seq<string>>, tags: Option<seq<string>>,
                             locations: seq<Location>)

  const DefaultUnit: string := "\U{0E0A}\U{0E34}\U{0E49}\U{0E19}"

  const Base64Prefix: string := "data:image/jpeg;base64,"

  /** The images shown: the product's list, or none when absent. */
  function ImagesOf(p: Product): (r: seq<string>)
    ensures p.images.None? ==> r == []
    ensures p.images.Some? ==> r == p.images.value
  {
    if p.images.Some? && |p.images.value| > 0 then p.images.value else []
  }

  /** The left arrow: `(i - 1 + n) % n`. */
  function Prev(i: int, n: int): (r: int)
    requires n > 0
    ensures 0 <= i < n ==> 0 <= r < n
    ensures 0 < i < n ==> r == i - 1
    ensures i == 0 ==> r == n - 1
  {
    Rem(i - 1 + n, n)
  }

  /** The right arrow: `(i + 1) % n`. */
  function Next(i: int, n: int): (r: int)
    requires n > 0
    ensures 0 <= i < n ==> 0 <= r < n
    ensures 0 <= i < n - 1 ==> r == i + 1
    ensures i == n - 1 ==> r == 0
  {
    Rem(i + 1, n)
  }

  /** The arrows undo each other. */
  lemma ArrowsUndo(i: int, n: int)
    requires 0 <= i < n
    ensures Prev(Next(i, n), n) == i
    ensures Next(Prev(i, n), n) == i
  {
  }

  /** `k` presses of the right arrow. */
  function NextTimes(i: int, n: int, k: nat): int
    requires n > 0
  {
    if k == 0 then i else Next(NextTimes(i, n, k - 1), n)
  }

  /** Up to one full turn, `k` presses move `k` places forward, wrapping
      around past the last image. */
  lemma {:induction false} NextTimesIsShift(i: int, n: int, k: nat)
    requires 0 <= i < n && k <= n
    ensures NextTimes(i, n, k) == if i + k < n then i + k else i + k - n
  {
    if k > 0 {
      NextTimesIsShift(i, n, k - 1);
    }
  }

  /** Pressing the right arrow once per image comes back to the same image. */
  lemma FullTurn(i: int, n: int)
    requires 0 <= i < n
    ensures NextTimes(i, n, n) == i
  {
    NextTimesIsShift(i, n, n);
  }

  /** The image source of one entry: a URL is used as it is, anything else is
      read as base64 JPEG data. */
  function ImageSrc(img: string): (src: string)
    ensures StartsWith(img, "http") ==> src == img
    ensures !StartsWith(img, "http") ==> src == Base64Prefix + img && src[|Base64Prefix|..] == img
  {
    if StartsWith(img, "http") then img else Base64Prefix + img
  }

  /** `totalQty`: the sum of the locations' quantities, from the left. */
  function TotalQty(locs: seq<Location>): real
  {
    if locs == [] then 0.0 else TotalQty(locs[..|locs| - 1]) + locs[|locs| - 1].qty
  }

  /** The total splits over any division of the locations. */
  lemma {:induction false} TotalQtyAppend(a: seq<Location>, b: seq<Location>)
    ensures TotalQty(a + b) == TotalQty(a) + TotalQty(b)
    decreases |b|
  {
    if b == [] {
      assert a + b == a;
    } else {
      var b' := b[..|b| - 1];
      assert (a + b)[..|a + b| - 1] == a + b';
      assert (a + b)[|a + b| - 1] == b[|b| - 1];
      TotalQtyAppend(a, b');
    }
  }

  /** No location holds a negative quantity, so neither does the total, and
      the total is at least any one location's quantity. */
  lemma {:induction false} TotalQtyBounds(locs: seq<Location>)
    requires forall k :: 0 <= k < |locs| ==> locs[k].qty >= 0.0
    ensures TotalQty(locs) >= 0.0
    ensures forall k :: 0 <= k < |locs| ==> TotalQty(locs) >= locs[k].qty
  {
    if locs != [] {
      var init := locs[..|locs| - 1];
      TotalQtyBounds(init);
      assert forall k :: 0 <= k < |init| ==> locs[k] == init[k];
    }
  }

  /** The unit next to the total: the first location's, or the default. */
  function TotalUnit(locs: seq<Location>): (u: string)
    ensures locs != [] && locs[0].unit != "" ==> u == locs[0].unit
    ensures locs == [] || locs[0].unit == "" ==> u == DefaultUnit
  {
    if locs != [] && locs[0].unit != "" then locs[0].unit else DefaultUnit
  }

  /** The card's state. */
  class ProductDetailModal {
    const images: seq<string>
    const locations: seq<Location>
    var activeImageIndex: int

    /** The index always points at an image, or is 0 when there is none. */
    predicate Valid()
      reads this
    {
      if images == [] then activeImageIndex == 0 else 0 <= activeImageIndex < |images|
    }

    constructor (product: Product)
      ensures images == ImagesOf(product) && locations == product.locations
      ensures activeImageIndex == 0 && Valid()
    {
      images := ImagesOf(product);
      locations := product.locations;
      activeImageIndex := 0;
    }

    /** The arrows and the dots are shown only for more than one image. */
    predicate ShowsNavigation()
      reads this
    {
      |images| > 1
    }

    /** The dots, one per image, when shown. */
    function Dots(): (r: seq<int>)
      reads this
      ensures ShowsNavigation() ==> |r| == |images| && forall k :: 0 <= k < |r| ==> r[k] == k
      ensures !ShowsNavigation() ==> r == []
    {
      if ShowsNavigation() then seq(|images|, k => k) else []
    }

    /** `currentImageSrc`: none without images. */
    function CurrentSrc(): (src: Option<string>)
      reads this
      requires Valid()
      ensures src.None? <==> images == []
      ensures src.Some? ==> src.value == ImageSrc(images[activeImageIndex])
    {
      if images == [] then None else Some(ImageSrc(images[activeImageIndex]))
    }

    method PressPrev()
      requires ShowsNavigation()
      modifies this
      ensures activeImageIndex == Prev(old(activeImageIndex), |images|)
      ensures old(Valid()) ==> Valid()
    {
      activeImageIndex := Prev(activeImageIndex, |images|);
    }

    method PressNext()
      requires ShowsNavigation()
      modifies this
      ensures activeImageIndex == Next(old(activeImageIndex), |images|)
      ensures old(Valid()) ==> Valid()
    {
      activeImageIndex := Next(activeImageIndex, |images|);
    }

    /** A dot sets the index to its own. */
    method PressDot(idx: int)
      requires ShowsNavigation() && idx in Dots()
      modifies this
      ensures activeImageIndex == idx && Valid()
    {
      activeImageIndex := idx;
    }
  }
}
