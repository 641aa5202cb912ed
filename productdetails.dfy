/**
 * The product details page (`src/pages/ProductDetails.jsx`): the gallery of the cover and
 * the other images with its previous/next arrows, and the analytics shown when the
 * per-product figures are missing. The product's `images` field is a parameter of the
 * arrow handlers; `None` is a product without that field.
 */
module ProductDetailsPage {
  import opened Wrappers
  import opened Entities
  import ProductMetrics

  /** `[product.imageCover, ...(product.images || [])]`. */
  function AllImages(cover: string, images: Option<seq<string>>): (r: seq<string>)
    ensures |r| == 1 + (if images.Some? then |images.value| else 0)
    ensures r[0] == cover
  {
    [cover] + (if images.Some? then images.value else [])
  }

  /** The arrows are drawn when there is more than one image, that is, when `images` is non-empty. */
  predicate ArrowsShown(cover: string, images: Option<seq<string>>) {
    |AllImages(cover, images)| > 1
  }

  lemma ArrowsShownIff(cover: string, images: Option<seq<string>>)
    ensures ArrowsShown(cover, images) <==> images.Some? && |images.value| >= 1
  {
  }

  /** `handleNextImage`'s update as written: it wraps at `images.length - 1`. */
  function NextIndex(i: int, n: int): int {
    if i == n - 1 then 0 else i + 1
  }

  /** `handlePreviousImage`'s update as written: it wraps to `images.length - 1`. */
  function PreviousIndex(i: int, n: int): int {
    if i == 0 then n - 1 else i - 1
  }

  /**
   * Between indices `0 .. n - 1` the two arrows are inverse to each other and never leave
   * that range.
   */
  lemma ArrowsInverse(i: int, n: int)
    requires 0 <= i < n
    ensures 0 <= NextIndex(i, n) < n && 0 <= PreviousIndex(i, n) < n
    ensures PreviousIndex(NextIndex(i, n), n) == i
    ensures NextIndex(PreviousIndex(i, n), n) == i
  {
  }

  /**
   * As written, the arrows never show the last of the `n + 1` gallery images: from any index
   * they can reach, they stay below `n`. After that image is picked from the thumbnails,
   * Next moves past the end of the gallery.
   */
  lemma LastImageSkipped(cover: string, images: seq<string>)
    requires |images| >= 1
    ensures forall i :: 0 <= i < |images| ==> NextIndex(i, |images|) != |images| && PreviousIndex(i, |images|) != |images|
    ensures NextIndex(|images|, |images|) == |AllImages(cover, Some(images))|
  {
  }

  /** A concrete case: a cover and one image; Next from the cover stays on the cover. */
  lemma SecondImageNeverShown()
    ensures NextIndex(0, |["b.jpg"]|) == 0
    ensures |AllImages("a.jpg", Some(["b.jpg"]))| == 2
  {
  }

  /** Next as evidently intended: it wraps at the last of the `m` gallery images. */
  function IntendedNext(i: int, m: int): (r: int)
    requires 0 <= i < m
    ensures 0 <= r < m
  {
    if i == m - 1 then 0 else i + 1
  }

  /** Previous as evidently intended. */
  function IntendedPrevious(i: int, m: int): (r: int)
    requires 0 <= i < m
    ensures 0 <= r < m
    ensures IntendedNext(r, m) == i
  {
    if i == 0 then m - 1 else i - 1
  }

  /** `k` presses of the intended Next, starting from the cover. */
  function NextTimes(m: int, k: nat): (r: int)
    requires m >= 1
    ensures 0 <= r < m
  {
    if k == 0 then 0 else IntendedNext(NextTimes(m, k - 1), m)
  }

  /** With the intended wrap the arrows walk through every gallery image and come back to the cover. */
  lemma {:induction false} IntendedVisitsAll(m: int, k: nat)
    requires m >= 1 && k <= m
    ensures k < m ==> NextTimes(m, k) == k
    ensures k == m ==> NextTimes(m, k) == 0
  {
    if k > 0 {
      IntendedVisitsAll(m, k - 1);
    }
  }

  /** The gallery's position. */
  class Gallery {
    var index: int

    /** The cover first. */
    constructor ()
      ensures index == 0
    {
      index := 0;
    }

    /** `handleNextImage()`: nothing without an `images` field. */
    method Next(images: Option<seq<string>>)
      modifies this
      ensures images.None? ==> index == old(index)
      ensures images.Some? ==> index == NextIndex(old(index), |images.value|)
    {
      if images.Some? {
        index := if index == |images.value| - 1 then 0 else index + 1;
      }
    }

    /** `handlePreviousImage()`: nothing without an `images` field. */
    method Previous(images: Option<seq<string>>)
      modifies this
      ensures images.None? ==> index == old(index)
      ensures images.Some? ==> index == PreviousIndex(old(index), |images.value|)
    {
      if images.Some? {
        index := if index == 0 then |images.value| - 1 else index - 1;
      }
    }

    /** `handleImageChange(i)`: a thumbnail was picked. */
    method Select(i: int)
      modifies this
      ensures index == i
    {
      index := i;
    }

    /** `allImages[currentImageIndex]`; `None` past the end, where the placeholder is drawn. */
    function Current(cover: string, images: Option<seq<string>>): (r: Option<string>)
      reads this
      ensures r.Some? <==> 0 <= index < |AllImages(cover, images)|
    {
      var all := AllImages(cover, images);
      if 0 <= index < |all| then Some(all[index]) else None
    }
  }

  /**
   * `productAnalytics || {...}`: the figures from the analytics hook, or zero counters with
   * the stock level and its reorder point.
   */
  function AnalyticsShown(p: Product, metrics: Option<ProductMetrics.Metrics>): (r: ProductMetrics.Metrics)
    ensures metrics.Some? ==> r == metrics.value
    ensures metrics.None? ==> (r.totalViews == 0 && r.totalSales == 0 && r.revenue == 0.0
      && r.conversionRate == 0.0 && r.avgOrderValue == 0.0 && r.daysInStock == 0)
    ensures metrics.None? ==> (r.stockLevel == p.stockQuantity
      && 5 * (r.reorderPoint - 1) < p.stockQuantity <= 5 * r.reorderPoint)
  {
    if metrics.Some? then metrics.value
    else ProductMetrics.Metrics(0, 0, 0.0, 0.0, 0.0, p.stockQuantity, ProductMetrics.ReorderPoint(p.stockQuantity), 0)
  }
}
