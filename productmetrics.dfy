/**
 * The per-product figures of `src/features/products/useProductDetails.js`: the entry of
 * the product-analytics list whose name equals the product's, turned into views, sales,
 * revenue, conversion, average order value and stock figures. The rounding that
 * `toFixed` applies to the conversion rate and the average is not modelled: they are the
 * exact quotients.
 */
module ProductMetrics {
  import opened Wrappers
  import opened Entities
  import Analytics
  import opened Numbers

  /** `Math.ceil(stock * 0.2)`: a fifth of the stock, rounded up. */
  function ReorderPoint(stock: int): (r: int)
    ensures 5 * (r - 1) < stock <= 5 * r
  {
    CeilDiv(stock, 5)
  }

  datatype Metrics = Metrics(
    totalViews: int,
    totalSales: int,
    revenue: real,
    conversionRate: real,
    avgOrderValue: real,
    stockLevel: int,
    reorderPoint: int,
    daysInStock: int)

  /** `analyticsData.find(item => item.name === product.name)`: the first entry with that name. */
  function FindByName(entries: seq<Analytics.Performance>, name: Option<string>): (r: Option<Analytics.Performance>)
    ensures r.Some? ==> r.value in entries && r.value.name == name
    ensures r.Some? ==> exists k :: 0 <= k < |entries| && entries[k] == r.value && forall j :: 0 <= j < k ==> entries[j].name != name
    ensures r.None? <==> forall k :: 0 <= k < |entries| ==> entries[k].name != name
  {
    if entries == [] then None
    else if entries[0].name == name then Some(entries[0])
    else
      var r := FindByName(entries[1..], name);
      if r.Some? then
        assert forall k :: 0 <= k < |entries| - 1 ==> entries[1..][k] == entries[k + 1];
        Some(r.value)
      else None
  }

  /** `views > 0 ? sales / views * 100 : 0`: sales per hundred views. */
  function ConversionRate(sales: int, views: int): (r: real)
    ensures views > 0 ==> r * views as real == sales as real * 100.0
    ensures views <= 0 ==> r == 0.0
  {
    if views > 0 then
      var v := views as real;
      var q := sales as real / v;
      assert q * v == sales as real;
      q * 100.0
    else 0.0
  }

  /** `sales > 0 ? revenue / sales : 0`: revenue per sale. */
  function AverageOrderValue(revenue: real, sales: int): (r: real)
    ensures sales > 0 ==> r * sales as real == revenue
    ensures sales <= 0 ==> r == 0.0
  {
    if sales > 0 then revenue / sales as real else 0.0
  }

  /** `stockQuantity > 0 ? Math.ceil(sales / 30) : 0`. */
  function DaysInStock(stock: int, sales: int): (r: int)
    ensures stock > 0 ==> 30 * (r - 1) < sales <= 30 * r
    ensures stock <= 0 ==> r == 0
  {
    if stock > 0 then CeilDiv(sales, 30) else 0
  }

  /** The figures from a matching entry. */
  function FromEntry(p: Product, e: Analytics.Performance): Metrics {
    Metrics(
      e.views,
      e.sales,
      e.revenue,
      ConversionRate(e.sales, e.views),
      AverageOrderValue(e.revenue, e.sales),
      p.stockQuantity,
      ReorderPoint(p.stockQuantity),
      DaysInStock(p.stockQuantity, e.sales))
  }

  /** The figures when the product has no entry: the rating count stands in for views. */
  function Fallback(p: Product): Metrics {
    Metrics(p.ratingsQuantity, 0, 0.0, 0.0, 0.0, p.stockQuantity, ReorderPoint(p.stockQuantity), 0)
  }

  /** The `productAnalytics` memo; `None` is `null`. */
  function ProductAnalytics(product: Option<Product>, analytics: Option<seq<Analytics.Performance>>): (r: Option<Metrics>)
    ensures r.None? <==> product.None? || analytics.None?
    ensures r.Some? ==> r.value.stockLevel == product.value.stockQuantity
    ensures r.Some? ==> r.value.reorderPoint == ReorderPoint(product.value.stockQuantity)
  {
    if product.None? || analytics.None? then None
    else
      var e := FindByName(analytics.value, product.value.name);
      if e.Some? then Some(FromEntry(product.value, e.value)) else Some(Fallback(product.value))
  }

  /** With a matching entry the figures are that entry's, with the derived rates of `FromEntry`. */
  lemma MatchedFigures(p: Product, analytics: seq<Analytics.Performance>)
    requires FindByName(analytics, p.name).Some?
    ensures ProductAnalytics(Some(p), Some(analytics)) == Some(FromEntry(p, FindByName(analytics, p.name).value))
    ensures FindByName(analytics, p.name).value.name == p.name
  {
  }

  /** Without a matching entry only the views (from the rating count) and stock figures are non-zero. */
  lemma UnmatchedFigures(p: Product, analytics: seq<Analytics.Performance>)
    requires forall k :: 0 <= k < |analytics| ==> analytics[k].name != p.name
    ensures ProductAnalytics(Some(p), Some(analytics)) == Some(Metrics(p.ratingsQuantity, 0, 0.0, 0.0, 0.0,
      p.stockQuantity, ReorderPoint(p.stockQuantity), 0))
  {
  }
}
