/**
 * The aggregation behind the dashboard (`src/services/apiDashboard.js`): the seven-month
 * sales chart, the recent-order digests, the popular products and the "time ago" label.
 * `getDashboardStats` and `getCategoryData` run the same computations as the analytics
 * page and are `Analytics.ComputeStats`, `Analytics.CategoryTotals` and
 * `Analytics.ChartSlices`. Fetched collections, the current month and the current time
 * (in seconds) are parameters.
 */
module Dashboard {
  import opened Wrappers
  import opened Entities
  import opened Seqs
  import opened Tally
  import opened Text
  import Sorting
  import Analytics

  /** `limit = 5`, the default of `getRecentOrders` and `getPopularProducts`. */
  const DefaultLimit := 5

  // ---------------------------------------------------------------------------------------
  // Ranking: filter, stable sort, slice

  /** `s.filter(keep).sort(cmp).slice(0, limit)`. */
  function Ranked<T>(s: seq<T>, keep: T -> bool, le: (T, T) -> bool, limit: int): seq<T> {
    SliceTo(Sorting.Sort(Filter(s, keep), le), limit)
  }

  /**
   * A ranking holds `limit` of the kept elements (all of them when fewer are kept), in
   * comparator order, and nothing that was not kept, each no more often than in the input.
   * With a transitive comparator they are the best ones: every kept element left out may
   * follow the last one shown.
   */
  lemma RankedSpec<T(!new)>(s: seq<T>, keep: T -> bool, le: (T, T) -> bool, limit: int)
    requires Sorting.Total(le)
    ensures |Ranked(s, keep, le, limit)| == SliceEnd(|Filter(s, keep)|, limit)
    ensures Sorting.Sorted(Ranked(s, keep, le, limit), le)
    ensures forall k :: 0 <= k < |Ranked(s, keep, le, limit)| ==>
      Ranked(s, keep, le, limit)[k] in s && keep(Ranked(s, keep, le, limit)[k])
    ensures multiset(Ranked(s, keep, le, limit)) <= multiset(Filter(s, keep))
    ensures Sorting.Transitive(le) && Ranked(s, keep, le, limit) != [] ==>
      forall x :: x in multiset(Filter(s, keep)) - multiset(Ranked(s, keep, le, limit)) ==>
        le(Ranked(s, keep, le, limit)[|Ranked(s, keep, le, limit)| - 1], x)
  {
    var f := Filter(s, keep);
    var sorted := Sorting.Sort(f, le);
    var r := Ranked(s, keep, le, limit);
    Sorting.SortSorted(f, le);
    Sorting.SortedPrefix(sorted, le, |r|);
    Sorting.PrefixRest(sorted, |r|);
    if Sorting.Transitive(le) {
      Sorting.SortedTop(f, le, |r|);
    }
    forall k | 0 <= k < |r|
      ensures r[k] in s && keep(r[k])
    {
      assert r[k] == sorted[k];
      assert r[k] in multiset(f);
      FilterMember(s, keep, r[k]);
    }
  }

  /** A ranking is in comparator order. */
  lemma RankedSorted<T(!new)>(s: seq<T>, keep: T -> bool, le: (T, T) -> bool, limit: int)
    requires Sorting.Total(le)
    ensures Sorting.Sorted(Ranked(s, keep, le, limit), le)
  {
    var sorted := Sorting.Sort(Filter(s, keep), le);
    Sorting.SortSorted(Filter(s, keep), le);
    Sorting.SortedPrefix(sorted, le, |Ranked(s, keep, le, limit)|);
  }

  /** The first element of a non-empty ranking may precede every kept element of the input. */
  lemma RankedFirst<T(!new)>(s: seq<T>, keep: T -> bool, le: (T, T) -> bool, limit: int, x: T)
    requires Sorting.Total(le) && Sorting.Transitive(le) && (forall a :: le(a, a))
    requires Ranked(s, keep, le, limit) != [] && x in s && keep(x)
    ensures le(Ranked(s, keep, le, limit)[0], x)
  {
    var f := Filter(s, keep);
    var sorted := Sorting.Sort(f, le);
    Sorting.SortSorted(f, le);
    FilterMember(s, keep, x);
    assert x in multiset(sorted);
    var k :| 0 <= k < |sorted| && sorted[k] == x;
    Sorting.SortedFirst(sorted, le, k);
  }

  // ---------------------------------------------------------------------------------------
  // getTimeAgo

  datatype TimeUnit = Second | Minute | Hour | Day | Month | Year

  /** The seconds in one unit: a month is 30 days and a year 365 days. */
  function UnitLength(u: TimeUnit): nat {
    match u
    case Second => 1
    case Minute => 60
    case Hour => 3600
    case Day => 86400
    case Month => 2592000
    case Year => 31536000
  }

  /** The next larger unit (a year has none and is its own). */
  function Larger(u: TimeUnit): TimeUnit {
    match u
    case Second => Minute
    case Minute => Hour
    case Hour => Day
    case Day => Month
    case Month => Year
    case Year => Year
  }

  function UnitName(u: TimeUnit): string {
    match u
    case Second => "seconds"
    case Minute => "minutes"
    case Hour => "hours"
    case Day => "days"
    case Month => "months"
    case Year => "years"
  }

  /** The label of `getTimeAgo`: an invalid date, a future date, or a whole number of units. */
  datatype Ago = UnknownTime | JustNow | Ago(amount: nat, unit: TimeUnit)

  /** `Math.floor(diff / length)` labelled with its unit. */
  function InUnits(diff: nat, u: TimeUnit): Ago {
    Ago(diff / UnitLength(u), u)
  }

  /**
   * `getTimeAgo(date)` at time `now`, both in seconds; `at` is `None` for an invalid date.
   * The unit is the largest one that fits into the elapsed time, and the amount is the
   * number of whole units elapsed.
   */
  function TimeAgo(now: int, at: Option<int>): (r: Ago)
    ensures r == UnknownTime <==> at.None?
    ensures at.Some? ==> (r == JustNow <==> now < at.value)
    ensures r.Ago? ==> at.Some? && r.amount * UnitLength(r.unit) <= now - at.value < (r.amount + 1) * UnitLength(r.unit)
    ensures r.Ago? && r.unit != Second ==> UnitLength(r.unit) <= now - at.value
    ensures r.Ago? && r.unit != Year ==> now - at.value < UnitLength(Larger(r.unit))
  {
    if at.None? then UnknownTime
    else
      var diff := now - at.value;
      if diff < 0 then JustNow
      else if diff < 60 then InUnits(diff, Second)
      else if diff < 3600 then InUnits(diff, Minute)
      else if diff < 86400 then InUnits(diff, Hour)
      else if diff < 2592000 then InUnits(diff, Day)
      else if diff < 31536000 then InUnits(diff, Month)
      else InUnits(diff, Year)
  }

  /** The text of a label: `${n} minutes ago` and so on. */
  function Render(a: Ago): string {
    match a
    case UnknownTime => "Unknown time"
    case JustNow => "Just now"
    case Ago(n, u) => NatToString(n) + " " + UnitName(u) + " ago"
  }

  /** A rendered label starts with the digits of its amount, which read back as the amount. */
  lemma RenderReadsBack(n: nat, u: TimeUnit)
    ensures var d := NatToString(n); var s := Render(Ago(n, u));
      |d| < |s| && s[..|d|] == d && s[|d|] == ' ' && DecimalValue(s[..|d|]) == n
  {
    DecimalRoundTrip(n);
  }

  /** `new Date(x)` in seconds, `None` for a missing or invalid date. */
  function SecondsOf(t: Option<Stamp>): Option<int> {
    if t.Some? then Some(t.value.seconds) else None
  }

  // ---------------------------------------------------------------------------------------
  // getSalesData

  /** One bar of the dashboard chart: the month, its revenue and its number of orders. */
  datatype MonthSales = MonthSales(month: int, sales: real, orders: nat)

  function MonthSalesFor(orders: seq<Order>, month: int): MonthSales {
    var inMonth := Analytics.OrdersInMonth(orders, month);
    MonthSales(month, Analytics.Revenue(inMonth), |inMonth|)
  }

  /** The bars of `n` consecutive months starting at `first`, oldest first. */
  function SalesSeries(orders: seq<Order>, first: int, n: nat): (r: seq<MonthSales>)
    ensures |r| == n
  {
    if n == 0 then [] else SalesSeries(orders, first, n - 1) + [MonthSalesFor(orders, first + n - 1)]
  }

  /** The `k`-th bar is that of month `first + k`. */
  lemma {:induction false} SalesSeriesAt(orders: seq<Order>, first: int, n: nat, k: nat)
    requires k < n
    ensures SalesSeries(orders, first, n)[k] == MonthSalesFor(orders, first + k)
  {
    if k < n - 1 {
      SalesSeriesAt(orders, first, n - 1, k);
    }
  }

  /** `getSalesData`: the loop over the seven months ending with the month `now`. */
  method SalesData(orders: seq<Order>, now: int) returns (months: seq<MonthSales>)
    ensures months == SalesSeries(orders, now - 6, 7)
    ensures months[6].month == now
  {
    months := [];
    var i := 6;
    while i >= 0
      invariant -1 <= i <= 6
      invariant months == SalesSeries(orders, now - 6, 6 - i)
    {
      var month := now - i;
      var monthOrders := Analytics.OrdersIn(orders, YearOf(month), MonthIndexOf(month));
      var monthSales := Analytics.Revenue(monthOrders);
      months := months + [MonthSales(month, monthSales, |monthOrders|)];
      i := i - 1;
    }
  }

  /** The seven bars agree with the last seven months of the analytics page's twelve-month series. */
  lemma SalesSeriesMatchesAnalytics(orders: seq<Order>, customers: seq<Customer>, now: int, k: nat)
    requires k < 7
    ensures SalesSeries(orders, now - 6, 7)[k].month == Analytics.Series(orders, customers, now - 11, 12)[k + 5].month
    ensures SalesSeries(orders, now - 6, 7)[k].sales == Analytics.Series(orders, customers, now - 11, 12)[k + 5].sales
    ensures SalesSeries(orders, now - 6, 7)[k].orders == Analytics.Series(orders, customers, now - 11, 12)[k + 5].orders
  {
    SalesSeriesAt(orders, now - 6, 7, k);
    Analytics.SeriesAt(orders, customers, now - 11, 12, k + 5);
  }

  // ---------------------------------------------------------------------------------------
  // getRecentOrders

  /** `order && order._id && order.createdAt && !isNaN(new Date(order.createdAt))`. */
  predicate IsListable(o: Order) {
    Truthy(o.dbId) && o.createdAt.Some?
  }

  /** The comparator `(a, b) => new Date(b.createdAt) - new Date(a.createdAt)`. */
  predicate NewerFirst(a: Order, b: Order) {
    SecondsOr0(b.createdAt) <= SecondsOr0(a.createdAt)
  }

  /** `#` and the last eight characters of the id, upper-cased. */
  function OrderLabel(id: string): (r: string)
    ensures |r| == 1 + (if |id| < 8 then |id| else 8) && r[0] == '#'
    ensures forall i :: 1 <= i < |r| ==> !IsLowerAscii(r[i]) && LowerChar(r[i]) == LowerChar(id[|id| - |r| + i])
  {
    "#" + ToUpper(LastChars(id, 8))
  }

  const UnknownCustomer := "Unknown Customer"

  /** A populated user's name, else email; a user id string itself; otherwise "Unknown Customer". */
  function CustomerName(u: UserRef): (r: string)
    ensures r != ""
    ensures u.NoUser? || (u.UserId? && u.id == "") ==> r == UnknownCustomer
  {
    match u
    case NoUser => UnknownCustomer
    case UserId(id) => if id != "" then id else UnknownCustomer
    case UserObject(_, name, email) =>
      if Truthy(name) then name.value else if Truthy(email) then email.value else UnknownCustomer
  }

  /** The status shown: `paymentStatus`, else `status`, else "Delivered", "Paid" or "Pending". */
  function StatusLabel(o: Order): (r: string)
    ensures r != ""
    ensures r == o.paymentStatus || r == o.status || r == "Delivered" || r == "Paid" || r == "Pending"
  {
    if o.paymentStatus != "" then o.paymentStatus
    else if o.status != "" then o.status
    else if o.isDelivered then "Delivered"
    else if o.isPaid then "Paid"
    else "Pending"
  }

  /** The status label follows the priority payment status, order status, delivered, paid. */
  lemma StatusPriority(o: Order)
    ensures o.paymentStatus != "" ==> StatusLabel(o) == o.paymentStatus
    ensures o.paymentStatus == "" && o.status != "" ==> StatusLabel(o) == o.status
    ensures o.paymentStatus == "" && o.status == "" ==>
      StatusLabel(o) == (if o.isDelivered then "Delivered" else if o.isPaid then "Paid" else "Pending")
  {
  }

  /** `orderItems.reduce((sum, item) => sum + (item.quantity || 0), 0)`, 0 without items. */
  function ItemCount(o: Order): int {
    SumInt(ItemsOf(o), QuantityOr0)
  }

  /** An order whose quantities are all non-negative has a non-negative item count. */
  lemma ItemCountNonNegative(o: Order)
    requires forall i :: 0 <= i < |ItemsOf(o)| ==> QuantityOr0(ItemsOf(o)[i]) >= 0
    ensures ItemCount(o) >= 0
  {
    SumIntNonNegative(ItemsOf(o), QuantityOr0);
  }

  /** One processed recent order; the amount is `totalPrice` (0 when missing) before formatting. */
  datatype RecentOrder = RecentOrder(id: string, customer: string, amount: real, status: string, time: Ago, totalItems: int)

  function Digest(o: Order, now: int): RecentOrder {
    RecentOrder(OrderLabel(TextOf(o.dbId)), CustomerName(o.user), o.totalPrice, StatusLabel(o),
      TimeAgo(now, SecondsOf(o.createdAt)), ItemCount(o))
  }

  /** The listable orders, newest first, cut to `limit`. */
  function RecentSelection(orders: seq<Order>, limit: int): seq<Order> {
    Ranked(orders, IsListable, NewerFirst, limit)
  }

  /**
   * `getRecentOrders(limit)`: one digest per selected order, in selection order, showing the
   * order's label, customer, total, status label, age and item count.
   */
  function RecentOrders(orders: seq<Order>, limit: int, now: int): (r: seq<RecentOrder>)
    ensures |r| == |RecentSelection(orders, limit)|
    ensures forall k :: 0 <= k < |r| ==>
      var o := RecentSelection(orders, limit)[k];
      r[k].id == OrderLabel(TextOf(o.dbId)) && r[k].customer == CustomerName(o.user)
      && r[k].amount == o.totalPrice && r[k].status == StatusLabel(o)
      && r[k].time == TimeAgo(now, SecondsOf(o.createdAt)) && r[k].totalItems == ItemCount(o)
  {
    var sel := RecentSelection(orders, limit);
    seq(|sel|, k requires 0 <= k < |sel| => Digest(sel[k], now))
  }

  /**
   * The selection keeps only orders with an id and a valid date, holds `limit` of them (all
   * when fewer), newest first, and begins with the newest listable order of all.
   */
  lemma RecentSelectionSpec(orders: seq<Order>, limit: int)
    ensures 0 <= limit ==> |RecentSelection(orders, limit)| == if limit < Count(orders, IsListable) then limit else Count(orders, IsListable)
    ensures forall k :: 0 <= k < |RecentSelection(orders, limit)| ==>
      RecentSelection(orders, limit)[k] in orders && IsListable(RecentSelection(orders, limit)[k])
    ensures forall k :: 0 < k < |RecentSelection(orders, limit)| ==>
      SecondsOr0(RecentSelection(orders, limit)[k].createdAt) <= SecondsOr0(RecentSelection(orders, limit)[k - 1].createdAt)
    ensures RecentSelection(orders, limit) != [] ==> forall o :: o in orders && IsListable(o) ==>
      SecondsOr0(o.createdAt) <= SecondsOr0(RecentSelection(orders, limit)[0].createdAt)
  {
    RankedSpec(orders, IsListable, NewerFirst, limit);
    var sel := RecentSelection(orders, limit);
    if sel != [] {
      forall o | o in orders && IsListable(o)
        ensures SecondsOr0(o.createdAt) <= SecondsOr0(sel[0].createdAt)
      {
        RankedFirst(orders, IsListable, NewerFirst, limit, o);
      }
    }
  }

  /** The date comparator orders any two orders and is transitive. */
  lemma NewerFirstOrder()
    ensures Sorting.Total(NewerFirst) && Sorting.Transitive(NewerFirst)
  {
  }

  /**
   * The selection is the newest listable orders: it shows each listable order at most as
   * often as the input holds it, and no listable order left out is newer than the last one
   * shown.
   */
  lemma RecentSelectionBest(orders: seq<Order>, limit: int)
    ensures multiset(RecentSelection(orders, limit)) <= multiset(Filter(orders, IsListable))
    ensures RecentSelection(orders, limit) != [] ==>
      forall o :: o in multiset(Filter(orders, IsListable)) - multiset(RecentSelection(orders, limit)) ==>
        SecondsOr0(o.createdAt) <= SecondsOr0(RecentSelection(orders, limit)[|RecentSelection(orders, limit)| - 1].createdAt)
  {
    NewerFirstOrder();
    RankedSpec(orders, IsListable, NewerFirst, limit);
    var sel := RecentSelection(orders, limit);
    if sel != [] {
      forall o | o in multiset(Filter(orders, IsListable)) - multiset(sel)
        ensures SecondsOr0(o.createdAt) <= SecondsOr0(sel[|sel| - 1].createdAt)
      {
        assert NewerFirst(sel[|sel| - 1], o);
      }
    }
  }

  // ---------------------------------------------------------------------------------------
  // getPopularProducts

  const UnknownProduct := "Unknown Product"

  /** A product's sales record: the entry created for its first line item, then accumulated. */
  datatype PopEntry = PopEntry(name: string, sales: int, revenue: real, rating: real, views: int, createdAt: int)

  /** `product._id || product.id`; an unpopulated id string has neither. */
  function PopKey(r: ProductRef): Option<string> {
    if r.Populated? then (if Truthy(r.product.dbId) then r.product.dbId else r.product.altId) else None
  }

  /** A value used as an object key: `undefined` becomes the key "undefined". */
  function ObjectKey(k: Option<string>): string {
    if k.Some? then k.value else "undefined"
  }

  /** `products.find(p => p._id === id || p.id === id)`. */
  function FindProduct(products: seq<Product>, id: string): (r: Option<Product>)
    ensures r.Some? ==> r.value in products && (r.value.dbId == Some(id) || r.value.altId == Some(id))
    ensures r.None? <==> forall p :: p in products ==> p.dbId != Some(id) && p.altId != Some(id)
  {
    if products == [] then None
    else if products[0].dbId == Some(id) || products[0].altId == Some(id) then Some(products[0])
    else
      var r := FindProduct(products[1..], id);
      assert forall p :: p in products ==> p == products[0] || p in products[1..];
      r
  }

  /** The product's own name, else `productName`, else `title`, else "Unknown Product". */
  function OwnName(r: ProductRef): string {
    if !r.Populated? then UnknownProduct
    else if Truthy(r.product.name) then r.product.name.value
    else if r.product.productName != "" then r.product.productName
    else if r.product.title != "" then r.product.title
    else UnknownProduct
  }

  /** The display name: an unknown own name is looked up by id in the product list. */
  function PopName(r: ProductRef, products: seq<Product>): string {
    var own := OwnName(r);
    var key := PopKey(r);
    if own == UnknownProduct && Truthy(key) then
      var found := FindProduct(products, key.value);
      if found.Some? && Truthy(found.value.name) then found.value.name.value else own
    else own
  }

  /** The entry created the first time a product is seen; a missing `createdAt` is `now`. */
  function FreshEntry(r: ProductRef, products: seq<Product>, now: int): PopEntry {
    if r.Populated? then
      PopEntry(PopName(r, products), 0, 0.0, r.product.ratingsAverage, r.product.ratingsQuantity,
        if r.product.createdAt.Some? then r.product.createdAt.value.seconds else now)
    else PopEntry(PopName(r, products), 0, 0.0, 0.0, 0, now)
  }

  /** `entry.sales += quantity; entry.revenue += price * quantity`. */
  function AddSale(a: PopEntry, b: PopEntry): PopEntry {
    a.(sales := a.sales + b.sales, revenue := a.revenue + b.revenue)
  }

  /** One step of the `productSales` loop. */
  function PopStep(products: seq<Product>, now: int): (Assoc<PopEntry>, OrderItem) -> Assoc<PopEntry> {
    (acc: Assoc<PopEntry>, item: OrderItem) =>
      if HasProduct(item.product) then
        var seed := FreshEntry(item.product, products, now);
        Bump(acc, ObjectKey(PopKey(item.product)), seed.(sales := QuantityOr0(item), revenue := ItemRevenue(item)), seed, AddSale)
      else acc
  }

  /** The items with a product that are counted under key `k`. */
  function KeyedAs(k: string): OrderItem -> bool {
    (i: OrderItem) => HasProduct(i.product) && ObjectKey(PopKey(i.product)) == k
  }

  const NoEntry := PopEntry("", 0, 0.0, 0.0, 0, 0)

  /** The tally lists each product key once. */
  lemma {:induction false} PopTallyDistinct(items: seq<OrderItem>, products: seq<Product>, now: int)
    ensures DistinctKeys(FoldLeft(items, [], PopStep(products, now)))
  {
    if items != [] {
      var init := items[..|items| - 1];
      var x := items[|items| - 1];
      var acc := FoldLeft(init, [], PopStep(products, now));
      PopTallyDistinct(init, products, now);
      if HasProduct(x.product) {
        var seed := FreshEntry(x.product, products, now);
        BumpDistinct(acc, ObjectKey(PopKey(x.product)), seed.(sales := QuantityOr0(x), revenue := ItemRevenue(x)), seed, AddSale);
      }
    }
  }

  /** One item adds its units and revenue to the entry of its own key and to no other. */
  lemma PopStepGet(acc: Assoc<PopEntry>, x: OrderItem, products: seq<Product>, now: int, k: string)
    ensures Get(PopStep(products, now)(acc, x), k, NoEntry).sales ==
      Get(acc, k, NoEntry).sales + (if KeyedAs(k)(x) then QuantityOr0(x) else 0)
    ensures Get(PopStep(products, now)(acc, x), k, NoEntry).revenue ==
      Get(acc, k, NoEntry).revenue + (if KeyedAs(k)(x) then ItemRevenue(x) else 0.0)
  {
    if HasProduct(x.product) {
      var seed := FreshEntry(x.product, products, now);
      var key := ObjectKey(PopKey(x.product));
      var v := seed.(sales := QuantityOr0(x), revenue := ItemRevenue(x));
      assert PopStep(products, now)(acc, x) == Bump(acc, key, v, seed, AddSale);
      BumpGet(acc, key, v, seed, AddSale, k, NoEntry);
      GetDefault(acc, key, seed, NoEntry);
      GetDefault(acc, key, NoEntry, NoEntry);
      assert seed.sales == 0 && seed.revenue == 0.0;
    }
  }

  /** Each product key's entry holds the units and revenue of exactly the items counted under that key. */
  lemma {:induction false} PopTallyPerKey(items: seq<OrderItem>, products: seq<Product>, now: int, k: string)
    ensures Get(FoldLeft(items, [], PopStep(products, now)), k, NoEntry).sales == SumInt(Filter(items, KeyedAs(k)), QuantityOr0)
    ensures Get(FoldLeft(items, [], PopStep(products, now)), k, NoEntry).revenue == Sum(Filter(items, KeyedAs(k)), ItemRevenue)
  {
    if items != [] {
      var init := items[..|items| - 1];
      var x := items[|items| - 1];
      PopTallyPerKey(init, products, now, k);
      PopStepGet(FoldLeft(init, [], PopStep(products, now)), x, products, now, k);
      var f := Filter(items, KeyedAs(k));
      if KeyedAs(k)(x) {
        assert f[..|f| - 1] == Filter(init, KeyedAs(k));
      }
    }
  }

  /** The rating fallback is taken exactly when no order item has a product. */
  lemma {:induction false} PopFallbackExactly(items: seq<OrderItem>, products: seq<Product>, now: int)
    ensures FoldLeft(items, [], PopStep(products, now)) == [] <==> forall i :: 0 <= i < |items| ==> !HasProduct(items[i].product)
  {
    if items != [] {
      var init := items[..|items| - 1];
      PopFallbackExactly(init, products, now);
      assert forall i :: 0 <= i < |init| ==> items[i] == init[i];
    }
  }

  /** One card of the popular-products list; only sales-based cards carry sales and revenue. */
  datatype PopularCard = PopularCard(name: string, views: int, rating: real, time: Ago, sales: Option<int>, revenue: Option<real>)

  /** `product.name && product.name !== "Unknown Product"`. */
  predicate NamedProduct(p: Product) {
    Truthy(p.name) && p.name.value != UnknownProduct
  }

  predicate NamedEntry(e: PopEntry) {
    e.name != "" && e.name != UnknownProduct
  }

  /** `(a, b) => (b.ratingsAverage || 0) - (a.ratingsAverage || 0)`. */
  predicate ByRating(a: Product, b: Product) {
    a.ratingsAverage >= b.ratingsAverage
  }

  /** `(a, b) => b.revenue - a.revenue`. */
  predicate ByPopRevenue(a: PopEntry, b: PopEntry) {
    a.revenue >= b.revenue
  }

  function RatingCard(p: Product, now: int): PopularCard {
    PopularCard(TextOf(p.name), p.ratingsQuantity, p.ratingsAverage, TimeAgo(now, SecondsOf(p.createdAt)), None, None)
  }

  function SalesCard(e: PopEntry, now: int): PopularCard {
    PopularCard(e.name, e.views, e.rating, TimeAgo(now, Some(e.createdAt)), Some(e.sales), Some(e.revenue))
  }

  /** The sales tally of all line items. */
  function PopTally(products: seq<Product>, orders: seq<Order>, now: int): Assoc<PopEntry> {
    FoldLeft(LineItems(orders), [], PopStep(products, now))
  }

  /** The fallback cards: named products by rating, best first, cut to `limit`. */
  function RatingCards(products: seq<Product>, limit: int, now: int): seq<PopularCard> {
    RatingCardList(RatingSelection(products, limit), now)
  }

  /** The products the fallback cards show. */
  function RatingSelection(products: seq<Product>, limit: int): seq<Product> {
    Ranked(products, NamedProduct, ByRating, limit)
  }

  /**
   * One rating card per product, in order: its name, number of ratings as views, average
   * rating and age, with no sales figures.
   */
  function RatingCardList(sel: seq<Product>, now: int): (r: seq<PopularCard>)
    ensures |r| == |sel|
    ensures forall k :: 0 <= k < |sel| ==>
      r[k].name == TextOf(sel[k].name) && r[k].views == sel[k].ratingsQuantity
      && r[k].rating == sel[k].ratingsAverage && r[k].time == TimeAgo(now, SecondsOf(sel[k].createdAt))
      && r[k].sales.None? && r[k].revenue.None?
  {
    seq(|sel|, k requires 0 <= k < |sel| => RatingCard(sel[k], now))
  }

  /** The sales cards: named tally entries by revenue, best first, cut to `limit`. */
  function SalesCards(tally: Assoc<PopEntry>, limit: int, now: int): seq<PopularCard> {
    SalesCardList(SalesSelection(tally, limit), now)
  }

  /** The tally entries the sales cards show. */
  function SalesSelection(tally: Assoc<PopEntry>, limit: int): seq<PopEntry> {
    Ranked(Values(tally), NamedEntry, ByPopRevenue, limit)
  }

  /**
   * One sales card per tally entry, in order: its name, views, rating and age, with the
   * entry's units sold and revenue.
   */
  function SalesCardList(sel: seq<PopEntry>, now: int): (r: seq<PopularCard>)
    ensures |r| == |sel|
    ensures forall k :: 0 <= k < |sel| ==>
      r[k].name == sel[k].name && r[k].views == sel[k].views && r[k].rating == sel[k].rating
      && r[k].time == TimeAgo(now, Some(sel[k].createdAt))
      && r[k].sales == Some(sel[k].sales) && r[k].revenue == Some(sel[k].revenue)
  {
    seq(|sel|, k requires 0 <= k < |sel| => SalesCard(sel[k], now))
  }

  /** The cards: by revenue from the tally, or by rating from the products when nothing sold. */
  function PopularCards(products: seq<Product>, orders: seq<Order>, limit: int, now: int): seq<PopularCard> {
    var tally := PopTally(products, orders, now);
    if tally == [] then RatingCards(products, limit, now) else SalesCards(tally, limit, now)
  }

  /** `getPopularProducts(limit)`: the tally loop over all line items, then the cards. */
  method PopularProducts(products: seq<Product>, orders: seq<Order>, limit: int, now: int) returns (cards: seq<PopularCard>)
    ensures cards == PopularCards(products, orders, limit, now)
  {
    var tally := Analytics.FoldItems(orders, [], PopStep(products, now));
    if |tally| == 0 {
      cards := RatingCardList(Ranked(products, NamedProduct, ByRating, limit), now);
    } else {
      cards := SalesCardList(Ranked(Values(tally), NamedEntry, ByPopRevenue, limit), now);
    }
  }

  lemma ByRatingTotal()
    ensures Sorting.Total(ByRating) && Sorting.Transitive(ByRating)
  {
  }

  lemma ByPopRevenueTotal()
    ensures Sorting.Total(ByPopRevenue) && Sorting.Transitive(ByPopRevenue)
  {
  }

  /** The card shows a named product of the list. */
  ghost predicate CardOfProduct(c: PopularCard, products: seq<Product>, now: int) {
    exists p :: p in products && NamedProduct(p) && c == RatingCard(p, now)
  }

  /**
   * The fallback cards: `limit` of them (all named products when fewer), each a named
   * product other than "Unknown Product" without sales figures, shown no more often than the
   * list holds it; no named product left out is rated above the last card.
   */
  lemma RatingCardsSpec(products: seq<Product>, limit: int, now: int)
    ensures 0 <= limit ==>
      |RatingCards(products, limit, now)| == (if limit < Count(products, NamedProduct) then limit else Count(products, NamedProduct))
    ensures forall k :: 0 <= k < |RatingCards(products, limit, now)| ==> CardOfProduct(RatingCards(products, limit, now)[k], products, now)
    ensures multiset(RatingSelection(products, limit)) <= multiset(Filter(products, NamedProduct))
    ensures RatingCards(products, limit, now) != [] ==>
      forall p :: p in multiset(Filter(products, NamedProduct)) - multiset(RatingSelection(products, limit)) ==>
        p.ratingsAverage <= RatingCards(products, limit, now)[|RatingCards(products, limit, now)| - 1].rating
  {
    ByRatingTotal();
    RankedSpec(products, NamedProduct, ByRating, limit);
    var sel := RatingSelection(products, limit);
    var cards := RatingCards(products, limit, now);
    assert |cards| == |sel|;
    forall k | 0 <= k < |cards|
      ensures CardOfProduct(cards[k], products, now)
    {
      assert cards[k] == RatingCard(sel[k], now);
      assert sel[k] in products && NamedProduct(sel[k]);
    }
  }

  /** The fallback cards come best rated first. */
  lemma RatingCardsOrdered(products: seq<Product>, limit: int, now: int)
    ensures forall k :: 0 < k < |RatingCards(products, limit, now)| ==>
      RatingCards(products, limit, now)[k - 1].rating >= RatingCards(products, limit, now)[k].rating
  {
    ByRatingTotal();
    RankedSorted(products, NamedProduct, ByRating, limit);
    var sel := Ranked(products, NamedProduct, ByRating, limit);
    var cards := RatingCardList(sel, now);
    forall k | 0 < k < |cards|
      ensures cards[k - 1].rating >= cards[k].rating
    {
      assert ByRating(sel[k - 1], sel[k]);
    }
  }

  /** The card shows a named entry of the tally. */
  ghost predicate CardOfEntry(c: PopularCard, tally: Assoc<PopEntry>, now: int) {
    exists e :: e in Values(tally) && NamedEntry(e) && c == SalesCard(e, now)
  }

  /**
   * The sales cards: `limit` of them (all named entries when fewer), each from a tally entry
   * with a real name and carrying its sales and revenue, shown no more often than the tally
   * holds it; no named entry left out earned more than the last card.
   */
  lemma SalesCardsSpec(tally: Assoc<PopEntry>, limit: int, now: int)
    ensures 0 <= limit ==>
      |SalesCards(tally, limit, now)| == (if limit < Count(Values(tally), NamedEntry) then limit else Count(Values(tally), NamedEntry))
    ensures forall k :: 0 <= k < |SalesCards(tally, limit, now)| ==> CardOfEntry(SalesCards(tally, limit, now)[k], tally, now)
    ensures multiset(SalesSelection(tally, limit)) <= multiset(Filter(Values(tally), NamedEntry))
    ensures SalesCards(tally, limit, now) != [] ==>
      forall e :: e in multiset(Filter(Values(tally), NamedEntry)) - multiset(SalesSelection(tally, limit)) ==>
        e.revenue <= SalesCards(tally, limit, now)[|SalesCards(tally, limit, now)| - 1].revenue.value
  {
    ByPopRevenueTotal();
    RankedSpec(Values(tally), NamedEntry, ByPopRevenue, limit);
    var sel := SalesSelection(tally, limit);
    var cards := SalesCards(tally, limit, now);
    assert |cards| == |sel|;
    forall k | 0 <= k < |cards|
      ensures CardOfEntry(cards[k], tally, now)
    {
      assert cards[k] == SalesCard(sel[k], now);
      assert sel[k] in Values(tally) && NamedEntry(sel[k]);
    }
  }

  /** The sales cards come highest revenue first. */
  lemma SalesCardsOrdered(tally: Assoc<PopEntry>, limit: int, now: int)
    ensures forall k :: 0 < k < |SalesCards(tally, limit, now)| ==>
      SalesCards(tally, limit, now)[k - 1].revenue.value >= SalesCards(tally, limit, now)[k].revenue.value
  {
    ByPopRevenueTotal();
    RankedSorted(Values(tally), NamedEntry, ByPopRevenue, limit);
    SalesCardListOrdered(Ranked(Values(tally), NamedEntry, ByPopRevenue, limit), now);
  }

  /** Cards made from entries in revenue order are in revenue order. */
  lemma SalesCardListOrdered(sel: seq<PopEntry>, now: int)
    requires Sorting.Sorted(sel, ByPopRevenue)
    ensures forall k :: 0 < k < |SalesCardList(sel, now)| ==>
      SalesCardList(sel, now)[k - 1].revenue.value >= SalesCardList(sel, now)[k].revenue.value
  {
    var cards := SalesCardList(sel, now);
    forall k | 0 < k < |cards|
      ensures cards[k - 1].revenue.value >= cards[k].revenue.value
    {
      assert ByPopRevenue(sel[k - 1], sel[k]);
    }
  }

  /** The rating fallback is used exactly when no line item of any order has a product. */
  lemma PopularCardsChoice(products: seq<Product>, orders: seq<Order>, limit: int, now: int)
    ensures (forall i :: 0 <= i < |LineItems(orders)| ==> !HasProduct(LineItems(orders)[i].product))
      <==> PopTally(products, orders, now) == []
    ensures PopTally(products, orders, now) == [] ==>
      PopularCards(products, orders, limit, now) == RatingCards(products, limit, now)
    ensures PopTally(products, orders, now) != [] ==>
      PopularCards(products, orders, limit, now) == SalesCards(PopTally(products, orders, now), limit, now)
  {
    PopFallbackExactly(LineItems(orders), products, now);
    assert PopTally(products, orders, now) == FoldLeft(LineItems(orders), [], PopStep(products, now));
  }
}
