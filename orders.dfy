/**
 * The orders list (`src/pages/Orders.jsx`): the status shown for an order, the status
 * filter options, the summary figures, and the search, filter and sort applied to the list.
 * On this page a paid order shows as "processing" and a pending one as "cancelled".
 */
module OrdersPage {
  import opened Wrappers
  import opened Entities
  import opened Seqs
  import opened Text
  import Sorting

  /** `getOrderStatus` of the orders list. */
  function ListStatus(o: Order): (r: string)
    ensures r == "delivered" <==> o.isDelivered
    ensures r == "cancelled" <==> !o.isDelivered && o.paymentStatus == "pending"
    ensures r == "processing" <==> !o.isDelivered && o.paymentStatus != "pending"
  {
    if o.isDelivered then "delivered"
    else if o.paymentStatus == "paid" then "processing"
    else if o.paymentStatus == "pending" then "cancelled"
    else "processing"
  }

  /** `orders.map(order => getOrderStatus(order))`. */
  function Statuses(orders: seq<Order>): (r: seq<string>)
    ensures |r| == |orders|
    ensures forall i :: 0 <= i < |orders| ==> r[i] == ListStatus(orders[i])
  {
    seq(|orders|, i requires 0 <= i < |orders| => ListStatus(orders[i]))
  }

  /** `getUniqueStatuses(orders)`; `None` is a missing list. */
  function UniqueStatuses(orders: Option<seq<Order>>): (r: seq<string>)
    ensures r != [] && r[0] == "all"
  {
    if orders.None? || |orders.value| == 0 then ["all"] else ["all"] + Dedup(Statuses(orders.value))
  }

  /**
   * After "all", each status that some order shows appears exactly once, the first order's
   * status first; no orders give only "all".
   */
  lemma UniqueStatusesSpec(orders: seq<Order>)
    ensures UniqueStatuses(None) == UniqueStatuses(Some([])) == ["all"]
    ensures forall t :: t in UniqueStatuses(Some(orders))[1..] <==> exists i :: 0 <= i < |orders| && ListStatus(orders[i]) == t
    ensures forall i, j :: 1 <= i < j < |UniqueStatuses(Some(orders))| ==> UniqueStatuses(Some(orders))[i] != UniqueStatuses(Some(orders))[j]
    ensures orders != [] ==> |UniqueStatuses(Some(orders))| >= 2 && UniqueStatuses(Some(orders))[1] == ListStatus(orders[0])
  {
    var r := UniqueStatuses(Some(orders));
    if orders != [] {
      var d := Dedup(Statuses(orders));
      assert r[1..] == d;
      forall t ensures t in d <==> exists i :: 0 <= i < |orders| && ListStatus(orders[i]) == t {
        if t in d {
          var i :| 0 <= i < |orders| && Statuses(orders)[i] == t;
        }
        if exists i :: 0 <= i < |orders| && ListStatus(orders[i]) == t {
          var i :| 0 <= i < |orders| && ListStatus(orders[i]) == t;
          assert Statuses(orders)[i] == t;
        }
      }
      DedupHead(Statuses(orders));
    }
  }

  // ---------------------------------------------------------------------------------------
  // Summary figures

  datatype OrderStats = OrderStats(total: nat, delivered: nat, pending: nat, revenue: real)

  predicate IsDelivered(o: Order) { o.isDelivered }

  predicate IsPendingPayment(o: Order) { o.paymentStatus == "pending" }

  /** The four figures above the list. */
  function Stats(orders: seq<Order>): OrderStats {
    OrderStats(|orders|, Count(orders, IsDelivered), Count(orders, IsPendingPayment), Sum(orders, PriceOf))
  }

  function ShowsAs(status: string): Order -> bool {
    (o: Order) => ListStatus(o) == status
  }

  /**
   * Every order shows exactly one of the three statuses, so their counts add up to the
   * total; "delivered" is the delivered figure, and the "cancelled" orders are among the
   * pending ones.
   */
  lemma StatsSpec(orders: seq<Order>)
    ensures Count(orders, ShowsAs("delivered")) + Count(orders, ShowsAs("cancelled")) + Count(orders, ShowsAs("processing")) == Stats(orders).total
    ensures Count(orders, ShowsAs("delivered")) == Stats(orders).delivered
    ensures Count(orders, ShowsAs("cancelled")) <= Stats(orders).pending
  {
    var notDelivered := (o: Order) => !o.isDelivered;
    var any := (o: Order) => true;
    FilterUnion(orders, ShowsAs("cancelled"), ShowsAs("processing"), notDelivered, PriceOf);
    FilterUnion(orders, ShowsAs("delivered"), notDelivered, any, PriceOf);
    FilterKeepsAll(orders, any);
    assert Filter(orders, ShowsAs("delivered")) == Filter(orders, IsDelivered) by {
      FilterSame(orders, ShowsAs("delivered"), IsDelivered);
    }
    CountMonotone(orders, ShowsAs("cancelled"), IsPendingPayment);
  }

  /** Two conditions that agree everywhere filter alike. */
  lemma {:induction false} FilterSame(s: seq<Order>, p: Order -> bool, q: Order -> bool)
    requires forall x :: p(x) == q(x)
    ensures Filter(s, p) == Filter(s, q)
  {
    if s != [] {
      FilterSame(s[..|s| - 1], p, q);
    }
  }

  // ---------------------------------------------------------------------------------------
  // Search and status filter

  /** `field?.toLowerCase().includes(query.toLowerCase())`. */
  predicate FieldMatches(field: Option<string>, query: string) {
    field.Some? && Contains(ToLower(field.value), ToLower(query))
  }

  /** `order.user?.name`: only a populated user has one. */
  function UserName(u: UserRef): Option<string> {
    if u.UserObject? then u.name else None
  }

  /** `order.user?.email`. */
  function UserEmail(u: UserRef): Option<string> {
    if u.UserObject? then u.email else None
  }

  predicate MatchesSearch(o: Order, query: string) {
    FieldMatches(o.id, query) || FieldMatches(o.dbId, query)
      || FieldMatches(UserName(o.user), query) || FieldMatches(UserEmail(o.user), query)
  }

  predicate MatchesStatus(o: Order, statusFilter: string) {
    statusFilter == "all" || ListStatus(o) == statusFilter
  }

  function Matches(query: string, statusFilter: string): Order -> bool {
    (o: Order) => MatchesSearch(o, query) && MatchesStatus(o, statusFilter)
  }

  /** `filteredOrders`. */
  function FilterOrders(orders: seq<Order>, query: string, statusFilter: string): seq<Order> {
    Filter(orders, Matches(query, statusFilter))
  }

  /**
   * An order is listed iff it matches the search and the status filter; an empty search with
   * the "all" filter lists every order that has an `_id`, in the original order.
   */
  lemma FilterOrdersSpec(orders: seq<Order>, query: string, statusFilter: string)
    ensures forall o :: o in FilterOrders(orders, query, statusFilter) <==>
      o in orders && MatchesSearch(o, query) && MatchesStatus(o, statusFilter)
    ensures (forall i :: 0 <= i < |orders| ==> orders[i].dbId.Some?) ==> FilterOrders(orders, "", "all") == orders
  {
    forall o ensures o in FilterOrders(orders, query, statusFilter) <==> o in orders && Matches(query, statusFilter)(o) {
      FilterMember(orders, Matches(query, statusFilter), o);
    }
    if forall i :: 0 <= i < |orders| ==> orders[i].dbId.Some? {
      forall i | 0 <= i < |orders|
        ensures Matches("", "all")(orders[i])
      {
        ContainsEmpty(ToLower(orders[i].dbId.value));
      }
      FilterKeepsAll(orders, Matches("", "all"));
    }
  }

  // ---------------------------------------------------------------------------------------
  // Sort

  /**
   * `new Date(b.createdAt) - new Date(a.createdAt) <= 0`: `a` is at least as recent as `b`.
   * A date that does not parse makes the difference `NaN`, which a sort treats as a tie.
   */
  predicate NewerOrUndated(a: Order, b: Order) {
    a.createdAt.None? || b.createdAt.None? || a.createdAt.value.seconds >= b.createdAt.value.seconds
  }

  /** The comparator of `sortedOrders` read as "a may stand before b". */
  function OrderLe(sortBy: string): (Order, Order) -> bool {
    (a: Order, b: Order) =>
      if sortBy == "date" then NewerOrUndated(a, b)
      else if sortBy == "amount" then a.totalPrice >= b.totalPrice
      else if sortBy == "status" then LexLe(ListStatus(a), ListStatus(b))
      else true
  }

  /** `[...filteredOrders].sort(...)`. */
  function SortOrders(orders: seq<Order>, sortBy: string): seq<Order> {
    Sorting.Sort(orders, OrderLe(sortBy))
  }

  lemma OrderLeTotal(sortBy: string)
    ensures Sorting.Total(OrderLe(sortBy))
  {
    forall a: Order, b: Order ensures OrderLe(sortBy)(a, b) || OrderLe(sortBy)(b, a) {
      LexLeTotal(ListStatus(a), ListStatus(b));
    }
  }

  /**
   * Sorting rearranges the list without losing or adding orders, puts it in the chosen
   * order, and keeps it as it was for an unknown sort key.
   */
  lemma SortOrdersSpec(orders: seq<Order>, sortBy: string)
    ensures multiset(SortOrders(orders, sortBy)) == multiset(orders)
    ensures Sorting.Sorted(SortOrders(orders, sortBy), OrderLe(sortBy))
    ensures sortBy !in {"date", "amount", "status"} ==> SortOrders(orders, sortBy) == orders
  {
    OrderLeTotal(sortBy);
    Sorting.SortSorted(orders, OrderLe(sortBy));
    if sortBy !in {"date", "amount", "status"} {
      Sorting.SortAllTies(orders, OrderLe(sortBy));
    }
  }

  /** Every order is dated and each is at least as recent as the next. */
  predicate DatedNewestFirst(r: seq<Order>) {
    (forall i :: 0 <= i < |r| ==> r[i].createdAt.Some?)
    && forall i :: 0 < i < |r| ==> r[i - 1].createdAt.value.seconds >= r[i].createdAt.value.seconds
  }

  /** When every order has a date, sorting by date puts the newest first. */
  lemma SortByDateNewestFirst(orders: seq<Order>)
    requires forall i :: 0 <= i < |orders| ==> orders[i].createdAt.Some?
    ensures DatedNewestFirst(SortOrders(orders, "date"))
  {
    var r := SortOrders(orders, "date");
    SortOrdersSpec(orders, "date");
    forall i | 0 <= i < |r| ensures r[i].createdAt.Some? {
      assert r[i] in multiset(orders);
    }
  }
}
