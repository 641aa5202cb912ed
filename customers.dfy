/**
 * The customers list (`src/pages/Customers.jsx`): a customer's total spend, last order
 * date and activity status, the search, status filter and in-place sort of the list, and
 * the summary figures. "Now" is a parameter in seconds; thirty days are taken as
 * 30 * 86400 seconds.
 */
module CustomersPage {
  import opened Wrappers
  import opened Entities
  import opened Seqs
  import opened Text
  import Sorting
  import OrdersPage

  const ThirtyDays := 30 * 86400

  /** `calculateTotalSpent(orders)`: 0 without orders, else the sum of the order totals. */
  function TotalSpent(orders: Option<seq<Order>>): (r: real)
    ensures orders.None? || orders.value == [] ==> r == 0.0
    ensures orders.Some? ==> r == Sum(orders.value, PriceOf)
  {
    if orders.None? || |orders.value| == 0 then 0.0 else Sum(orders.value, PriceOf)
  }

  /** Spending is never negative when no order total is. */
  lemma TotalSpentNonNegative(orders: Option<seq<Order>>)
    requires orders.Some? ==> forall i :: 0 <= i < |orders.value| ==> PriceOf(orders.value[i]) >= 0.0
    ensures TotalSpent(orders) >= 0.0
  {
    if orders.Some? {
      SumNonNegative(orders.value, PriceOf);
    }
  }

  /** The order was placed within the thirty days before `now`. */
  function RecentTest(now: int): Order -> bool {
    (o: Order) => o.createdAt.Some? && o.createdAt.value.seconds > now - ThirtyDays
  }

  /** `getCustomerStatus(orders)`: "active" iff some order is less than thirty days old. */
  function CustomerStatus(orders: Option<seq<Order>>, now: int): (r: string)
    ensures r == "active" || r == "inactive"
    ensures r == "active" <==> orders.Some? && exists i :: 0 <= i < |orders.value| && RecentTest(now)(orders.value[i])
  {
    if orders.None? || |orders.value| == 0 then "inactive"
    else
      var recent := Filter(orders.value, RecentTest(now));
      assert |recent| > 0 <==> exists i :: 0 <= i < |orders.value| && RecentTest(now)(orders.value[i]) by {
        if |recent| > 0 {
          FilterMember(orders.value, RecentTest(now), recent[0]);
        }
        if exists i :: 0 <= i < |orders.value| && RecentTest(now)(orders.value[i]) {
          var i :| 0 <= i < |orders.value| && RecentTest(now)(orders.value[i]);
          FilterMember(orders.value, RecentTest(now), orders.value[i]);
        }
      }
      if |recent| > 0 then "active" else "inactive"
  }

  /**
   * `getLastOrderDate(orders)`: the `createdAt` of the first order after sorting newest
   * first; `None` when there are no orders (or that order has no date).
   */
  function LastOrderDate(orders: Option<seq<Order>>): (r: Option<Stamp>)
    ensures orders.None? || orders.value == [] ==> r.None?
  {
    if orders.None? || |orders.value| == 0 then None
    else Sorting.Sort(orders.value, OrdersPage.NewerOrUndated)[0].createdAt
  }

  /** Newest first by date, every order treated as dated. */
  predicate LaterOrSame(a: Order, b: Order) {
    SecondsOr0(a.createdAt) >= SecondsOr0(b.createdAt)
  }

  /** When every order has a date, the last order date is the latest of them. */
  lemma LastOrderDateIsLatest(orders: seq<Order>)
    requires orders != []
    requires forall i :: 0 <= i < |orders| ==> orders[i].createdAt.Some?
    ensures LastOrderDate(Some(orders)).Some?
    ensures exists k :: 0 <= k < |orders| && orders[k].createdAt == LastOrderDate(Some(orders))
    ensures forall i :: 0 <= i < |orders| ==> orders[i].createdAt.value.seconds <= LastOrderDate(Some(orders)).value.seconds
  {
    Sorting.SortAgrees(orders, OrdersPage.NewerOrUndated, LaterOrSame);
    var sorted := Sorting.Sort(orders, LaterOrSame);
    Sorting.SortSorted(orders, LaterOrSame);
    assert sorted[0] in multiset(orders);
    forall i | 0 <= i < |orders|
      ensures orders[i].createdAt.value.seconds <= sorted[0].createdAt.value.seconds
    {
      assert orders[i] in multiset(sorted);
      var k :| 0 <= k < |sorted| && sorted[k] == orders[i];
      Sorting.SortedFirst(sorted, LaterOrSame, k);
    }
  }

  // ---------------------------------------------------------------------------------------
  // Search, status filter and sort

  predicate MatchesSearch(c: Customer, query: string) {
    Contains(ToLower(c.name), ToLower(query)) || Contains(ToLower(c.email), ToLower(query))
  }

  predicate Listed(c: Customer, query: string, statusFilter: string, now: int) {
    c.name != "" && c.email != "" && MatchesSearch(c, query)
      && (statusFilter == "all" || CustomerStatus(c.orders, now) == statusFilter)
  }

  function ListedTest(query: string, statusFilter: string, now: int): Customer -> bool {
    (c: Customer) => Listed(c, query, statusFilter, now)
  }

  /** The `customers.filter(...)` step; `None` is a value that is not an array. */
  function FilterCustomers(customers: Option<seq<Customer>>, query: string, statusFilter: string, now: int): seq<Customer> {
    if customers.None? then [] else Filter(customers.value, ListedTest(query, statusFilter, now))
  }

  /** A customer is listed iff it has a name and an email, matches the search and the status filter. */
  lemma FilterCustomersSpec(customers: seq<Customer>, query: string, statusFilter: string, now: int)
    ensures forall c :: c in FilterCustomers(Some(customers), query, statusFilter, now) <==>
      c in customers && c.name != "" && c.email != "" && MatchesSearch(c, query)
      && (statusFilter == "all" || CustomerStatus(c.orders, now) == statusFilter)
    ensures FilterCustomers(None, query, statusFilter, now) == []
  {
    forall c ensures c in FilterCustomers(Some(customers), query, statusFilter, now) <==> c in customers && ListedTest(query, statusFilter, now)(c) {
      FilterMember(customers, ListedTest(query, statusFilter, now), c);
    }
  }

  /** `customer.orders?.length || 0`. */
  function OrderCount(c: Customer): nat {
    if c.orders.Some? then |c.orders.value| else 0
  }

  /** The comparator of the customer sort read as "a may stand before b". */
  function CustomerLe(sortBy: string): (Customer, Customer) -> bool {
    (a: Customer, b: Customer) =>
      if sortBy == "name" then LexLe(a.name, b.name)
      else if sortBy == "joinDate" then SecondsOr0(a.createdAt) >= SecondsOr0(b.createdAt)
      else if sortBy == "totalSpent" then TotalSpent(a.orders) >= TotalSpent(b.orders)
      else if sortBy == "totalOrders" then OrderCount(a) >= OrderCount(b)
      else true
  }

  lemma CustomerLeTotal(sortBy: string)
    ensures Sorting.Total(CustomerLe(sortBy))
  {
    forall a: Customer, b: Customer ensures CustomerLe(sortBy)(a, b) || CustomerLe(sortBy)(b, a) {
      LexLeTotal(a.name, b.name);
    }
  }

  /**
   * `filteredCustomers`: the listed customers, sorted in place. The result holds the same
   * customers, in the order the sort key asks for; an unknown key keeps the filtered order.
   */
  method FilteredCustomers(customers: Option<seq<Customer>>, query: string, statusFilter: string, sortBy: string, now: int)
    returns (r: seq<Customer>)
    ensures multiset(r) == multiset(FilterCustomers(customers, query, statusFilter, now))
    ensures Sorting.Sorted(r, CustomerLe(sortBy))
    ensures sortBy !in {"name", "joinDate", "totalSpent", "totalOrders"} ==> r == FilterCustomers(customers, query, statusFilter, now)
  {
    var filtered := FilterCustomers(customers, query, statusFilter, now);
    var a := new Customer[|filtered|](i requires 0 <= i < |filtered| => filtered[i]);
    assert a[..] == filtered;
    CustomerLeTotal(sortBy);
    Sorting.SortInPlace(a, CustomerLe(sortBy));
    r := a[..];
  }

  // ---------------------------------------------------------------------------------------
  // Summary figures

  datatype CustomerStats = CustomerStats(total: nat, active: nat, revenue: real, newThisMonth: nat)

  function ActiveTest(now: int): Customer -> bool {
    (c: Customer) => CustomerStatus(c.orders, now) == "active"
  }

  function JoinedTest(now: int): Customer -> bool {
    (c: Customer) => SecondsOr0(c.createdAt) > now - ThirtyDays
  }

  function SpentOf(c: Customer): real {
    TotalSpent(c.orders)
  }

  /** The two counts are the numbers of active customers and of customers who joined in the last thirty days. */
  lemma StatsCounts(cs: seq<Customer>, now: int)
    ensures Count(cs, ActiveTest(now)) == |set i | 0 <= i < |cs| && CustomerStatus(cs[i].orders, now) == "active"|
    ensures Count(cs, JoinedTest(now)) == |set i | 0 <= i < |cs| && SecondsOr0(cs[i].createdAt) > now - ThirtyDays|
  {
    CountIndices(cs, ActiveTest(now));
    assert Positions(cs, ActiveTest(now)) == set i | 0 <= i < |cs| && CustomerStatus(cs[i].orders, now) == "active";
    CountIndices(cs, JoinedTest(now));
    assert Positions(cs, JoinedTest(now)) == set i | 0 <= i < |cs| && SecondsOr0(cs[i].createdAt) > now - ThirtyDays;
  }

  /** `stats`; all zero when the customers value is not an array. */
  function Stats(customers: Option<seq<Customer>>, now: int): (r: CustomerStats)
    ensures customers.None? ==> r == CustomerStats(0, 0, 0.0, 0)
    ensures customers.Some? ==> r.total == |customers.value|
    ensures customers.Some? ==>
      r.active == |set i | 0 <= i < |customers.value| && CustomerStatus(customers.value[i].orders, now) == "active"|
    ensures customers.Some? ==>
      r.newThisMonth == |set i | 0 <= i < |customers.value| && SecondsOr0(customers.value[i].createdAt) > now - ThirtyDays|
    ensures r.active <= r.total && r.newThisMonth <= r.total
  {
    if customers.None? then CustomerStats(0, 0, 0.0, 0)
    else
      var cs := customers.value;
      StatsCounts(cs, now);
      CustomerStats(|cs|, Count(cs, ActiveTest(now)), Sum(cs, SpentOf), Count(cs, JoinedTest(now)))
  }

  /** The orders of all customers, customer by customer. */
  function AllOrders(customers: seq<Customer>): seq<Order> {
    if customers == [] then []
    else
      var last := customers[|customers| - 1];
      AllOrders(customers[..|customers| - 1]) + (if last.orders.Some? then last.orders.value else [])
  }

  /** The revenue figure is the sum of the totals of every customer's orders. */
  lemma {:induction false} RevenueIsOrderTotal(customers: seq<Customer>, now: int)
    ensures Stats(Some(customers), now).revenue == Sum(AllOrders(customers), PriceOf)
  {
    if customers != [] {
      var init := customers[..|customers| - 1];
      var last := customers[|customers| - 1];
      RevenueIsOrderTotal(init, now);
      SumAppend(AllOrders(init), if last.orders.Some? then last.orders.value else [], PriceOf);
    }
  }
}
