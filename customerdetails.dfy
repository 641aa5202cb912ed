/**
 * The customer details page (`src/pages/CustomerDetails.jsx`): the customer's orders, the
 * five most recent of them as listed, and the average order value. The status names and
 * the total spend are those of `OrderDetailsPage.DetailStatus` and
 * `CustomersPage.TotalSpent`, which this page defines identically.
 */
module CustomerDetailsPage {
  import opened Wrappers
  import opened Entities
  import opened Seqs
  import CustomersPage

  /** `(customer || {}).orders || []`. */
  function OrdersOf(customer: Option<Customer>): seq<Order> {
    if customer.Some? && customer.value.orders.Some? then customer.value.orders.value else []
  }

  /** `orders.slice(0, 5)`. */
  function RecentOrders(orders: seq<Order>): seq<Order> {
    SliceTo(orders, 5)
  }

  /** The recent orders are the first `min(5, n)` orders, in their original order. */
  lemma RecentOrdersSpec(orders: seq<Order>)
    ensures |RecentOrders(orders)| == if |orders| < 5 then |orders| else 5
    ensures forall i :: 0 <= i < |RecentOrders(orders)| ==> RecentOrders(orders)[i] == orders[i]
    ensures |orders| <= 5 ==> RecentOrders(orders) == orders
  {
  }

  /** The "Average Order" figure before rounding: the total spend over the number of orders, or 0. */
  function AverageOrder(orders: seq<Order>): (r: real)
    ensures orders == [] ==> r == 0.0
  {
    if |orders| > 0 then CustomersPage.TotalSpent(Some(orders)) / |orders| as real else 0.0
  }

  /** The average times the number of orders gives back the total spend. */
  lemma AverageTimesCount(orders: seq<Order>)
    ensures AverageOrder(orders) * |orders| as real == CustomersPage.TotalSpent(Some(orders))
  {
  }

  /** With non-negative totals the average is non-negative. */
  lemma AverageNonNegative(orders: seq<Order>)
    requires forall i :: 0 <= i < |orders| ==> PriceOf(orders[i]) >= 0.0
    ensures AverageOrder(orders) >= 0.0
  {
    CustomersPage.TotalSpentNonNegative(Some(orders));
  }
}
