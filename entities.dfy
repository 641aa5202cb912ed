/**
 * The records the dashboard receives from its REST backend, reduced to the fields that
 * its logic reads. A JavaScript field that may be absent is an `Option` where the code
 * tells `undefined` apart from an empty value; where it only tests truthiness (`x || d`)
 * an empty string or 0 stands for "missing".
 */
module Entities {
  import opened Wrappers

  /**
   * A valid point in time: `seconds` since the epoch and the local calendar `month`
   * counted as `year * 12 + monthIndex`, so that `new Date(y, m - i, 1)` is `month - i`.
   */
  datatype Stamp = Stamp(seconds: int, month: int)

  /** `getFullYear()` of a month counted as `year * 12 + monthIndex`. */
  function YearOf(month: int): int { month / 12 }

  /** `getMonth()`: the index 0..11 of the month within its year. */
  function MonthIndexOf(month: int): int { month % 12 }

  /** Year and month index together identify the month: the two-field test is one equation. */
  lemma MonthFields(m1: int, m2: int)
    ensures (MonthIndexOf(m1) == MonthIndexOf(m2) && YearOf(m1) == YearOf(m2)) <==> m1 == m2
  {
  }

  /** `new Date(x || 0)` as seconds: a missing or unparseable date counts as the epoch. */
  function SecondsOr0(t: Option<Stamp>): int {
    if t.Some? then t.value.seconds else 0
  }

  /** JavaScript truthiness of an optional string: present and non-empty. */
  predicate Truthy(s: Option<string>) {
    s.Some? && s.value != ""
  }

  /** `s || ""`. */
  function TextOf(s: Option<string>): string {
    if s.Some? then s.value else ""
  }

  /** A product's `category`: missing (or empty), a plain name, or a populated category object. */
  datatype Category =
    | NoCategory
    | CategoryText(text: string)
    | CategoryObject(name: string, title: string, json: string)

  /** A product as the backend returns it; 0 stands for a missing number. */
  datatype Product = Product(
    dbId: Option<string>,
    altId: Option<string>,
    name: Option<string>,
    productName: string,
    title: string,
    category: Category,
    ratingsAverage: real,
    ratingsQuantity: int,
    stockQuantity: int,
    createdAt: Option<Stamp>)

  /** An order item's `product`: absent, an unpopulated id, or the populated product. */
  datatype ProductRef = NoProduct | ProductId(id: string) | Populated(product: Product)

  /** `if (item.product)`: an empty id string is falsy. */
  predicate HasProduct(r: ProductRef) {
    r.Populated? || (r.ProductId? && r.id != "")
  }

  /** One line of an order; `price` is 0 when missing, `quantity` may be missing. */
  datatype OrderItem = OrderItem(product: ProductRef, price: real, quantity: Option<int>)

  /** `item.quantity || 0`. */
  function QuantityOr0(item: OrderItem): int {
    if item.quantity.Some? then item.quantity.value else 0
  }

  /** `(item.price || 0) * (item.quantity || 0)`. */
  function ItemRevenue(item: OrderItem): real {
    item.price * QuantityOr0(item) as real
  }

  /** An order's `user`: absent, an unpopulated id string, or the populated user. */
  datatype UserRef =
    | NoUser
    | UserId(id: string)
    | UserObject(userId: Option<string>, name: Option<string>, email: Option<string>)

  /**
   * An order. `items` is `None` when `orderItems` is missing or not an array; `totalPrice`
   * is 0 when missing; `createdAt` is `None` when missing or not a valid date.
   */
  datatype Order = Order(
    id: Option<string>,
    dbId: Option<string>,
    user: UserRef,
    items: Option<seq<OrderItem>>,
    totalPrice: real,
    paymentStatus: string,
    status: string,
    isDelivered: bool,
    isPaid: bool,
    createdAt: Option<Stamp>)

  /** `order.orderItems` when it is an array, else no items. */
  function ItemsOf(o: Order): seq<OrderItem> {
    if o.items.Some? then o.items.value else []
  }

  /** The line items of all orders, order by order: the two nested `forEach` loops. */
  function LineItems(orders: seq<Order>): seq<OrderItem> {
    if orders == [] then [] else LineItems(orders[..|orders| - 1]) + ItemsOf(orders[|orders| - 1])
  }

  /** A customer (a user record); `orders` is `None` when missing or not an array. */
  datatype Customer = Customer(
    id: Option<string>,
    name: string,
    email: string,
    createdAt: Option<Stamp>,
    orders: Option<seq<Order>>)

  /** `order.totalPrice || 0`. */
  function PriceOf(o: Order): real { o.totalPrice }
}
