/**
 * The order details page (`src/pages/OrderDetails.jsx`): the status shown for one order,
 * the item count, the timeline steps, and the collapsible sections and failed images.
 * Here a paid order shows as "shipped" and a pending one as "pending".
 */
module OrderDetailsPage {
  import opened Wrappers
  import opened Entities
  import opened Seqs
  import OrdersPage
  import Dashboard
  import Text

  /** `getOrderStatus` of the details pages. */
  function DetailStatus(o: Order): (r: string)
    ensures r == "delivered" <==> o.isDelivered
    ensures r == "shipped" <==> !o.isDelivered && o.paymentStatus == "paid"
    ensures r == "pending" <==> !o.isDelivered && o.paymentStatus == "pending"
    ensures r == "processing" <==> !o.isDelivered && o.paymentStatus != "paid" && o.paymentStatus != "pending"
  {
    if o.isDelivered then "delivered"
    else if o.paymentStatus == "paid" then "shipped"
    else if o.paymentStatus == "pending" then "pending"
    else "processing"
  }

  /**
   * The list and the details name the same orders differently: both say "delivered" for the
   * same orders, the list's "cancelled" is the details' "pending", and a paid order the list
   * calls "processing" is "shipped" here.
   */
  lemma StatusNamesCorrespond(o: Order)
    ensures OrdersPage.ListStatus(o) == "delivered" <==> DetailStatus(o) == "delivered"
    ensures OrdersPage.ListStatus(o) == "cancelled" <==> DetailStatus(o) == "pending"
    ensures OrdersPage.ListStatus(o) == "processing" <==> DetailStatus(o) in {"shipped", "processing"}
  {
  }

  /** Some item has no `quantity` (it is `undefined`), which turns the sum into `NaN`. */
  predicate SomeQuantityMissing(items: seq<OrderItem>) {
    exists i :: 0 <= i < |items| && items[i].quantity.None?
  }

  /**
   * `order.orderItems?.reduce((sum, item) => sum + item.quantity, 0) || 0`: an absent
   * (`undefined`) quantity makes the sum `NaN`, and `NaN || 0` is 0.
   */
  function TotalItems(o: Order): (r: int)
    ensures ItemsOf(o) == [] ==> r == 0
    ensures SomeQuantityMissing(ItemsOf(o)) ==> r == 0
  {
    if o.items.None? || SomeQuantityMissing(o.items.value) then 0
    else SumInt(o.items.value, QuantityOr0)
  }

  /**
   * When every item has a quantity this page and the dashboard's recent orders count the
   * same items; a single missing quantity makes this page show 0.
   */
  lemma TotalItemsMatchesDashboard(o: Order)
    ensures !SomeQuantityMissing(ItemsOf(o)) ==> TotalItems(o) == Dashboard.ItemCount(o)
  {
  }

  /** The payment step is lit unless the order shows as pending. */
  predicate PaymentActive(status: string) { status != "pending" }

  /** The shipping step is lit once the order shows as shipped or delivered. */
  predicate ShippingActive(status: string) { status == "shipped" || status == "delivered" }

  /** The delivery step is lit once the order shows as delivered. */
  predicate DeliveryActive(status: string) { status == "delivered" }

  /**
   * The steps light up in order: a lit delivery step implies a lit shipping step, which
   * implies a lit payment step; and the payment step is dark exactly for undelivered orders
   * whose payment is pending.
   */
  lemma TimelineInOrder(o: Order)
    ensures DeliveryActive(DetailStatus(o)) ==> ShippingActive(DetailStatus(o))
    ensures ShippingActive(DetailStatus(o)) ==> PaymentActive(DetailStatus(o))
    ensures !PaymentActive(DetailStatus(o)) <==> !o.isDelivered && o.paymentStatus == "pending"
    ensures ShippingActive(DetailStatus(o)) <==> o.isDelivered || o.paymentStatus == "paid"
  {
  }

  /** `{ ...prev, [section]: !prev[section] }`: an unknown section reads as `undefined` and becomes `true`. */
  function Toggled(m: map<string, bool>, section: string): (r: map<string, bool>)
    ensures section in r && r[section] == !(section in m && m[section])
    ensures forall k :: k != section ==> (k in r <==> k in m) && (k in m ==> r[k] == m[k])
  {
    m[section := !(section in m && m[section])]
  }

  /** Toggling a known section twice restores it. */
  lemma ToggleTwice(m: map<string, bool>, section: string)
    requires section in m
    ensures Toggled(Toggled(m, section), section) == m
  {
    var r := Toggled(Toggled(m, section), section);
    assert forall k :: k in r <==> k in m;
  }

  /** `` `${item._id}-${index}` ``: the key under which a failed thumbnail is recorded. */
  function ThumbnailKey(itemId: string, index: nat): string {
    itemId + "-" + Text.NatToString(index)
  }

  const Sections: seq<string> := ["products", "customer", "shipping", "payment", "timeline"]

  /** The page's own state: which sections are open and which images failed to load. */
  class OrderView {
    var expanded: map<string, bool>
    var imageErrors: set<string>

    /** Every section open, no failed image. */
    constructor ()
      ensures forall k :: k in expanded <==> k in Sections
      ensures forall k :: k in expanded ==> expanded[k]
      ensures imageErrors == {}
    {
      expanded := map["products" := true, "customer" := true, "shipping" := true, "payment" := true, "timeline" := true];
      imageErrors := {};
    }

    /** `toggleSection(section)`. */
    method ToggleSection(section: string)
      modifies this
      ensures expanded == Toggled(old(expanded), section)
      ensures imageErrors == old(imageErrors)
    {
      expanded := expanded[section := !(section in expanded && expanded[section])];
    }

    /** An image's `onError`: its key is added to the failed set. */
    method ImageFailed(key: string)
      modifies this
      ensures imageErrors == old(imageErrors) + {key}
      ensures expanded == old(expanded)
    {
      imageErrors := imageErrors + {key};
    }
  }
}
