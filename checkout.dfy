/**
 * Placing an order: the cart is snapshotted into an order with frozen unit prices, the order is
 * put at the head of the user's stored ledger, and the cart is cleared.
 */
module Checkout {
  import opened Types
  import opened Pricing
  import opened Storage
  import opened CartContext

  /** The flat fast-delivery charge, applied once per order. */
  const FastDeliveryFee: real := 5.99

  /** Every order is recorded against this fixed address id. */
  const FixedAddressId: string := "addr_1"

  /** The state of the checkout form when the button is pressed. */
  datatype CheckoutForm = CheckoutForm(address: Address, fastDelivery: bool, paymentMethod: PaymentMethod)

  datatype PlaceOutcome =
    | Disabled      // the button is disabled: the handler never runs
    | NotSignedIn   // the handler returns at once
    | Crashed       // a row without a product snapshot makes the handler throw before any write
    | Placed(order: Order)

  /** The button is enabled only when street, city, state and postal code are all non-empty. */
  predicate PlaceOrderEnabled(a: Address)
  {
    a.street != "" && a.city != "" && a.state != "" && a.postalCode != ""
  }

  predicate FastEligible(item: CartItem)
  {
    item.product.Some? && item.product.value.fastDeliveryAvailable
  }

  /** `cart.some(...)`: whether the fast-delivery option is offered at all. */
  predicate HasFastDeliveryItems(cart: seq<CartItem>)
  {
    if cart == [] then false else FastEligible(cart[0]) || HasFastDeliveryItems(cart[1..])
  }

  /** The option is offered exactly when some row's snapshot allows fast delivery. */
  lemma {:induction false} HasFastDeliveryItemsIff(cart: seq<CartItem>)
    ensures HasFastDeliveryItems(cart) <==> exists k :: 0 <= k < |cart| && FastEligible(cart[k])
  {
    if cart != [] {
      HasFastDeliveryItemsIff(cart[1..]);
      if exists k :: 0 <= k < |cart| && FastEligible(cart[k]) {
        var k :| 0 <= k < |cart| && FastEligible(cart[k]);
        if k > 0 {
          assert cart[1..][k - 1] == cart[k];
        }
      }
      if exists k :: 0 <= k < |cart[1..]| && FastEligible(cart[1..][k]) {
        var k :| 0 <= k < |cart[1..]| && FastEligible(cart[1..][k]);
        assert cart[k + 1] == cart[1..][k];
      }
    }
  }

  function Fee(fastDelivery: bool): real
  {
    if fastDelivery then FastDeliveryFee else 0.0
  }

  /** The order total shown on the form: the cart total plus the fee. */
  function OrderTotal(cart: seq<CartItem>, fastDelivery: bool): real
  {
    Total(cart) + Fee(fastDelivery)
  }

  predicate AllHaveProducts(cart: seq<CartItem>)
  {
    forall k :: 0 <= k < |cart| ==> cart[k].product.Some?
  }

  /** The `map` over the cart: one item per row, its unit price frozen, the order id still empty. */
  function Snapshot(cart: seq<CartItem>, itemIds: seq<string>): seq<OrderItem>
    requires AllHaveProducts(cart) && |itemIds| == |cart|
  {
    seq(|cart|, k requires 0 <= k < |cart| =>
      OrderItem(itemIds[k], "", cart[k].productId, cart[k].quantity,
                EffectivePrice(cart[k].product.value), cart[k].product))
  }

  /** The items after the `forEach` has written the order id into each of them. */
  function Stamped(items: seq<OrderItem>, orderId: string): seq<OrderItem>
  {
    seq(|items|, k requires 0 <= k < |items| => items[k].(orderId := orderId))
  }

  /** The `forEach` that writes the new order's id into every item, one item at a time. */
  method StampOrderId(items: seq<OrderItem>, orderId: string) returns (stamped: seq<OrderItem>)
    ensures |stamped| == |items|
    ensures forall k :: 0 <= k < |items| ==> stamped[k].orderId == orderId
    ensures forall k :: 0 <= k < |items| ==> stamped[k] == items[k].(orderId := orderId)
  {
    stamped := items;
    var i := 0;
    while i < |stamped|
      invariant 0 <= i <= |stamped| == |items|
      invariant forall k :: 0 <= k < i ==> stamped[k] == items[k].(orderId := orderId)
      invariant forall k :: i <= k < |items| ==> stamped[k] == items[k]
    {
      stamped := stamped[i := stamped[i].(orderId := orderId)];
      i := i + 1;
    }
  }

  function PaymentStatusFor(m: PaymentMethod): PaymentStatus
  {
    if m == CashOnDelivery then PaymentPending else Paid
  }

  /** The order object the handler builds, with its items already stamped with its id. */
  function PlacedOrder(user: UserId, cart: seq<CartItem>, form: CheckoutForm,
                       orderId: string, itemIds: seq<string>, createdAt: string, updatedAt: string): Order
    requires AllHaveProducts(cart) && |itemIds| == |cart|
  {
    Order(orderId, user, FixedAddressId, OrderTotal(cart, form.fastDelivery), Pending,
          form.fastDelivery, Fee(form.fastDelivery), form.paymentMethod,
          PaymentStatusFor(form.paymentMethod), createdAt, updatedAt,
          Some(Stamped(Snapshot(cart, itemIds), orderId)))
  }

  /** Σ priceAtPurchase × quantity over the items, first to last. */
  function ItemsSubtotal(items: seq<OrderItem>): real
  {
    if items == [] then 0.0
    else ItemsSubtotal(items[..|items| - 1]) + items[|items| - 1].priceAtPurchase * (items[|items| - 1].quantity as real)
  }

  /** Items that copy each row's quantity and unit price add up to the cart total. */
  lemma {:induction false} SubtotalMatchesCart(items: seq<OrderItem>, cart: seq<CartItem>)
    requires |items| == |cart|
    requires forall k :: 0 <= k < |cart| ==>
      items[k].quantity == cart[k].quantity && items[k].priceAtPurchase == UnitPrice(cart[k])
    ensures ItemsSubtotal(items) == Total(cart)
  {
    if cart != [] {
      var n := |cart| - 1;
      assert forall k :: 0 <= k < n ==> items[..n][k] == items[k] && cart[..n][k] == cart[k];
      SubtotalMatchesCart(items[..n], cart[..n]);
      assert items[n].priceAtPurchase * (items[n].quantity as real) == LineTotal(cart[n]);
    }
  }

  /**
   * One item per cart row, in the same order, with the row's product id, quantity and snapshot,
   * the snapshot's discounted price frozen, a fresh item id, and the new order's id.
   */
  lemma PlacedOrderItems(user: UserId, cart: seq<CartItem>, form: CheckoutForm,
                         orderId: string, itemIds: seq<string>, createdAt: string, updatedAt: string)
    requires AllHaveProducts(cart) && |itemIds| == |cart|
    ensures var o := PlacedOrder(user, cart, form, orderId, itemIds, createdAt, updatedAt);
      && o.items.Some? && |o.items.value| == |cart|
      && forall k :: 0 <= k < |cart| ==>
        var it := o.items.value[k];
        && it.id == itemIds[k] && it.orderId == o.id
        && it.productId == cart[k].productId && it.quantity == cart[k].quantity
        && it.product == cart[k].product
        && it.priceAtPurchase == EffectivePrice(cart[k].product.value)
  {
  }

  /**
   * The total is the cart total plus the fee, and also the sum of the frozen item prices plus
   * the fee; the fee is 5.99 exactly when fast delivery was chosen, otherwise 0.
   */
  lemma PlacedOrderTotal(user: UserId, cart: seq<CartItem>, form: CheckoutForm,
                         orderId: string, itemIds: seq<string>, createdAt: string, updatedAt: string)
    requires AllHaveProducts(cart) && |itemIds| == |cart|
    ensures var o := PlacedOrder(user, cart, form, orderId, itemIds, createdAt, updatedAt);
      && o.totalAmount == Total(cart) + o.fastDeliveryFee
      && o.totalAmount == ItemsSubtotal(o.items.value) + o.fastDeliveryFee
      && o.fastDelivery == form.fastDelivery
      && o.fastDeliveryFee == (if form.fastDelivery then 5.99 else 0.0)
  {
    var items := Stamped(Snapshot(cart, itemIds), orderId);
    SubtotalMatchesCart(items, cart);
  }

  /** A new order is pending; it is paid by card, or awaits payment on delivery. */
  lemma PlacedOrderStatus(user: UserId, cart: seq<CartItem>, form: CheckoutForm,
                          orderId: string, itemIds: seq<string>, createdAt: string, updatedAt: string)
    requires AllHaveProducts(cart) && |itemIds| == |cart|
    ensures var o := PlacedOrder(user, cart, form, orderId, itemIds, createdAt, updatedAt);
      && o.status == Pending && o.userId == user && o.id == orderId
      && o.paymentMethod == form.paymentMethod
      && (o.paymentStatus == Paid <==> form.paymentMethod == Card)
      && (o.paymentStatus == PaymentPending <==> form.paymentMethod == CashOnDelivery)
  {
  }

  /**
   * The fee follows the checkbox state alone: it is charged even for a cart in which no row is
   * eligible, whenever the flag is still set (the option is merely not shown for such a cart).
   */
  lemma FeeFollowsFlagOnly(user: UserId, cart: seq<CartItem>, form: CheckoutForm,
                           orderId: string, itemIds: seq<string>, createdAt: string, updatedAt: string)
    requires AllHaveProducts(cart) && |itemIds| == |cart|
    requires form.fastDelivery && !HasFastDeliveryItems(cart)
    ensures PlacedOrder(user, cart, form, orderId, itemIds, createdAt, updatedAt).fastDeliveryFee == FastDeliveryFee
  {
  }

  /** Three Widgets at 50 with no discount and no fast delivery, paid by card: 150, no fee, pending, paid. */
  lemma WidgetOrder(widget: Product, user: UserId, address: Address)
    requires widget.price == 50.0 && widget.discountPercentage == 0.0
    ensures var cart := [CartItem("c1", user, widget.id, 3, Some(widget))];
      var o := PlacedOrder(user, cart, CheckoutForm(address, false, Card), "o1", ["i1"], "t", "t");
      && o.totalAmount == 150.0 && o.fastDeliveryFee == 0.0
      && o.status == Pending && o.paymentStatus == Paid
  {
    var cart := [CartItem("c1", user, widget.id, 3, Some(widget))];
    assert cart[..0] == [];
    assert Total(cart) == LineTotal(cart[0]);
  }

  /**
   * handlePlaceOrder. The ids and the two timestamps, which the source draws from the clock and a
   * random generator, are parameters: one fresh id for the order, one per cart row, and the
   * creation and update times read by the two separate `new Date()` calls.
   */
  method PlaceOrder(store: CartStore, form: CheckoutForm, orderId: string, itemIds: seq<string>, createdAt: string, updatedAt: string)
    returns (outcome: PlaceOutcome)
    requires store.Valid() && |itemIds| == |store.cart|
    modifies store`cart, store.local
    ensures store.Valid()
    ensures !PlaceOrderEnabled(form.address) ==> outcome == Disabled
    ensures PlaceOrderEnabled(form.address) && store.user.None? ==> outcome == NotSignedIn
    ensures PlaceOrderEnabled(form.address) && store.user.Some? && !AllHaveProducts(old(store.cart)) ==> outcome == Crashed
    ensures PlaceOrderEnabled(form.address) && store.user.Some? && AllHaveProducts(old(store.cart)) ==> outcome.Placed?
    ensures !outcome.Placed? ==>
      && store.cart == old(store.cart)
      && store.local.carts == old(store.local.carts)
      && store.local.ledgers == old(store.local.ledgers)
    ensures outcome.Placed? ==>
      && PlaceOrderEnabled(form.address) && store.user.Some? && AllHaveProducts(old(store.cart))
      && outcome.order == PlacedOrder(store.user.value, old(store.cart), form, orderId, itemIds, createdAt, updatedAt)
      && store.local.ledgers == old(store.local.ledgers)[store.user.value := [outcome.order] + old(store.local.SavedOrders(store.user.value))]
      && store.cart == []
      && store.local.carts == old(store.local.carts) - {store.user.value}
    ensures old(LedgersOwned(store.local.ledgers)) ==> LedgersOwned(store.local.ledgers)
  {
    if !PlaceOrderEnabled(form.address) {
      return Disabled;
    }
    if store.user.None? {
      return NotSignedIn;
    }
    var user := store.user.value;
    if !AllHaveProducts(store.cart) {
      return Crashed;
    }
    var items := Snapshot(store.cart, itemIds);
    var total := store.GetCartTotal() + Fee(form.fastDelivery);
    var order := Order(orderId, user, FixedAddressId, total, Pending,
                       form.fastDelivery, Fee(form.fastDelivery), form.paymentMethod,
                       PaymentStatusFor(form.paymentMethod), createdAt, updatedAt, Some(items));
    // The items are shared with the order object, so stamping them updates the order's items too.
    items := StampOrderId(items, order.id);
    order := order.(items := Some(items));
    assert items == Stamped(Snapshot(store.cart, itemIds), orderId);
    var existing := store.local.SavedOrders(user);
    store.local.ledgers := store.local.ledgers[user := [order] + existing];
    store.ClearCart();
    outcome := Placed(order);
  }
}
