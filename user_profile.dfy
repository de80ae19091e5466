/**
 * The order history panel: it shows the signed-in user's stored ledger and lets a pending order
 * be cancelled, the only status change the storefront ever makes.
 */
module UserProfile {
  import opened Types
  import opened Storage

  /** The cancel control is shown only for pending orders. */
  predicate CancelOffered(o: Order)
  {
    o.status == Pending
  }

  function CancelOne(o: Order, orderId: string): Order
  {
    if o.id == orderId && o.status == Pending then o.(status := Cancelled) else o
  }

  /** The `map` of handleCancelOrder over the ledger. */
  function CancelledIn(orders: seq<Order>, orderId: string): seq<Order>
  {
    if orders == [] then [] else [CancelOne(orders[0], orderId)] + CancelledIn(orders[1..], orderId)
  }

  /**
   * Cancelling keeps the ledger's length and order. The pending order with the given id becomes
   * cancelled with every other field unchanged; every other order, and an order with that id in any
   * other status, stays exactly as it was.
   */
  lemma {:induction false} CancelTransition(orders: seq<Order>, orderId: string)
    ensures |CancelledIn(orders, orderId)| == |orders|
    ensures forall k :: 0 <= k < |orders| && orders[k].id == orderId && CancelOffered(orders[k]) ==>
      CancelledIn(orders, orderId)[k] == orders[k].(status := Cancelled)
    ensures forall k :: 0 <= k < |orders| && !(orders[k].id == orderId && CancelOffered(orders[k])) ==>
      CancelledIn(orders, orderId)[k] == orders[k]
  {
    if orders != [] {
      CancelTransition(orders[1..], orderId);
      var r := CancelledIn(orders, orderId);
      assert forall k :: 1 <= k < |orders| ==> r[k] == CancelledIn(orders[1..], orderId)[k - 1];
    }
  }

  /** The only status change is pending to cancelled; no other field of any order changes. */
  lemma CancelOnlyFromPending(orders: seq<Order>, orderId: string)
    ensures |CancelledIn(orders, orderId)| == |orders|
    ensures forall k :: 0 <= k < |orders| ==>
      var before, after := orders[k], CancelledIn(orders, orderId)[k];
      && after == before.(status := after.status)
      && (after.status == before.status || (before.status == Pending && after.status == Cancelled))
  {
    CancelTransition(orders, orderId);
  }

  /** A second cancel of the same id changes nothing. */
  lemma {:induction false} CancelIdempotent(orders: seq<Order>, orderId: string)
    ensures CancelledIn(CancelledIn(orders, orderId), orderId) == CancelledIn(orders, orderId)
  {
    if orders != [] {
      CancelIdempotent(orders[1..], orderId);
    }
  }

  /** Cancels of two ids can be applied in either order. */
  lemma {:induction false} CancelCommutes(orders: seq<Order>, a: string, b: string)
    ensures CancelledIn(CancelledIn(orders, a), b) == CancelledIn(CancelledIn(orders, b), a)
  {
    if orders != [] {
      CancelCommutes(orders[1..], a, b);
    }
  }

  /** A shipped order is not cancelled; a pending one is. */
  lemma CancelShippedAndPending(o: Order)
    ensures o.status == Shipped ==> CancelledIn([o], o.id) == [o]
    ensures o.status == Pending ==> CancelledIn([o], o.id) == [o.(status := Cancelled)]
  {
    assert [o][1..] == [];
  }

  /** The panel's state; `local` is the browser storage shared with checkout. */
  class OrderHistory {
    var orders: seq<Order>
    const local: LocalStorage

    /** The panel shows exactly the stored ledger of the given user (nothing when signed out). */
    ghost predicate Shows(user: Option<UserId>)
      reads this, local
    {
      orders == if user.Some? then local.SavedOrders(user.value) else []
    }

    constructor (local: LocalStorage)
      ensures this.local == local && orders == []
    {
      this.local := local;
      orders := [];
    }

    /**
     * The load effect as written: only a present stored ledger replaces the list; signing out, or a
     * user without a stored ledger, leaves the previous user's orders on display.
     */
    method LoadAsWritten(user: Option<UserId>)
      modifies this`orders
      ensures user.Some? && user.value in local.ledgers ==> orders == local.ledgers[user.value]
      ensures !(user.Some? && user.value in local.ledgers) ==> orders == old(orders)
    {
      if user.Some? && user.value in local.ledgers {
        orders := local.ledgers[user.value];
      }
    }

    /** The load effect corrected: the list is always the current user's stored ledger. */
    method Load(user: Option<UserId>)
      modifies this`orders
      ensures Shows(user)
    {
      if user.Some? {
        orders := local.SavedOrders(user.value);
      } else {
        orders := [];
      }
    }

    /** handleCancelOrder: a no-op when signed out; otherwise cancel in memory and store the whole list. */
    method CancelOrder(user: Option<UserId>, orderId: string)
      modifies this`orders, local`ledgers
      ensures user.None? ==> orders == old(orders) && local.ledgers == old(local.ledgers)
      ensures user.Some? ==> orders == CancelledIn(old(orders), orderId)
      ensures user.Some? ==> local.ledgers == old(local.ledgers)[user.value := orders]
      ensures old(Shows(user)) ==> Shows(user)
      ensures old(Shows(user)) && old(LedgersOwned(local.ledgers)) ==> LedgersOwned(local.ledgers)
    {
      if user.None? {
        return;
      }
      CancelOnlyFromPending(orders, orderId);
      ghost var before := orders;
      orders := CancelledIn(orders, orderId);
      assert forall k :: 0 <= k < |orders| ==> orders[k].userId == before[k].userId;
      local.ledgers := local.ledgers[user.value := orders];
    }
  }

  /**
   * With the load effect as written: a signs out, b (who has no stored ledger) signs in and opens
   * the panel, sees a's pending order, and cancelling it stores a's order in b's ledger.
   */
  method StaleLedgerScenario(a: UserId, b: UserId, o: Order) returns (local: LocalStorage, history: OrderHistory)
    requires a != b && o.userId == a && o.status == Pending
    ensures history.orders == [o.(status := Cancelled)]
    ensures local.ledgers == map[a := [o], b := [o.(status := Cancelled)]]
    ensures !LedgersOwned(local.ledgers)
  {
    local := new LocalStorage(map[], map[a := [o]]);
    history := new OrderHistory(local);
    history.LoadAsWritten(Some(a));
    history.LoadAsWritten(None);
    history.LoadAsWritten(Some(b));
    assert history.orders == [o];
    history.CancelOrder(Some(b), o.id);
    CancelShippedAndPending(o);
    assert local.ledgers[b][0].userId == a;
  }

  /** The same steps with the corrected load: b sees an empty list and every stored order stays with its owner. */
  method CorrectedLedgerScenario(a: UserId, b: UserId, o: Order) returns (local: LocalStorage, history: OrderHistory)
    requires a != b && o.userId == a && o.status == Pending
    ensures history.orders == []
    ensures LedgersOwned(local.ledgers)
  {
    local := new LocalStorage(map[], map[a := [o]]);
    history := new OrderHistory(local);
    history.Load(Some(a));
    history.Load(None);
    history.Load(Some(b));
    history.CancelOrder(Some(b), o.id);
  }
}
