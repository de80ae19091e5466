/** The browser's key/value storage, reduced to the two key families the storefront uses. */
module Storage {
  import opened Types

  /** Every stored order sits in the ledger of the user who placed it. */
  predicate LedgersOwned(ledgers: map<UserId, seq<Order>>)
  {
    forall u, k :: u in ledgers && 0 <= k < |ledgers[u]| ==> ledgers[u][k].userId == u
  }

  /** `carts[u]` stands for the key `cart_<u>`, `ledgers[u]` for `orders_<u>`; serialisation is not modelled. */
  class LocalStorage {
    var carts: map<UserId, seq<CartItem>>
    var ledgers: map<UserId, seq<Order>>

    constructor (carts: map<UserId, seq<CartItem>>, ledgers: map<UserId, seq<Order>>)
      ensures this.carts == carts && this.ledgers == ledgers
    {
      this.carts := carts;
      this.ledgers := ledgers;
    }

    /** The stored ledger of a user, or the empty list when the key is absent (`|| '[]'`). */
    function SavedOrders(user: UserId): seq<Order>
      reads this
    {
      if user in ledgers then ledgers[user] else []
    }
  }
}
