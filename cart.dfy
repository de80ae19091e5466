/**
 * The cart store: a list of cart rows keyed by product id, scoped to the signed-in user and
 * copied to local storage under that user's key.
 */
module CartContext {
  import opened Types
  import opened Pricing
  import opened Seqs
  import opened Storage

  // ---------------------------------------------------------------------------------------------
  // Invariants of a cart list

  /** At most one row per product. */
  predicate UniqueProducts(cart: seq<CartItem>)
  {
    forall i, j :: 0 <= i < |cart| && 0 <= j < |cart| && cart[i].productId == cart[j].productId ==> i == j
  }

  /** Every row holds at least one unit. */
  predicate AllPositive(cart: seq<CartItem>)
  {
    forall k :: 0 <= k < |cart| ==> cart[k].quantity >= 1
  }

  predicate HasProduct(cart: seq<CartItem>, pid: ProductId)
  {
    exists k :: 0 <= k < |cart| && cart[k].productId == pid
  }

  /** What the store keeps under the `cart_<user>` keys: never an empty list, never a duplicate product. */
  predicate StoredWellFormed(stored: map<UserId, seq<CartItem>>)
  {
    forall u :: u in stored ==> stored[u] != [] && UniqueProducts(stored[u])
  }

  predicate StoredPositive(stored: map<UserId, seq<CartItem>>)
  {
    forall u :: u in stored ==> AllPositive(stored[u])
  }

  // ---------------------------------------------------------------------------------------------
  // The list transforms that the store's updaters apply

  /** The `map` of addToCart: every row for pid gets delta more units. */
  function Bumped(cart: seq<CartItem>, pid: ProductId, delta: int): seq<CartItem>
  {
    seq(|cart|, k requires 0 <= k < |cart| =>
      if cart[k].productId == pid then cart[k].(quantity := cart[k].quantity + delta) else cart[k])
  }

  /** The updater of addToCart: merge into the existing row, or append a new row with a snapshot. */
  function WithAdded(cart: seq<CartItem>, product: Product, quantity: int, id: string, user: UserId): seq<CartItem>
  {
    if HasProduct(cart, product.id) then Bumped(cart, product.id, quantity)
    else cart + [CartItem(id, user, product.id, quantity, Some(product))]
  }

  function NotFor(pid: ProductId): CartItem -> bool
  {
    (item: CartItem) => item.productId != pid
  }

  /** The updater of removeFromCart: keep the rows of every other product. */
  function Without(cart: seq<CartItem>, pid: ProductId): seq<CartItem>
  {
    Filter(cart, NotFor(pid))
  }

  /** The `map` of updateQuantity: every row for pid gets the new quantity. */
  function WithQuantity(cart: seq<CartItem>, pid: ProductId, quantity: int): seq<CartItem>
  {
    seq(|cart|, k requires 0 <= k < |cart| =>
      if cart[k].productId == pid then cart[k].(quantity := quantity) else cart[k])
  }

  /** What updateQuantity does to the list: a quantity of zero or less removes the row. */
  function QuantitySet(cart: seq<CartItem>, pid: ProductId, quantity: int): seq<CartItem>
  {
    if quantity <= 0 then Without(cart, pid) else WithQuantity(cart, pid, quantity)
  }

  // ---------------------------------------------------------------------------------------------
  // What the transforms do

  /**
   * addToCart on a product already in the cart changes only that row, by `quantity` units;
   * on an absent product it appends exactly one row carrying the product snapshot.
   */
  lemma AddToCartShape(cart: seq<CartItem>, product: Product, quantity: int, id: string, user: UserId)
    requires UniqueProducts(cart)
    ensures forall k :: 0 <= k < |cart| && cart[k].productId == product.id ==>
      WithAdded(cart, product, quantity, id, user) == cart[k := cart[k].(quantity := cart[k].quantity + quantity)]
    ensures !HasProduct(cart, product.id) ==>
      WithAdded(cart, product, quantity, id, user) == cart + [CartItem(id, user, product.id, quantity, Some(product))]
  {
    forall k | 0 <= k < |cart| && cart[k].productId == product.id
      ensures WithAdded(cart, product, quantity, id, user) == cart[k := cart[k].(quantity := cart[k].quantity + quantity)]
    {
      assert HasProduct(cart, product.id);
    }
  }

  /** addToCart keeps one row per product, and keeps every quantity positive when the added quantity is. */
  lemma AddToCartKeepsInvariant(cart: seq<CartItem>, product: Product, quantity: int, id: string, user: UserId)
    requires UniqueProducts(cart)
    ensures UniqueProducts(WithAdded(cart, product, quantity, id, user))
    ensures AllPositive(cart) && quantity >= 1 ==> AllPositive(WithAdded(cart, product, quantity, id, user))
  {
  }

  /** Adding the same product twice, a then b units, gives one row of a + b units, never two rows. */
  lemma AddTwiceMerges(cart: seq<CartItem>, product: Product, a: int, b: int, id1: string, id2: string, user: UserId)
    requires UniqueProducts(cart) && !HasProduct(cart, product.id)
    ensures WithAdded(WithAdded(cart, product, a, id1, user), product, b, id2, user)
         == cart + [CartItem(id1, user, product.id, a + b, Some(product))]
  {
    var once := WithAdded(cart, product, a, id1, user);
    AddToCartShape(cart, product, a, id1, user);
    AddToCartKeepsInvariant(cart, product, a, id1, user);
    AddToCartShape(once, product, b, id2, user);
    assert once[|cart|].productId == product.id;
  }

  /**
   * removeFromCart keeps exactly the rows of the other products, in order; with one row per product,
   * that is the cart minus the one row for pid, or the cart itself when pid is absent.
   */
  lemma RemoveFromCartShape(cart: seq<CartItem>, pid: ProductId)
    ensures IsSubsequence(Without(cart, pid), cart)
    ensures forall x :: x in Without(cart, pid) <==> x in cart && x.productId != pid
    ensures !HasProduct(cart, pid) ==> Without(cart, pid) == cart
    ensures UniqueProducts(cart) ==>
      forall k :: 0 <= k < |cart| && cart[k].productId == pid ==> Without(cart, pid) == cart[..k] + cart[k + 1..]
  {
    FilterIsSubsequence(cart, NotFor(pid));
    forall x ensures x in Without(cart, pid) <==> x in cart && x.productId != pid {
      FilterMembership(cart, NotFor(pid), x);
    }
    if !HasProduct(cart, pid) {
      FilterAllKept(cart, NotFor(pid));
    }
    if UniqueProducts(cart) {
      forall k | 0 <= k < |cart| && cart[k].productId == pid
        ensures Without(cart, pid) == cart[..k] + cart[k + 1..]
      {
        FilterDropsOne(cart, NotFor(pid), k);
      }
    }
  }

  /** Deleting one row keeps one row per product and positive quantities. */
  lemma DeleteKeepsInvariant(cart: seq<CartItem>, k: nat)
    requires UniqueProducts(cart) && k < |cart|
    ensures UniqueProducts(cart[..k] + cart[k + 1..])
    ensures AllPositive(cart) ==> AllPositive(cart[..k] + cart[k + 1..])
  {
    var r := cart[..k] + cart[k + 1..];
    assert forall i :: 0 <= i < |r| ==> r[i] == cart[if i < k then i else i + 1];
  }

  /** removeFromCart keeps both invariants. */
  lemma RemoveFromCartKeepsInvariant(cart: seq<CartItem>, pid: ProductId)
    requires UniqueProducts(cart)
    ensures UniqueProducts(Without(cart, pid))
    ensures AllPositive(cart) ==> AllPositive(Without(cart, pid))
  {
    RemoveFromCartShape(cart, pid);
    if HasProduct(cart, pid) {
      var k :| 0 <= k < |cart| && cart[k].productId == pid;
      DeleteKeepsInvariant(cart, k);
    }
  }

  /**
   * updateQuantity with a quantity of zero or less is removeFromCart; otherwise it overwrites the
   * quantity of the row for pid and changes nothing else (nothing at all when pid is absent).
   */
  lemma UpdateQuantityShape(cart: seq<CartItem>, pid: ProductId, quantity: int)
    requires UniqueProducts(cart)
    ensures quantity <= 0 ==> QuantitySet(cart, pid, quantity) == Without(cart, pid)
    ensures quantity > 0 ==> forall k :: 0 <= k < |cart| && cart[k].productId == pid ==>
      QuantitySet(cart, pid, quantity) == cart[k := cart[k].(quantity := quantity)]
    ensures !HasProduct(cart, pid) ==> QuantitySet(cart, pid, quantity) == cart
  {
    if !HasProduct(cart, pid) {
      RemoveFromCartShape(cart, pid);
    }
  }

  /** updateQuantity keeps one row per product and every quantity positive. */
  lemma UpdateQuantityKeepsInvariant(cart: seq<CartItem>, pid: ProductId, quantity: int)
    requires UniqueProducts(cart)
    ensures UniqueProducts(QuantitySet(cart, pid, quantity))
    ensures AllPositive(cart) ==> AllPositive(QuantitySet(cart, pid, quantity))
  {
    RemoveFromCartKeepsInvariant(cart, pid);
  }

  // ---------------------------------------------------------------------------------------------
  // Totals: the two `reduce` folds, from the first row to the last

  /** The discounted unit price of a row's snapshot; a row without a snapshot is worth nothing. */
  function UnitPrice(item: CartItem): real
  {
    if item.product.Some? then EffectivePrice(item.product.value) else 0.0
  }

  function LineTotal(item: CartItem): real
  {
    UnitPrice(item) * (item.quantity as real)
  }

  /** getCartTotal. */
  function Total(cart: seq<CartItem>): real
  {
    if cart == [] then 0.0 else Total(cart[..|cart| - 1]) + LineTotal(cart[|cart| - 1])
  }

  /** getCartCount. */
  function Count(cart: seq<CartItem>): int
  {
    if cart == [] then 0 else Count(cart[..|cart| - 1]) + cart[|cart| - 1].quantity
  }

  /** The total of a concatenation is the sum of the totals. */
  lemma {:induction false} TotalAppend(a: seq<CartItem>, b: seq<CartItem>)
    ensures Total(a + b) == Total(a) + Total(b)
    decreases |b|
  {
    if b == [] {
      assert a + b == a;
    } else {
      var b' := b[..|b| - 1];
      assert (a + b)[..|a + b| - 1] == a + b';
      TotalAppend(a, b');
    }
  }

  lemma {:induction false} CountAppend(a: seq<CartItem>, b: seq<CartItem>)
    ensures Count(a + b) == Count(a) + Count(b)
    decreases |b|
  {
    if b == [] {
      assert a + b == a;
    } else {
      var b' := b[..|b| - 1];
      assert (a + b)[..|a + b| - 1] == a + b';
      CountAppend(a, b');
    }
  }

  lemma TotalOfOne(x: CartItem)
    ensures Total([x]) == LineTotal(x) && Count([x]) == x.quantity
  {
    assert [x][..0] == [];
  }

  /** Replacing one row changes the total by the difference of the two line totals, and likewise the count. */
  lemma TotalReplace(cart: seq<CartItem>, k: nat, x: CartItem)
    requires k < |cart|
    ensures Total(cart[k := x]) == Total(cart) - LineTotal(cart[k]) + LineTotal(x)
    ensures Count(cart[k := x]) == Count(cart) - cart[k].quantity + x.quantity
  {
    var pre, post := cart[..k], cart[k + 1..];
    assert cart == pre + [cart[k]] + post;
    assert cart[k := x] == pre + [x] + post;
    TotalAppend(pre + [cart[k]], post);
    TotalAppend(pre, [cart[k]]);
    TotalAppend(pre + [x], post);
    TotalAppend(pre, [x]);
    CountAppend(pre + [cart[k]], post);
    CountAppend(pre, [cart[k]]);
    CountAppend(pre + [x], post);
    CountAppend(pre, [x]);
    TotalOfOne(cart[k]);
    TotalOfOne(x);
  }

  lemma AddToPresentTotals(cart: seq<CartItem>, product: Product, quantity: int, id: string, user: UserId, k: nat)
    requires UniqueProducts(cart) && k < |cart| && cart[k].productId == product.id
    ensures Count(WithAdded(cart, product, quantity, id, user)) == Count(cart) + quantity
    ensures Total(WithAdded(cart, product, quantity, id, user)) == Total(cart) + UnitPrice(cart[k]) * (quantity as real)
  {
    AddToCartShape(cart, product, quantity, id, user);
    ReplaceGrows(cart, k, quantity);
  }

  lemma ReplaceGrows(cart: seq<CartItem>, k: nat, q: int)
    requires k < |cart|
    ensures Count(cart[k := cart[k].(quantity := cart[k].quantity + q)]) == Count(cart) + q
    ensures Total(cart[k := cart[k].(quantity := cart[k].quantity + q)]) == Total(cart) + UnitPrice(cart[k]) * (q as real)
  {
    var x := cart[k].(quantity := cart[k].quantity + q);
    TotalReplace(cart, k, x);
    LineTotalGrows(cart[k], q);
  }

  /** A row with q more units is worth q more times its unit price. */
  lemma LineTotalGrows(item: CartItem, q: int)
    ensures LineTotal(item.(quantity := item.quantity + q)) == LineTotal(item) + UnitPrice(item) * (q as real)
  {
    var u, q0 := UnitPrice(item), item.quantity as real;
    assert UnitPrice(item.(quantity := item.quantity + q)) == u;
    assert ((item.quantity + q) as real) == q0 + q as real;
    assert u * (q0 + q as real) == u * q0 + u * (q as real);
  }

  lemma AddToAbsentTotals(cart: seq<CartItem>, product: Product, quantity: int, id: string, user: UserId)
    requires !HasProduct(cart, product.id)
    ensures Count(WithAdded(cart, product, quantity, id, user)) == Count(cart) + quantity
    ensures Total(WithAdded(cart, product, quantity, id, user)) == Total(cart) + EffectivePrice(product) * (quantity as real)
  {
    var item := CartItem(id, user, product.id, quantity, Some(product));
    TotalAppend(cart, [item]);
    CountAppend(cart, [item]);
    TotalOfOne(item);
  }

  /**
   * Adding q units raises the count by q. The total rises by q times the unit price of the row's
   * snapshot: the snapshot taken when the row was created, or the given product for a new row.
   */
  lemma AddToCartTotals(cart: seq<CartItem>, product: Product, quantity: int, id: string, user: UserId)
    requires UniqueProducts(cart)
    ensures Count(WithAdded(cart, product, quantity, id, user)) == Count(cart) + quantity
    ensures !HasProduct(cart, product.id) ==>
      Total(WithAdded(cart, product, quantity, id, user)) == Total(cart) + EffectivePrice(product) * (quantity as real)
    ensures forall k :: 0 <= k < |cart| && cart[k].productId == product.id ==>
      Total(WithAdded(cart, product, quantity, id, user)) == Total(cart) + UnitPrice(cart[k]) * (quantity as real)
  {
    if HasProduct(cart, product.id) {
      var k :| 0 <= k < |cart| && cart[k].productId == product.id;
      AddToPresentTotals(cart, product, quantity, id, user, k);
      forall j | 0 <= j < |cart| && cart[j].productId == product.id
        ensures Total(WithAdded(cart, product, quantity, id, user)) == Total(cart) + UnitPrice(cart[j]) * (quantity as real)
      {
        AddToPresentTotals(cart, product, quantity, id, user, j);
      }
    } else {
      AddToAbsentTotals(cart, product, quantity, id, user);
    }
  }

  /** Deleting the row at k lowers the total by its line total. */
  lemma TotalDeleteOne(cart: seq<CartItem>, k: nat)
    requires k < |cart|
    ensures Total(cart[..k] + cart[k + 1..]) == Total(cart) - LineTotal(cart[k])
  {
    var pre, x, post := cart[..k], cart[k], cart[k + 1..];
    SplitAt(cart, k);
    assert Total(cart) == Total(pre + [x]) + Total(post) by {
      TotalAppend(pre + [x], post);
    }
    assert Total(pre + [x]) == Total(pre) + LineTotal(x) by {
      TotalAppend(pre, [x]);
      TotalOfOne(x);
    }
    assert Total(pre + post) == Total(pre) + Total(post) by {
      TotalAppend(pre, post);
    }
  }

  /** Deleting the row at k lowers the count by its quantity. */
  lemma CountDeleteOne(cart: seq<CartItem>, k: nat)
    requires k < |cart|
    ensures Count(cart[..k] + cart[k + 1..]) == Count(cart) - cart[k].quantity
  {
    var pre, x, post := cart[..k], cart[k], cart[k + 1..];
    SplitAt(cart, k);
    assert Count(cart) == Count(pre + [x]) + Count(post) by {
      CountAppend(pre + [x], post);
    }
    assert Count(pre + [x]) == Count(pre) + x.quantity by {
      CountAppend(pre, [x]);
      TotalOfOne(x);
    }
    assert Count(pre + post) == Count(pre) + Count(post) by {
      CountAppend(pre, post);
    }
  }

  /** Removing the row for pid lowers the total by its line total and the count by its quantity. */
  lemma RemoveFromCartTotals(cart: seq<CartItem>, pid: ProductId, k: nat)
    requires UniqueProducts(cart) && k < |cart| && cart[k].productId == pid
    ensures Total(Without(cart, pid)) == Total(cart) - LineTotal(cart[k])
    ensures Count(Without(cart, pid)) == Count(cart) - cart[k].quantity
  {
    RemoveFromCartShape(cart, pid);
    assert Without(cart, pid) == cart[..k] + cart[k + 1..];
    TotalDeleteOne(cart, k);
    CountDeleteOne(cart, k);
  }

  /** Every snapshot has a non-negative price and a discount between 0 and 100. */
  predicate WellPriced(cart: seq<CartItem>)
  {
    forall k :: 0 <= k < |cart| && cart[k].product.Some? ==>
      cart[k].product.value.price >= 0.0 && 0.0 <= cart[k].product.value.discountPercentage <= 100.0
  }

  /** With sensible prices and quantities the total is never negative; the empty cart totals 0. */
  lemma {:induction false} TotalNonNegative(cart: seq<CartItem>)
    requires WellPriced(cart) && AllPositive(cart)
    ensures Total(cart) >= 0.0
    ensures cart == [] ==> Total(cart) == 0.0
  {
    if cart != [] {
      var last := cart[|cart| - 1];
      TotalNonNegative(cart[..|cart| - 1]);
      if last.product.Some? {
        EffectivePriceBounds(last.product.value);
      }
      assert UnitPrice(last) >= 0.0 && (last.quantity as real) >= 0.0;
      assert LineTotal(last) >= 0.0;
    }
  }

  /** Two units at 100 with a 10% discount total 180; a row without a snapshot adds nothing to the total but counts. */
  lemma TotalExample(p: Product, user: UserId)
    requires p.price == 100.0 && p.discountPercentage == 10.0
    ensures Total([CartItem("c1", user, p.id, 2, Some(p))]) == 180.0
    ensures Total([CartItem("c1", user, p.id, 2, None)]) == 0.0
    ensures Count([CartItem("c1", user, p.id, 2, None)]) == 2
  {
    TotalOfOne(CartItem("c1", user, p.id, 2, Some(p)));
    TotalOfOne(CartItem("c1", user, p.id, 2, None));
  }

  /** The badge count is at least the number of rows. */
  lemma {:induction false} CountAtLeastRows(cart: seq<CartItem>)
    requires AllPositive(cart)
    ensures Count(cart) >= |cart|
  {
    if cart != [] {
      CountAtLeastRows(cart[..|cart| - 1]);
    }
  }

  // ---------------------------------------------------------------------------------------------
  // Persistence

  /** The effect that copies the cart to storage: written only for a signed-in user and a non-empty cart. */
  function Persisted(stored: map<UserId, seq<CartItem>>, user: Option<UserId>, cart: seq<CartItem>): map<UserId, seq<CartItem>>
  {
    if user.Some? && |cart| > 0 then stored[user.value := cart] else stored
  }

  /** Persisting keeps the stored carts well formed, and an emptied cart leaves the stored copy in place. */
  lemma PersistedKeepsStored(stored: map<UserId, seq<CartItem>>, user: Option<UserId>, cart: seq<CartItem>)
    requires StoredWellFormed(stored) && UniqueProducts(cart)
    ensures StoredWellFormed(Persisted(stored, user, cart))
    ensures StoredPositive(stored) && AllPositive(cart) ==> StoredPositive(Persisted(stored, user, cart))
    ensures cart == [] ==> Persisted(stored, user, cart) == stored
  {
  }

  /** The cart provider's state; `local` is the browser storage it shares with the rest of the app. */
  class CartStore {
    var user: Option<UserId>
    var cart: seq<CartItem>
    const local: LocalStorage

    ghost predicate Valid()
      reads this, local
    {
      UniqueProducts(cart) && StoredWellFormed(local.carts)
    }

    /** Quantities are at least one in memory and in storage. */
    ghost predicate Positive()
      reads this, local
    {
      AllPositive(cart) && StoredPositive(local.carts)
    }

    /** The provider before any user is seen: an empty cart over whatever the browser had stored. */
    constructor (local: LocalStorage)
      requires StoredWellFormed(local.carts)
      ensures Valid() && this.local == local
      ensures user == None && cart == []
      ensures StoredPositive(local.carts) ==> Positive()
    {
      this.local := local;
      user := None;
      cart := [];
    }

    /** The persistence effect at lines 32-36. */
    method Persist()
      requires Valid()
      modifies local`carts
      ensures Valid()
      ensures local.carts == Persisted(old(local.carts), user, cart)
      ensures old(Positive()) ==> Positive()
    {
      PersistedKeepsStored(local.carts, user, cart);
      if user.Some? && |cart| > 0 {
        local.carts := local.carts[user.value := cart];
      }
    }

    /**
     * The auth user changed: load that user's stored cart if there is one (otherwise keep the
     * current list), empty the cart on sign-out, then run the persistence effect.
     */
    method SwitchUser(newUser: Option<UserId>)
      requires Valid()
      modifies this`user, this`cart, local`carts
      ensures Valid() && user == newUser
      ensures newUser.None? ==> cart == []
      ensures newUser.Some? && newUser.value in old(local.carts) ==> cart == old(local.carts)[newUser.value]
      ensures newUser.Some? && newUser.value !in old(local.carts) ==> cart == old(cart)
      ensures local.carts == Persisted(old(local.carts), newUser, cart)
      ensures old(Positive()) ==> Positive()
    {
      user := newUser;
      if newUser.Some? {
        if newUser.value in local.carts {
          cart := local.carts[newUser.value];
        }
      } else {
        cart := [];
      }
      Persist();
    }

    /** addToCart(product, quantity): ignored without a user; otherwise merge or append, then persist. */
    method AddToCart(product: Product, quantity: int, freshId: string)
      requires Valid()
      modifies this`cart, local`carts
      ensures Valid()
      ensures user.None? ==> cart == old(cart) && local.carts == old(local.carts)
      ensures user.Some? ==> cart == WithAdded(old(cart), product, quantity, freshId, user.value)
      ensures local.carts == Persisted(old(local.carts), user, cart)
      ensures old(Positive()) && quantity >= 1 ==> Positive()
    {
      if user.None? {
        return;
      }
      AddToCartKeepsInvariant(cart, product, quantity, freshId, user.value);
      cart := WithAdded(cart, product, quantity, freshId, user.value);
      Persist();
    }

    /** removeFromCart(pid): drop the rows for pid, then persist. */
    method RemoveFromCart(pid: ProductId)
      requires Valid()
      modifies this`cart, local`carts
      ensures Valid()
      ensures cart == Without(old(cart), pid)
      ensures local.carts == Persisted(old(local.carts), user, cart)
      ensures old(Positive()) ==> Positive()
    {
      RemoveFromCartKeepsInvariant(cart, pid);
      cart := Without(cart, pid);
      Persist();
    }

    /** updateQuantity(pid, quantity): remove when quantity <= 0, otherwise overwrite it, then persist. */
    method UpdateQuantity(pid: ProductId, quantity: int)
      requires Valid()
      modifies this`cart, local`carts
      ensures Valid()
      ensures cart == QuantitySet(old(cart), pid, quantity)
      ensures local.carts == Persisted(old(local.carts), user, cart)
      ensures old(Positive()) ==> Positive()
    {
      if quantity <= 0 {
        RemoveFromCart(pid);
        return;
      }
      UpdateQuantityKeepsInvariant(cart, pid, quantity);
      cart := WithQuantity(cart, pid, quantity);
      Persist();
    }

    /** clearCart: empty the list and delete the user's stored cart (the persistence effect then writes nothing). */
    method ClearCart()
      requires Valid()
      modifies this`cart, local`carts
      ensures Valid()
      ensures cart == []
      ensures user.Some? ==> local.carts == old(local.carts) - {user.value}
      ensures user.None? ==> local.carts == old(local.carts)
      ensures old(Positive()) ==> Positive()
    {
      cart := [];
      if user.Some? {
        local.carts := local.carts - {user.value};
      }
    }

    function GetCartTotal(): real
      reads this
    {
      Total(cart)
    }

  }
  /**
   * Signing out empties the cart and writes nothing, so a user without a stored cart who signs in
   * next starts with an empty cart, never with the previous user's rows.
   */
  method SignOutThenIn(store: CartStore, next: UserId)
    requires store.Valid() && next !in store.local.carts
    modifies store`user, store`cart, store.local`carts
    ensures store.user == Some(next) && store.cart == []
    ensures store.local.carts == old(store.local.carts)
  {
    store.SwitchUser(None);
    store.SwitchUser(Some(next));
  }

  /**
   * Removing the only row empties the cart but leaves the stored copy in place: after signing out
   * and in again the removed row is back.
   */
  method EmptiedCartReturns(local: LocalStorage, u: UserId, p: Product, freshId: string) returns (store: CartStore)
    requires local.carts == map[]
    modifies local`carts
    ensures store.user == Some(u) && store.cart == [CartItem(freshId, u, p.id, 1, Some(p))]
  {
    store := new CartStore(local);
    store.SwitchUser(Some(u));
    store.AddToCart(p, 1, freshId);
    assert store.cart == [CartItem(freshId, u, p.id, 1, Some(p))];
    store.RemoveFromCart(p.id);
    assert store.cart == [];
    store.SwitchUser(None);
    store.SwitchUser(Some(u));
  }
}
