/**
 * The product detail view: discounted price, stock label, the quantity stepper and the
 * add-to-cart button. The view stays mounted while products are opened and closed, so its
 * quantity survives from one product to the next.
 */
module ProductDetail {
  import opened Types
  import opened Pricing
  import opened CartContext

  /** Products with more than this many units are simply "In Stock". */
  const PlentifulStock: int := 20

  datatype StockLabel = InStock | OnlyLeft(n: int) | OutOfStock

  function StockLabelOf(stock: int): StockLabel
  {
    if stock > PlentifulStock then InStock
    else if stock > 0 then OnlyLeft(stock)
    else OutOfStock
  }

  /** The add-to-cart button is disabled exactly at zero stock. */
  predicate AddDisabled(p: Product)
  {
    p.stockQuantity == 0
  }

  /**
   * "Only n left" appears for 1 to 20 units and names the stock itself; "Out of Stock" appears
   * exactly when the button is disabled, for any stock that is not negative.
   */
  lemma StockLabelSpec(p: Product)
    ensures StockLabelOf(p.stockQuantity).OnlyLeft? ==>
      StockLabelOf(p.stockQuantity).n == p.stockQuantity && 1 <= p.stockQuantity <= 20
    ensures StockLabelOf(p.stockQuantity) == InStock <==> p.stockQuantity > 20
    ensures AddDisabled(p) ==> StockLabelOf(p.stockQuantity) == OutOfStock
    ensures p.stockQuantity >= 0 && StockLabelOf(p.stockQuantity) == OutOfStock ==> AddDisabled(p)
  {
  }

  /** The minus button: one less, never below one. */
  function Decremented(quantity: int): int
  {
    if quantity - 1 > 1 then quantity - 1 else 1
  }

  /** The plus button is disabled once the quantity has reached the stock. */
  predicate IncrementEnabled(quantity: int, stock: int)
  {
    quantity < stock
  }

  /** The plus button: one more, never above the stock. */
  function Incremented(quantity: int, stock: int): int
  {
    if quantity + 1 < stock then quantity + 1 else stock
  }

  /** The stepper's value lies between one and the stock. */
  predicate InRange(quantity: int, stock: int)
  {
    1 <= quantity <= stock
  }

  /**
   * The stepper keeps the quantity within one and the stock; minus never goes below one, an
   * enabled plus adds exactly one, and minus undoes plus.
   */
  lemma StepperSpec(quantity: int, stock: int)
    ensures Decremented(quantity) >= 1
    ensures quantity > 1 ==> Decremented(quantity) == quantity - 1
    ensures InRange(quantity, stock) ==> InRange(Decremented(quantity), stock)
    ensures IncrementEnabled(quantity, stock) ==> Incremented(quantity, stock) == quantity + 1
    ensures InRange(quantity, stock) && IncrementEnabled(quantity, stock) ==> InRange(Incremented(quantity, stock), stock)
    ensures quantity >= 1 && IncrementEnabled(quantity, stock) ==> Decremented(Incremented(quantity, stock)) == quantity
  {
  }

  datatype AddOutcome =
    | ButtonDisabled  // zero stock: the handler never runs
    | AuthRequired    // signed out: the view closes and the sign-in dialog opens
    | Added(quantity: int)

  /** The view's state: which product is open (if any) and the stepper's value. */
  class DetailView {
    var product: Option<Product>
    var quantity: int

    /** The stepper agrees with the open product: in range whenever that product is in stock. */
    ghost predicate Valid()
      reads this
    {
      quantity >= 1 && (product.Some? && product.value.stockQuantity >= 1 ==> InRange(quantity, product.value.stockQuantity))
    }

    constructor ()
      ensures product == None && quantity == 1 && Valid()
    {
      product := None;
      quantity := 1;
    }

    /** Opening a product as written: the quantity left by the previous product is kept. */
    method SelectKeepingQuantity(p: Product)
      modifies this`product
      ensures product == Some(p) && quantity == old(quantity)
    {
      product := Some(p);
    }

    /** Opening a product with the stepper reset to one, as for a freshly mounted view. */
    method Select(p: Product)
      modifies this`product, this`quantity
      ensures product == Some(p) && quantity == 1
      ensures Valid()
    {
      product := Some(p);
      quantity := 1;
    }

    method Close()
      modifies this`product
      ensures product == None && quantity == old(quantity)
      ensures old(Valid()) ==> Valid()
    {
      product := None;
    }

    method Decrement()
      requires product.Some?
      modifies this`quantity
      ensures quantity == Decremented(old(quantity))
      ensures old(Valid()) ==> Valid()
    {
      StepperSpec(quantity, product.value.stockQuantity);
      quantity := Decremented(quantity);
    }

    /** A click on a disabled plus button does nothing. */
    method Increment()
      requires product.Some?
      modifies this`quantity
      ensures IncrementEnabled(old(quantity), product.value.stockQuantity) ==>
        quantity == Incremented(old(quantity), product.value.stockQuantity)
      ensures !IncrementEnabled(old(quantity), product.value.stockQuantity) ==> quantity == old(quantity)
      ensures old(Valid()) ==> Valid()
    {
      var stock := product.value.stockQuantity;
      StepperSpec(quantity, stock);
      if IncrementEnabled(quantity, stock) {
        quantity := Incremented(quantity, stock);
      }
    }

    /**
     * handleAddToCart: disabled at zero stock; signed out, the view closes and nothing is added;
     * otherwise the stepper's quantity of the product goes into the cart and the view closes.
     */
    method AddToCart(store: CartStore, freshId: string) returns (outcome: AddOutcome)
      requires product.Some? && store.Valid()
      modifies this`product, store`cart, store.local`carts
      ensures AddDisabled(old(product.value)) ==>
        outcome == ButtonDisabled && product == old(product)
        && store.cart == old(store.cart) && store.local.carts == old(store.local.carts)
      ensures !AddDisabled(old(product.value)) && store.user.None? ==>
        outcome == AuthRequired && product == None
        && store.cart == old(store.cart) && store.local.carts == old(store.local.carts)
      ensures !AddDisabled(old(product.value)) && store.user.Some? ==>
        outcome == Added(quantity) && product == None
        && store.cart == WithAdded(old(store.cart), old(product.value), quantity, freshId, store.user.value)
        && store.local.carts == Persisted(old(store.local.carts), store.user, store.cart)
      ensures store.Valid() && quantity == old(quantity)
      ensures old(Valid()) && outcome.Added? && old(product.value.stockQuantity) >= 1 ==>
        1 <= outcome.quantity <= old(product.value.stockQuantity)
    {
      var p := product.value;
      if AddDisabled(p) {
        return ButtonDisabled;
      }
      if store.user.None? {
        product := None;
        return AuthRequired;
      }
      store.AddToCart(p, quantity, freshId);
      product := None;
      outcome := Added(quantity);
    }
  }

  /**
   * As written: the stepper is raised to 5 on a product with plenty of stock, the view is closed,
   * and a product with 2 units left is opened; pressing "Add to Cart" puts 5 units of it in the cart.
   */
  method StaleQuantityScenario(a: Product, b: Product, store: CartStore, freshId: string) returns (view: DetailView, outcome: AddOutcome)
    requires a.stockQuantity == 50 && b.stockQuantity == 2
    requires store.Valid() && store.user.Some? && !HasProduct(store.cart, b.id)
    modifies store`cart, store.local`carts
    ensures outcome == Added(5) && outcome.quantity > b.stockQuantity
    ensures store.cart == old(store.cart) + [CartItem(freshId, store.user.value, b.id, 5, Some(b))]
  {
    view := new DetailView();
    view.SelectKeepingQuantity(a);
    view.Increment();
    view.Increment();
    view.Increment();
    view.Increment();
    view.Close();
    view.SelectKeepingQuantity(b);
    assert !view.Valid();
    outcome := view.AddToCart(store, freshId);
  }

  /** The same steps with the stepper reset on opening: one unit is added, within the two left. */
  method ResetQuantityScenario(a: Product, b: Product, store: CartStore, freshId: string) returns (view: DetailView, outcome: AddOutcome)
    requires a.stockQuantity == 50 && b.stockQuantity == 2
    requires store.Valid() && store.user.Some? && !HasProduct(store.cart, b.id)
    modifies store`cart, store.local`carts
    ensures outcome == Added(1) && view.quantity <= b.stockQuantity
  {
    view := new DetailView();
    view.Select(a);
    view.Increment();
    view.Increment();
    view.Increment();
    view.Increment();
    view.Close();
    view.Select(b);
    outcome := view.AddToCart(store, freshId);
  }
}
