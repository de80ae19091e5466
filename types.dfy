/** The storefront's records: products, cart rows, orders and their items. */
module Types {

  datatype Option<+T> = None | Some(value: T)

  type UserId = string
  type ProductId = string

  /** A catalog product. Prices are exact reals; display rounding is not modelled. */
  datatype Product = Product(
    id: ProductId,
    categoryId: string,
    name: string,
    description: string,
    price: real,
    discountPercentage: real,
    stockQuantity: int,
    imageUrl: string,
    isTrending: bool,
    isOnOffer: bool,
    rating: real,
    reviewsCount: int,
    fastDeliveryAvailable: bool)

  /** One cart row, with the snapshot of the product taken when it was added (absent in corrupt data). */
  datatype CartItem = CartItem(
    id: string,
    userId: UserId,
    productId: ProductId,
    quantity: int,
    product: Option<Product>)

  datatype OrderStatus = Pending | Processing | Shipped | Delivered | Cancelled

  datatype PaymentMethod = Card | CashOnDelivery

  datatype PaymentStatus = PaymentPending | Paid

  /** One line of a placed order; the unit price is frozen when the order is placed. */
  datatype OrderItem = OrderItem(
    id: string,
    orderId: string,
    productId: ProductId,
    quantity: int,
    priceAtPurchase: real,
    product: Option<Product>)

  datatype Order = Order(
    id: string,
    userId: UserId,
    addressId: string,
    totalAmount: real,
    status: OrderStatus,
    fastDelivery: bool,
    fastDeliveryFee: real,
    paymentMethod: PaymentMethod,
    paymentStatus: PaymentStatus,
    createdAt: string,
    updatedAt: string,
    items: Option<seq<OrderItem>>)

  /** The delivery address typed into the checkout form. */
  datatype Address = Address(street: string, city: string, state: string, postalCode: string, country: string)
}
