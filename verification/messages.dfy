/** The records the services exchange (the fields the modelled code reads). */
module Messages {
  import opened GoInts
  import opened Money

  datatype CartItem = CartItem(productId: string, quantity: Int32)

  /** A catalog product; name, description, picture and categories are not modelled. */
  datatype Product = Product(id: string, priceUsd: Money)

  datatype Address = Address(
    streetAddress: string, city: string, state: string, country: string, zipCode: Int32)

  datatype CreditCardInfo = CreditCardInfo(
    number: string, cvv: Int32, expirationYear: Int32, expirationMonth: Int32)

  datatype OrderItem = OrderItem(item: CartItem, cost: Money)

  datatype OrderResult = OrderResult(
    orderId: string,
    shippingTrackingId: string,
    shippingCost: Money,
    shippingAddress: Address,
    items: seq<OrderItem>)

  datatype PlaceOrderRequest = PlaceOrderRequest(
    userId: string,
    userCurrency: string,
    address: Address,
    email: string,
    creditCard: CreditCardInfo)

  /** A failed remote call; its text is not modelled. */
  datatype RpcError = RpcError
}
