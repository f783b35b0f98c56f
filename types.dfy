/** The records the store exchanges with its callers. Image URLs and
    descriptions are not modelled; money is an exact `real`. */
module Types {
  import opened Results

  /** A catalog entry; the catalog never changes. */
  datatype Product = Product(id: string, name: string, price: real)

  /** One cart line: a copy of the product's fields plus a quantity. */
  datatype CartItem = CartItem(id: string, name: string, price: real, quantity: int)

  /** A discount code and whether an order has consumed it. */
  datatype DiscountCode = DiscountCode(code: string, percentage: int, isUsed: bool)

  /** What the checkout form submits; the store keeps it unchecked. */
  datatype CustomerDetails = CustomerDetails(
    name: string, email: string, address: string, city: string, zip: string,
    cardNumber: string, cardExpiry: string, cardCvc: string)

  /** A placed order. `createdAt` is the clock reading handed to the store. */
  datatype Order = Order(
    id: string,
    items: seq<CartItem>,
    subtotal: real,
    discountAmount: real,
    total: real,
    appliedDiscountCode: Option<string>,
    createdAt: int,
    customerDetails: CustomerDetails)

  /** The derived cart view returned by every cart command. */
  datatype Cart = Cart(
    items: seq<CartItem>,
    subtotal: real,
    discountAmount: real,
    total: real,
    appliedDiscountCode: Option<string>)

  /** The admin dashboard's aggregates over all orders. */
  datatype AdminStats = AdminStats(
    itemCount: int,
    totalAmount: real,
    discountCodes: seq<DiscountCode>,
    totalDiscountAmount: real)

  /** What a successful `createOrder` returns. */
  datatype Placement = Placement(order: Order, newDiscount: Option<DiscountCode>)

  /** The errors the store throws, with their messages. */
  datatype StoreError = ProductNotFound | ItemNotInCart | InvalidOrUsedCode | EmptyCart
  {
    function Message(): string
    {
      match this
      case ProductNotFound => "Product not found"
      case ItemNotInCart => "Item not in cart"
      case InvalidOrUsedCode => "Invalid or used discount code."
      case EmptyCart => "Cannot create an order with an empty cart."
    }
  }

  /** Each error has its own message, so the text a caller receives names
      the error that occurred. */
  lemma ErrorMessagesDistinct(a: StoreError, b: StoreError)
    ensures a.Message() == b.Message() <==> a == b
  {
    if a != b {
      assert |a.Message()| != |b.Message()|;
    }
  }
}
