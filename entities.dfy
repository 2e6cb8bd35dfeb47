/** The domain entities (E_Commerce.Domain/Entities). Navigation properties are not
    stored: an order line names its product by id and an order names its customer by id;
    the projections that follow a navigation resolve it through the store. */
module Entities {
  import opened Wrappers

  /** An opaque reading of the clock (`DateTime.Now`), passed in by the caller. */
  type Timestamp = int

  /** `OrderStatus` is a C# enum, so a value is its underlying integer; the declared
      members are Pending = 0 (the default of Order.Status), Processing, Shipped,
      Delivered and Cancelled = 4. */
  type OrderStatus = int

  const Pending: OrderStatus := 0
  const Processing: OrderStatus := 1
  const Shipped: OrderStatus := 2
  const Delivered: OrderStatus := 3
  const Cancelled: OrderStatus := 4

  /** True of the five declared members of the enum. */
  predicate IsDeclaredStatus(s: OrderStatus) {
    Pending <= s <= Cancelled
  }

  datatype Customer = Customer(id: int, name: string, email: string, phone: string)

  /** Prices are exact amounts in cents. */
  datatype Product = Product(
    id: int,
    name: string,
    description: string,
    price: int,
    stock: int,
    createdAt: Timestamp,
    updatedAt: Option<Timestamp>)

  /** One line of an order: the order's own id is implicit (lines live inside their order). */
  datatype OrderProduct = OrderProduct(productId: int, quantity: int)

  datatype Order = Order(
    id: int,
    customerId: int,
    orderDate: Timestamp,
    status: OrderStatus,
    totalPrice: int,
    updatedAt: Option<Timestamp>,
    orderProducts: seq<OrderProduct>)
}
