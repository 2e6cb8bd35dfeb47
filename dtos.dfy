/** Request and response records of the application layer. */
module Dtos {
  import opened Wrappers
  import opened Entities

  datatype OrderItemDto = OrderItemDto(productId: int, quantity: int)

  datatype OrderCreateDto = OrderCreateDto(customerId: int, items: seq<OrderItemDto>)

  datatype OrderStatusUpdateDto = OrderStatusUpdateDto(status: OrderStatus)

  datatype OrderProductDto = OrderProductDto(
    productId: int,
    name: string,
    description: string,
    price: int,
    quantity: int)
  {
    /** The computed `Subtotal` property: a line of no units costs nothing, and a line
        of at least one unit at a non-negative price costs at least that price. */
    function Subtotal(): (r: int)
      ensures quantity == 0 ==> r == 0
      ensures price >= 0 && quantity >= 1 ==> r >= price
    {
      price * quantity
    }
  }

  datatype OrderDto = OrderDto(
    id: int,
    customerId: int,
    customerName: string,
    orderDate: Timestamp,
    status: OrderStatus,
    totalPrice: int,
    productCount: int,
    products: seq<OrderProductDto>,
    updatedAt: Option<Timestamp>)

  datatype OrderDetailsDto = OrderDetailsDto(
    id: int,
    customerName: string,
    status: OrderStatus,
    productCount: int,
    orderDate: Timestamp,
    updatedAt: Option<Timestamp>,
    products: seq<OrderProductDto>,
    totalPrice: int)

  datatype CustomerDto = CustomerDto(id: int, name: string, email: string, phone: string)

  datatype CustomerCreateDto = CustomerCreateDto(name: string, email: string, phone: string)

  datatype ProductDto = ProductDto(
    id: int,
    name: string,
    description: string,
    price: int,
    stock: int,
    createdAt: Timestamp,
    updatedAt: Option<Timestamp>)

  datatype ProductCreateDto = ProductCreateDto(name: string, description: string, price: int, stock: int)

  datatype ProductUpdateDto = ProductUpdateDto(name: string, description: string, price: int, stock: int)
}
