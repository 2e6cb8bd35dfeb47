/** OrderCreateValidator, OrderItemValidator and OrderStatusUpdateValidator, and what an
    accepted order request can no longer run into in CreateOrderAsync. */
module OrderValidators {
  import opened Wrappers
  import opened Entities
  import opened Dtos
  import opened Errors
  import opened Data
  import opened ValidationRules
  import opened OrderWorkflow

  /** OrderItemValidator. */
  function ValidateOrderItem(item: OrderItemDto): (r: seq<string>)
    ensures "Valid product is required" in r <==> item.productId <= 0
    ensures "Quantity must be greater than zero" in r <==> item.quantity <= 0
    ensures forall m :: m in r ==> m == "Valid product is required" || m == "Quantity must be greater than zero"
  {
    Check(item.productId > 0, "Valid product is required")
    + Check(item.quantity > 0, "Quantity must be greater than zero")
  }

  /** The child rules of OrderCreateValidator, applied to each item in turn. */
  function ValidateItems(items: seq<OrderItemDto>): (r: seq<string>)
    ensures |r| <= 2 * |items|
    ensures (exists k :: 0 <= k < |items| && items[k].productId <= 0) ==> "Valid product is required" in r
    ensures (exists k :: 0 <= k < |items| && items[k].quantity <= 0) ==> "Quantity must be greater than zero" in r
  {
    if items == [] then []
    else
      Check(items[0].productId > 0, "Valid product is required")
      + Check(items[0].quantity > 0, "Quantity must be greater than zero")
      + ValidateItems(items[1..])
  }

  /** OrderCreateValidator: a positive customer id, a non-empty item list (two rules, both
      reported for an empty list), and the child rules of every item. */
  function ValidateOrderCreate(dto: OrderCreateDto): (r: seq<string>)
    ensures |r| <= 3 + 2 * |dto.items|
    ensures dto.customerId <= 0 ==> "Valid customer is required" in r
    ensures |dto.items| == 0 ==> "Order must contain at least one item" in r
    ensures (exists k :: 0 <= k < |dto.items| && dto.items[k].quantity <= 0) ==> "Quantity must be greater than zero" in r
  {
    Check(dto.customerId > 0, "Valid customer is required")
    + Check(|dto.items| != 0, "Order must contain at least one item")
    + Check(|dto.items| > 0, "Order must contain at least one item")
    + ValidateItems(dto.items)
  }

  /** OrderStatusUpdateValidator: IsInEnum. */
  function ValidateOrderStatusUpdate(dto: OrderStatusUpdateDto): (r: seq<string>)
    ensures r == [] <==> IsDeclaredStatus(dto.status)
  {
    Check(IsDeclaredStatus(dto.status), "Invalid order status")
  }

  /** The child rules of OrderCreateValidator accept a list exactly when
      OrderItemValidator accepts each of its items. */
  lemma {:induction false} ItemRulesAgree(items: seq<OrderItemDto>)
    ensures ValidateItems(items) == [] <==> forall k :: 0 <= k < |items| ==> ValidateOrderItem(items[k]) == []
    decreases |items|
  {
    if items != [] {
      ItemRulesAgree(items[1..]);
      assert forall k :: 1 <= k < |items| ==> items[k] == items[1..][k - 1];
    }
  }

  /** An order request is accepted exactly when its customer id is positive, it has an
      item, and every item has a positive product id and a positive quantity. */
  lemma OrderCreateAccepts(dto: OrderCreateDto)
    ensures ValidateOrderCreate(dto) == [] <==>
            && dto.customerId > 0
            && |dto.items| > 0
            && forall k :: 0 <= k < |dto.items| ==> dto.items[k].productId > 0 && dto.items[k].quantity > 0
  {
    ItemRulesAgree(dto.items);
  }

  /** An empty item list is reported by both of its rules. */
  lemma EmptyItemsReportedTwice(customerId: int)
    requires customerId > 0
    ensures ValidateOrderCreate(OrderCreateDto(customerId, [])) ==
            ["Order must contain at least one item", "Order must contain at least one item"]
  {
  }

  /** A request the validator accepts never fails CreateOrderAsync with the empty-order
      or the bad-quantity error: what can still fail it is the store (an unknown
      customer or product, short stock). */
  lemma AcceptedOrderPassesItemChecks(t: Tables, dto: OrderCreateDto, now: Timestamp)
    requires ValidateOrderCreate(dto) == []
    ensures PlaceOrder(t, dto, now).error != Some(EmptyOrder)
    ensures PlaceOrder(t, dto, now).error != Some(InvalidQuantity)
  {
    OrderCreateAccepts(dto);
    FulfilBlamesOnlyItems(t.products, dto.items, now, [], 0);
    if dto.customerId in t.customers && PlaceOrder(t, dto, now).error == Some(InvalidQuantity) {
      FulfilBlamesBadQuantity(t.products, dto.items, now, [], 0);
    }
  }
}
