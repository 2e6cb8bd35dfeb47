/** OrderService: order creation (the loop over the items, proved to follow
    `OrderWorkflow.PlaceOrder`), the status overwrite, and the two projections. */
module OrderServices {
  import opened Wrappers
  import opened Entities
  import opened Dtos
  import opened Errors
  import opened Data
  import opened CustomerStore
  import opened ProductStore
  import opened OrderStore
  import opened Persistence
  import opened OrderWorkflow

  /** Every line of the order names a product that is there. */
  predicate LinesResolve(lines: seq<OrderProduct>, products: map<int, Product>) {
    forall k :: 0 <= k < |lines| ==> lines[k].productId in products
  }

  /** The order's customer and the products of all its lines are there. */
  predicate Resolves(t: Tables, order: Order) {
    order.customerId in t.customers && LinesResolve(order.orderProducts, t.products)
  }

  /** One projected line: the product's current name, description and price, and the
      line's quantity. */
  function LineDto(line: OrderProduct, product: Product): (r: OrderProductDto)
    ensures r.productId == product.id && r.name == product.name && r.description == product.description
    ensures r.price == product.price && r.quantity == line.quantity
    ensures r.Subtotal() == product.price * line.quantity
  {
    OrderProductDto(product.id, product.name, product.description, product.price, line.quantity)
  }

  /** The lines projected in order, each through its product as it is now. */
  function LineDtos(lines: seq<OrderProduct>, products: map<int, Product>): (r: seq<OrderProductDto>)
    requires LinesResolve(lines, products)
    ensures |r| == |lines|
    ensures forall k :: 0 <= k < |lines| ==> r[k] == LineDto(lines[k], products[lines[k].productId])
  {
    if lines == [] then [] else [LineDto(lines[0], products[lines[0].productId])] + LineDtos(lines[1..], products)
  }

  function SumSubtotals(dtos: seq<OrderProductDto>): int {
    if dtos == [] then 0 else dtos[0].Subtotal() + SumSubtotals(dtos[1..])
  }

  /** MapOrderToDto, with the order's customer passed in. */
  function MapOrderToDto(order: Order, customer: Customer, products: map<int, Product>): (r: OrderDto)
    requires LinesResolve(order.orderProducts, products)
    ensures r.productCount == |r.products| == |order.orderProducts|
    ensures r.id == order.id && r.customerId == order.customerId && r.customerName == customer.name
    ensures r.orderDate == order.orderDate && r.status == order.status && r.updatedAt == order.updatedAt
    ensures r.totalPrice == order.totalPrice
    ensures forall k :: 0 <= k < |r.products| ==>
              var line := order.orderProducts[k];
              r.products[k].quantity == line.quantity && r.products[k].price == products[line.productId].price
  {
    var lines := LineDtos(order.orderProducts, products);
    OrderDto(order.id, order.customerId, customer.name, order.orderDate, order.status, order.totalPrice,
             |order.orderProducts|, lines, order.updatedAt)
  }

  /** The subtotals of the lines an order request produces add up to its amount, as long
      as the prices are the ones the amount was taken at. */
  lemma {:induction false} SubtotalsMatchAmount(products: map<int, Product>, items: seq<OrderItemDto>)
    requires ProductsKeyed(products)
    requires forall k :: 0 <= k < |items| ==> items[k].productId in products
    ensures LinesResolve(RequestedLines(items), products)
    ensures SumSubtotals(LineDtos(RequestedLines(items), products)) == Amount(products, items)
    decreases |items|
  {
    if items != [] {
      SubtotalsMatchAmount(products, items[1..]);
      var lines := RequestedLines(items);
      assert lines == [OrderProduct(items[0].productId, items[0].quantity)] + RequestedLines(items[1..]);
      assert lines[1..] == RequestedLines(items[1..]);
    }
  }

  /** The line prices of the projection are the products' current prices, not a copy
      taken when the order was placed: after a price change from 30.00 to 35.00 the
      subtotals of a two-unit order no longer add up to its stored total. */
  lemma LivePriceAfterRepricing()
    ensures var order := Order(1, 7, 100, Pending, 6000, None, [OrderProduct(1, 2)]);
            var repriced := map[1 := Product(1, "Keyboard", "", 3500, 0, 0, Some(200))];
            var dto := MapOrderToDto(order, Customer(7, "Ada", "ada@example.com", ""), repriced);
            dto.totalPrice == 6000 && SumSubtotals(dto.products) == 7000
  {
    var order := Order(1, 7, 100, Pending, 6000, None, [OrderProduct(1, 2)]);
    var repriced := map[1 := Product(1, "Keyboard", "", 3500, 0, 0, Some(200))];
    var dto := MapOrderToDto(order, Customer(7, "Ada", "ada@example.com", ""), repriced);
    assert dto.products == [OrderProductDto(1, "Keyboard", "", 3500, 2)];
  }

  /** Adding an order to tables the database accepted is accepted exactly when the order
      names no product twice. */
  lemma SchemaWithNewOrder(t: Tables, products: map<int, Product>, order: Order)
    requires SchemaHolds(t)
    ensures SchemaHolds(t.(products := products, orders := t.orders[order.id := order]))
            <==> DistinctProducts(order.orderProducts)
  {
    var u := t.(products := products, orders := t.orders[order.id := order]);
    if DistinctProducts(order.orderProducts) {
      forall id | id in u.orders
        ensures DistinctProducts(u.orders[id].orderProducts)
      {
        if id != order.id {
          assert u.orders[id] == t.orders[id];
        }
      }
    } else {
      assert order.id in u.orders && u.orders[order.id] == order;
    }
  }

  /** No product id appears in two items of the request. */
  predicate NoRepeatedProduct(items: seq<OrderItemDto>) {
    forall a, b :: 0 <= a < b < |items| ==> items[a].productId != items[b].productId
  }

  /** The lines of a request are distinct exactly when no product id repeats. */
  lemma {:induction false} RequestedLinesDistinct(items: seq<OrderItemDto>)
    ensures DistinctProducts(RequestedLines(items)) <==> NoRepeatedProduct(items)
    decreases |items|
  {
    RequestedLinesAt(items);
  }

  lemma {:induction false} RequestedLinesAt(items: seq<OrderItemDto>)
    ensures |RequestedLines(items)| == |items|
    ensures forall k :: 0 <= k < |items| ==> RequestedLines(items)[k] == OrderProduct(items[k].productId, items[k].quantity)
    decreases |items|
  {
    if items != [] {
      RequestedLinesAt(items[1..]);
    }
  }

  /** The products an admitted request leaves: the same ids, each still stored under its
      own id and at its own price, and every item's product among them. */
  lemma AdmittedProducts(t: Tables, dto: OrderCreateDto, now: Timestamp)
    requires ProductsKeyed(t.products)
    requires PlaceOrder(t, dto, now).error.None?
    ensures var f := PlaceOrder(t, dto, now);
            && ProductsKeyed(f.products)
            && f.products.Keys == t.products.Keys
            && (forall id :: id in t.products ==> f.products[id].price == t.products[id].price)
            && forall k :: 0 <= k < |dto.items| ==> dto.items[k].productId in f.products
  {
    var f := PlaceOrder(t, dto, now);
    assert f == Fulfil(t.products, dto.items, now, [], 0);
    FulfilOnlyDecrements(t.products, dto.items, now, [], 0);
    FulfilSucceedsIff(t.products, dto.items, now, [], 0);
    assert Fulfillable(t.products, dto.items);
    forall id | id in f.products
      ensures f.products[id].id == id && f.products[id].price == t.products[id].price
    {
      assert Decremented(t.products[id], f.products[id], now);
    }
  }

  /** What an admitted request yields, in the terms the service reports it: one line per
      item, all resolving, the amount at the starting prices, subtotals that add up to
      it, and lines the database accepts exactly when no product repeats. */
  lemma AdmittedOrder(t: Tables, dto: OrderCreateDto, now: Timestamp)
    requires ProductsKeyed(t.products)
    requires PlaceOrder(t, dto, now).error.None?
    ensures var f := PlaceOrder(t, dto, now);
            && |f.lines| == |dto.items|
            && f.total == Amount(t.products, dto.items)
            && LinesResolve(f.lines, f.products)
            && SumSubtotals(LineDtos(f.lines, f.products)) == f.total
            && (DistinctProducts(f.lines) <==> NoRepeatedProduct(dto.items))
  {
    var f := PlaceOrder(t, dto, now);
    assert f == Fulfil(t.products, dto.items, now, [], 0);
    FulfilLines(t.products, dto.items, now, [], 0);
    FulfilTotal(t.products, dto.items, now, [], 0);
    assert f.lines == RequestedLines(dto.items);
    RequestedLinesAt(dto.items);
    RequestedLinesDistinct(dto.items);
    AdmittedProducts(t, dto, now);
    SubtotalsMatchAmount(f.products, dto.items);
    AmountAtSamePrices(f.products, t.products, dto.items);
  }

  class OrderService {
    const unitOfWork: UnitOfWork

    constructor (unitOfWork: UnitOfWork)
      ensures this.unitOfWork == unitOfWork
    {
      this.unitOfWork := unitOfWork;
    }

    /** GetOrderByIdAsync: nothing for an unknown id, otherwise the order's details with
        its customer's name and its lines at the products' current prices. */
    function GetOrderById(id: int): (r: Option<OrderDetailsDto>)
      requires unitOfWork.Valid()
      requires id in unitOfWork.context.tracked.orders ==>
                 Resolves(unitOfWork.context.tracked, unitOfWork.context.tracked.orders[id])
      reads unitOfWork, unitOfWork.context
      ensures r.None? <==> id !in unitOfWork.context.tracked.orders
      ensures r.Some? ==>
                var t := unitOfWork.context.tracked;
                var order := t.orders[id];
                && r.value.id == id
                && r.value.customerName == t.customers[order.customerId].name
                && r.value.status == order.status && r.value.totalPrice == order.totalPrice
                && r.value.orderDate == order.orderDate && r.value.updatedAt == order.updatedAt
                && r.value.productCount == |r.value.products| == |order.orderProducts|
                && forall k :: 0 <= k < |order.orderProducts| ==>
                     var line := order.orderProducts[k];
                     r.value.products[k] == OrderProductDto(line.productId, t.products[line.productId].name,
                                                            t.products[line.productId].description,
                                                            t.products[line.productId].price, line.quantity)
    {
      var t := unitOfWork.context.tracked;
      match Find(t.orders, id)
      case None => None
      case Some(order) =>
        Some(OrderDetailsDto(order.id, t.customers[order.customerId].name, order.status, |order.orderProducts|,
                             order.orderDate, order.updatedAt, LineDtos(order.orderProducts, t.products),
                             order.totalPrice))
    }

    /** The foreach loop of CreateOrderAsync over the items, in submission order: each
        item's quantity is checked, its product looked up in the tracked store and its
        stock checked and lowered there; the lines and the running total are built as it
        goes, and the first failing item stops the walk. */
    method ReserveItems(items: seq<OrderItemDto>, now: Timestamp)
        returns (orderProducts: seq<OrderProduct>, totalPrice: int, error: Option<ServiceError>)
      requires unitOfWork.Valid()
      modifies unitOfWork`productRepository, unitOfWork.context`tracked
      ensures unitOfWork.Valid()
      ensures var f := Fulfil(old(unitOfWork.context.tracked.products), items, now, [], 0);
              && unitOfWork.context.tracked == old(unitOfWork.context.tracked).(products := f.products)
              && orderProducts == f.lines && totalPrice == f.total && error == f.error
    ensures LinesResolve(orderProducts, unitOfWork.context.tracked.products)
    {
      ghost var t0 := unitOfWork.context.tracked;
      ghost var walk := Fulfil(t0.products, items, now, [], 0);
      totalPrice := 0;
      orderProducts := [];
      var i := 0;
      while i < |items|
        invariant 0 <= i <= |items|
        invariant unitOfWork.Valid()
        invariant unitOfWork.context.tracked == t0.(products := unitOfWork.context.tracked.products)
        invariant unitOfWork.context.tracked.products.Keys == t0.products.Keys
        invariant LinesResolve(orderProducts, t0.products)
        invariant walk == Fulfil(unitOfWork.context.tracked.products, items[i..], now, orderProducts, totalPrice)
      {
        var item := items[i];
        assert items[i..][0] == item && items[i..][1..] == items[i + 1..];
        if item.quantity <= 0 {
          assert walk == Fulfilment(unitOfWork.context.tracked.products, orderProducts, totalPrice, Some(InvalidQuantity));
          return orderProducts, totalPrice, Some(InvalidQuantity);
        }
        var products := unitOfWork.Products();
        var product := products.GetById(item.productId);
        if product.None? {
          assert walk == Fulfilment(unitOfWork.context.tracked.products, orderProducts, totalPrice,
                                    Some(ProductNotFound(item.productId)));
          return orderProducts, totalPrice, Some(ProductNotFound(item.productId));
        }
        var reserved := Reserve(product.value, item.quantity, now);
        if reserved.Failure? {
          assert walk == Fulfilment(unitOfWork.context.tracked.products, orderProducts, totalPrice, Some(reserved.error));
          return orderProducts, totalPrice, Some(reserved.error);
        }
        FulfilStep(unitOfWork.context.tracked.products, items[i..], now, orderProducts, totalPrice);
        products.Update(reserved.value);
        orderProducts := orderProducts + [OrderProduct(reserved.value.id, item.quantity)];
        totalPrice := totalPrice + reserved.value.price * item.quantity;
        i := i + 1;
      }
      assert items[i..] == [];
      error := None;
    }

    /** The end of CreateOrderAsync: the order is built (Pending, stamped now) and staged;
        a product named on two lines is refused by the change tracker, so nothing is
        saved; otherwise one SaveChanges commits it and it is projected. */
    method SaveOrder(customerId: int, customer: Customer, orderProducts: seq<OrderProduct>, totalPrice: int,
                     now: Timestamp) returns (r: Result<OrderDto, ServiceError>)
      requires unitOfWork.Valid()
      requires LinesResolve(orderProducts, unitOfWork.context.tracked.products)
      modifies unitOfWork`orderRepository
      modifies unitOfWork.context`tracked, unitOfWork.context`database, unitOfWork.context`saveCount,
               unitOfWork.context`nextOrderId
      ensures unitOfWork.Valid()
      ensures !DistinctProducts(orderProducts) ==>
                && r == Failure(KeyAlreadyTracked)
                && unitOfWork.context.tracked == old(unitOfWork.context.tracked)
                && unitOfWork.context.database == old(unitOfWork.context.database)
                && unitOfWork.context.saveCount == old(unitOfWork.context.saveCount)
      ensures var order := Order(old(unitOfWork.context.nextOrderId), customerId, now, Pending, totalPrice, None, orderProducts);
              DistinctProducts(orderProducts) ==>
                && unitOfWork.context.tracked == old(unitOfWork.context.tracked).(
                     orders := old(unitOfWork.context.tracked.orders)[order.id := order])
                && unitOfWork.context.saveCount == old(unitOfWork.context.saveCount) + 1
                && (r.Success? <==> SchemaHolds(unitOfWork.context.tracked))
                && (r.Success? ==> unitOfWork.context.database == unitOfWork.context.tracked
                                   && r.value == MapOrderToDto(order, customer, unitOfWork.context.tracked.products))
                && (r.Failure? ==> r.error == CommitConflict && unitOfWork.context.database == old(unitOfWork.context.database))
    {
      var orders := unitOfWork.Orders();
      var added := orders.Add(Order(0, customerId, now, Pending, totalPrice, None, orderProducts));
      if added.Failure? {
        return Failure(added.error);
      }
      var ok := unitOfWork.SaveChanges();
      if !ok {
        return Failure(CommitConflict);
      }
      r := Success(MapOrderToDto(added.value, customer, unitOfWork.context.tracked.products));
    }

    /** CreateOrderAsync. The customer is looked up first, then the item list is checked,
        then each item in turn is checked and its product's stock lowered in the tracked
        store; only after the last item is the order staged (refused when a product repeats)
        and the one SaveChanges made. A failure at any step leaves the database as it was. */
    method CreateOrder(dto: OrderCreateDto, now: Timestamp) returns (r: Result<OrderDto, ServiceError>)
      requires unitOfWork.Valid()
      modifies unitOfWork`customerRepository, unitOfWork`productRepository, unitOfWork`orderRepository
      modifies unitOfWork.context`tracked, unitOfWork.context`database, unitOfWork.context`saveCount,
               unitOfWork.context`nextOrderId
      ensures unitOfWork.Valid()
      ensures var f := PlaceOrder(old(unitOfWork.context.tracked), dto, now);
              f.error.Some? ==>
                && r == Failure(f.error.value)
                && unitOfWork.context.tracked == old(unitOfWork.context.tracked).(products := f.products)
                && unitOfWork.context.database == old(unitOfWork.context.database)
                && unitOfWork.context.saveCount == old(unitOfWork.context.saveCount)
      ensures var f := PlaceOrder(old(unitOfWork.context.tracked), dto, now);
              f.error.None? && !NoRepeatedProduct(dto.items) ==>
                && r == Failure(KeyAlreadyTracked)
                && unitOfWork.context.tracked == old(unitOfWork.context.tracked).(products := f.products)
                && unitOfWork.context.database == old(unitOfWork.context.database)
                && unitOfWork.context.saveCount == old(unitOfWork.context.saveCount)
      ensures var f := PlaceOrder(old(unitOfWork.context.tracked), dto, now);
              var order := Order(old(unitOfWork.context.nextOrderId), dto.customerId, now, Pending, f.total, None, f.lines);
              f.error.None? && NoRepeatedProduct(dto.items) ==>
                && unitOfWork.context.tracked == old(unitOfWork.context.tracked).(
                     products := f.products, orders := old(unitOfWork.context.tracked.orders)[order.id := order])
                && unitOfWork.context.saveCount == old(unitOfWork.context.saveCount) + 1
                && (r.Success? <==> SchemaHolds(unitOfWork.context.tracked))
                && (r.Success? ==> unitOfWork.context.database == unitOfWork.context.tracked
                                   && LinesResolve(f.lines, f.products)
                                   && r.value == MapOrderToDto(order, old(unitOfWork.context.tracked.customers)[dto.customerId], f.products))
                && (r.Failure? ==> r.error == CommitConflict && unitOfWork.context.database == old(unitOfWork.context.database))
      ensures r.Success? ==>
                && r.value.status == Pending
                && r.value.productCount == |dto.items|
                && r.value.totalPrice == Amount(old(unitOfWork.context.tracked.products), dto.items)
                && SumSubtotals(r.value.products) == r.value.totalPrice
      ensures old(unitOfWork.context.Clean()) ==>
                (r.Success? <==> PlaceOrder(old(unitOfWork.context.tracked), dto, now).error.None?
                                 && NoRepeatedProduct(dto.items))
    {
      ghost var t0 := unitOfWork.context.tracked;
      var customers := unitOfWork.Customers();
      var customer := customers.GetById(dto.customerId);
      if customer.None? {
        return Failure(CustomerNotFound);
      }
      if |dto.items| == 0 {
        return Failure(EmptyOrder);
      }
      var orderProducts, totalPrice, error := ReserveItems(dto.items, now);
      if error.Some? {
        return Failure(error.value);
      }
      ghost var walk := Fulfil(t0.products, dto.items, now, [], 0);
      AdmittedOrder(t0, dto, now);
      if old(unitOfWork.context.Clean()) {
        SchemaWithNewOrder(t0, walk.products, Order(unitOfWork.context.nextOrderId, dto.customerId, now, Pending,
                                                    totalPrice, None, orderProducts));
      }
      r := SaveOrder(dto.customerId, customer.value, orderProducts, totalPrice, now);
    }

    /** UpdateOrderStatusAsync: false and no write for an unknown id; otherwise any
        status is written (there is no transition rule), the order is stamped, and one
        SaveChanges commits it. */
    method UpdateOrderStatus(id: int, statusDto: OrderStatusUpdateDto, now: Timestamp) returns (r: Result<bool, ServiceError>)
      requires unitOfWork.Valid()
      modifies unitOfWork`orderRepository, unitOfWork.context`tracked, unitOfWork.context`database,
               unitOfWork.context`saveCount
      ensures unitOfWork.Valid()
      ensures id !in old(unitOfWork.context.tracked.orders) ==>
                && r == Success(false)
                && unitOfWork.context.tracked == old(unitOfWork.context.tracked)
                && unitOfWork.context.database == old(unitOfWork.context.database)
                && unitOfWork.context.saveCount == old(unitOfWork.context.saveCount)
      ensures id in old(unitOfWork.context.tracked.orders) ==>
                && unitOfWork.context.tracked == old(unitOfWork.context.tracked).(
                     orders := old(unitOfWork.context.tracked.orders)[id :=
                                 old(unitOfWork.context.tracked.orders)[id].(status := statusDto.status, updatedAt := Some(now))])
                && unitOfWork.context.saveCount == old(unitOfWork.context.saveCount) + 1
                && (r == Success(true) <==> SchemaHolds(unitOfWork.context.tracked))
                && (r.Success? ==> unitOfWork.context.database == unitOfWork.context.tracked)
                && (r.Failure? ==> r.error == CommitConflict && unitOfWork.context.database == old(unitOfWork.context.database))
      ensures old(unitOfWork.context.Clean()) ==> r == Success(id in old(unitOfWork.context.tracked.orders))
    {
      var orders := unitOfWork.Orders();
      var order := orders.GetById(id);
      if order.None? {
        return Success(false);
      }
      ghost var t0 := unitOfWork.context.tracked;
      var updated := order.value.(status := statusDto.status, updatedAt := Some(now));
      orders.Update(updated);
      if old(unitOfWork.context.Clean()) {
        SchemaWithNewOrder(t0, t0.products, updated);
        assert t0.(products := t0.products, orders := t0.orders[id := updated]) == unitOfWork.context.tracked;
      }
      var ok := unitOfWork.SaveChanges();
      if !ok {
        return Failure(CommitConflict);
      }
      r := Success(true);
    }
  }
}
