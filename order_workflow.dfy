/** The order workflow of OrderService.CreateOrderAsync as pure functions: the stock
    checks of one item (`Reserve`), the walk over the items in submission order
    (`Fulfil`), and the whole admission of a request (`PlaceOrder`). The service method
    is proved to follow these; the lemmas here state what the walk guarantees. */
module OrderWorkflow {
  import opened Wrappers
  import opened Entities
  import opened Dtos
  import opened Errors
  import opened Data

  /** The two stock checks of one item, in the source's order, and when both pass the
      product with its stock lowered and its update time stamped. The out-of-stock check
      comes second and can decide only for a quantity that is not positive. */
  function Reserve(product: Product, quantity: int, now: Timestamp): (r: Result<Product, ServiceError>)
    ensures quantity > 0 ==> (r.Success? <==> quantity <= product.stock)
    ensures quantity > 0 ==> !(r.Failure? && r.error.OutOfStock?)
    ensures r.Success? ==> r.value == product.(stock := product.stock - quantity, updatedAt := Some(now))
    ensures r.Success? ==> 0 <= r.value.stock
  {
    if product.stock < quantity then
      Failure(InsufficientStock(product.name, product.stock, quantity))
    else if product.stock == 0 then
      Failure(OutOfStock(product.name))
    else
      Success(product.(stock := product.stock - quantity, updatedAt := Some(now)))
  }

  /** Where the walk over the items stops: the tracked products at that point (earlier
      items already decremented), the lines and running total built so far, and the
      error that stopped it, if any. */
  datatype Fulfilment = Fulfilment(
    products: map<int, Product>,
    lines: seq<OrderProduct>,
    total: int,
    error: Option<ServiceError>)

  /** The foreach loop over the items: each item is checked against the products as
      the context tracks them at that moment, so a repeated product id sees the stock
      its earlier lines left. */
  function Fulfil(products: map<int, Product>, items: seq<OrderItemDto>, now: Timestamp,
                  lines: seq<OrderProduct>, total: int): (r: Fulfilment)
    ensures r.products.Keys == products.Keys
    ensures |lines| <= |r.lines| <= |lines| + |items|
    ensures r.error.None? ==> |r.lines| == |lines| + |items|
    decreases |items|
  {
    if items == [] then
      Fulfilment(products, lines, total, None)
    else
      var item := items[0];
      if item.quantity <= 0 then
        Fulfilment(products, lines, total, Some(InvalidQuantity))
      else if item.productId !in products then
        Fulfilment(products, lines, total, Some(ProductNotFound(item.productId)))
      else
        match Reserve(products[item.productId], item.quantity, now)
        case Failure(e) => Fulfilment(products, lines, total, Some(e))
        case Success(reserved) =>
          Fulfil(products[item.productId := reserved], items[1..], now,
                 lines + [OrderProduct(reserved.id, item.quantity)],
                 total + reserved.price * item.quantity)
  }

  /** One step of the walk: an item with a positive quantity whose product is there and
      can be reserved moves the walk on to the remaining items. */
  lemma FulfilStep(products: map<int, Product>, items: seq<OrderItemDto>, now: Timestamp,
                   lines: seq<OrderProduct>, total: int)
    requires items != [] && items[0].quantity > 0 && items[0].productId in products
    requires Reserve(products[items[0].productId], items[0].quantity, now).Success?
    ensures var reserved := Reserve(products[items[0].productId], items[0].quantity, now).value;
            Fulfil(products, items, now, lines, total)
            == Fulfil(products[items[0].productId := reserved], items[1..], now,
                      lines + [OrderProduct(reserved.id, items[0].quantity)], total + reserved.price * items[0].quantity)
  {
  }

  /** The checks of CreateOrderAsync before and around the loop: the customer first,
      then the item list, then the walk. */
  function PlaceOrder(t: Tables, dto: OrderCreateDto, now: Timestamp): (r: Fulfilment)
    ensures r.products.Keys == t.products.Keys
    ensures r.error.None? ==> dto.customerId in t.customers && |r.lines| == |dto.items| > 0
  {
    if dto.customerId !in t.customers then
      Fulfilment(t.products, [], 0, Some(CustomerNotFound))
    else if |dto.items| == 0 then
      Fulfilment(t.products, [], 0, Some(EmptyOrder))
    else
      Fulfil(t.products, dto.items, now, [], 0)
  }

  // ---------------------------------------------------------------------------
  // Reference definitions the walk is measured against.

  /** Some item asks for this product. */
  predicate Requested(items: seq<OrderItemDto>, productId: int) {
    items != [] && (items[0].productId == productId || Requested(items[1..], productId))
  }

  /** The total quantity the items ask of one product. */
  function QuantityOf(items: seq<OrderItemDto>, productId: int): int {
    if items == [] then 0
    else (if items[0].productId == productId then items[0].quantity else 0) + QuantityOf(items[1..], productId)
  }

  /** One order line per item, with the item's product id and quantity. */
  function RequestedLines(items: seq<OrderItemDto>): seq<OrderProduct> {
    if items == [] then [] else [OrderProduct(items[0].productId, items[0].quantity)] + RequestedLines(items[1..])
  }

  /** Sum of price x quantity over the items, at the given prices. */
  function Amount(products: map<int, Product>, items: seq<OrderItemDto>): int {
    if items == [] then 0
    else
      (if items[0].productId in products then products[items[0].productId].price * items[0].quantity else 0)
      + Amount(products, items[1..])
  }

  /** Every quantity is positive, every product exists, and each product's stock covers
      everything the items ask of it together. */
  predicate Fulfillable(products: map<int, Product>, items: seq<OrderItemDto>) {
    forall k :: 0 <= k < |items| ==>
      && items[k].quantity > 0
      && items[k].productId in products
      && QuantityOf(items, items[k].productId) <= products[items[k].productId].stock
  }

  predicate ProductsKeyed(products: map<int, Product>) {
    forall id :: id in products ==> products[id].id == id
  }

  predicate NonNegativeStock(products: map<int, Product>) {
    forall id :: id in products ==> products[id].stock >= 0
  }

  /** `after` is `before`, or `before` with a lower, non-negative stock and the update stamp. */
  predicate Decremented(before: Product, after: Product, now: Timestamp) {
    after == before || (0 <= after.stock < before.stock && after == before.(stock := after.stock, updatedAt := Some(now)))
  }

  // ---------------------------------------------------------------------------
  // What the walk guarantees.

  /** The items are walked in order: the walk over `a + b` is the walk over `a` followed
      by the walk over `b` from where it stopped, so the first failing item decides the
      error and no later item is looked at. */
  lemma {:induction false} FulfilAppend(products: map<int, Product>, a: seq<OrderItemDto>, b: seq<OrderItemDto>,
                                        now: Timestamp, lines: seq<OrderProduct>, total: int)
    ensures var f := Fulfil(products, a, now, lines, total);
            Fulfil(products, a + b, now, lines, total) ==
              if f.error.Some? then f else Fulfil(f.products, b, now, f.lines, f.total)
    decreases |a|
  {
    if a == [] {
      assert a + b == b;
    } else {
      assert (a + b)[0] == a[0];
      assert (a + b)[1..] == a[1..] + b;
      var item := a[0];
      if item.quantity > 0 && item.productId in products {
        var r := Reserve(products[item.productId], item.quantity, now);
        if r.Success? {
          FulfilAppend(products[item.productId := r.value], a[1..], b, now,
                       lines + [OrderProduct(r.value.id, item.quantity)], total + r.value.price * item.quantity);
        }
      }
    }
  }

  /** Whether or not the walk succeeds, it keeps every product row and changes a row only
      by lowering its stock to a non-negative value (and stamping it): stock never goes
      negative through an order. */
  lemma {:induction false} FulfilOnlyDecrements(products: map<int, Product>, items: seq<OrderItemDto>,
                                                now: Timestamp, lines: seq<OrderProduct>, total: int)
    ensures var f := Fulfil(products, items, now, lines, total);
            && f.products.Keys == products.Keys
            && forall id :: id in products ==> Decremented(products[id], f.products[id], now)
    decreases |items|
  {
    if items != [] {
      var item := items[0];
      if item.quantity > 0 && item.productId in products {
        var r := Reserve(products[item.productId], item.quantity, now);
        if r.Success? {
          var next := products[item.productId := r.value];
          FulfilOnlyDecrements(next, items[1..], now, lines + [OrderProduct(r.value.id, item.quantity)],
                               total + r.value.price * item.quantity);
        }
      }
    }
  }

  /** Stock that starts non-negative stays non-negative. */
  lemma FulfilKeepsStockNonNegative(products: map<int, Product>, items: seq<OrderItemDto>,
                                    now: Timestamp, lines: seq<OrderProduct>, total: int)
    requires NonNegativeStock(products)
    ensures NonNegativeStock(Fulfil(products, items, now, lines, total).products)
  {
    FulfilOnlyDecrements(products, items, now, lines, total);
  }

  /** On success each product's stock has dropped by exactly the total quantity the
      items asked of it (a repeated product id counts every time), and a product no item
      asked for is untouched. */
  lemma {:induction false} FulfilStockDrop(products: map<int, Product>, items: seq<OrderItemDto>,
                                           now: Timestamp, lines: seq<OrderProduct>, total: int)
    requires Fulfil(products, items, now, lines, total).error.None?
    ensures var f := Fulfil(products, items, now, lines, total);
            && f.products.Keys == products.Keys
            && forall id :: id in products ==>
                 f.products[id] == if Requested(items, id)
                                   then products[id].(stock := products[id].stock - QuantityOf(items, id), updatedAt := Some(now))
                                   else products[id]
    decreases |items|
  {
    if items != [] {
      var item := items[0];
      var r := Reserve(products[item.productId], item.quantity, now);
      var next := products[item.productId := r.value];
      FulfilStockDrop(next, items[1..], now, lines + [OrderProduct(r.value.id, item.quantity)],
                      total + r.value.price * item.quantity);
      var f := Fulfil(products, items, now, lines, total);
      assert f == Fulfil(next, items[1..], now, lines + [OrderProduct(r.value.id, item.quantity)],
                         total + r.value.price * item.quantity);
      forall id | id in products
        ensures f.products[id] == if Requested(items, id)
                                  then products[id].(stock := products[id].stock - QuantityOf(items, id), updatedAt := Some(now))
                                  else products[id]
      {
        if id != item.productId {
          assert Requested(items, id) == Requested(items[1..], id);
          assert QuantityOf(items, id) == QuantityOf(items[1..], id);
        } else {
          var p := products[id];
          assert Requested(items, id);
          assert QuantityOf(items, id) == item.quantity + QuantityOf(items[1..], id);
          assert next[id] == p.(stock := p.stock - item.quantity, updatedAt := Some(now));
          if Requested(items[1..], id) {
            assert f.products[id] == next[id].(stock := next[id].stock - QuantityOf(items[1..], id), updatedAt := Some(now));
          } else {
            QuantityOfUnrequested(items[1..], id);
          }
        }
      }
    }
  }

  /** On success there is one line per item, in order, with the item's product id and
      quantity. */
  lemma {:induction false} FulfilLines(products: map<int, Product>, items: seq<OrderItemDto>,
                                       now: Timestamp, lines: seq<OrderProduct>, total: int)
    requires ProductsKeyed(products)
    requires Fulfil(products, items, now, lines, total).error.None?
    ensures Fulfil(products, items, now, lines, total).lines == lines + RequestedLines(items)
    decreases |items|
  {
    if items != [] {
      var item := items[0];
      var r := Reserve(products[item.productId], item.quantity, now);
      var next := products[item.productId := r.value];
      var line := OrderProduct(r.value.id, item.quantity);
      assert Fulfil(products, items, now, lines, total)
          == Fulfil(next, items[1..], now, lines + [line], total + r.value.price * item.quantity);
      FulfilLines(next, items[1..], now, lines + [line], total + r.value.price * item.quantity);
      assert RequestedLines(items) == [line] + RequestedLines(items[1..]);
      assert lines + [line] + RequestedLines(items[1..]) == lines + RequestedLines(items);
    }
  }

  /** Amounts depend on the prices only. */
  lemma {:induction false} AmountAtSamePrices(a: map<int, Product>, b: map<int, Product>, items: seq<OrderItemDto>)
    requires a.Keys == b.Keys
    requires forall id :: id in a ==> a[id].price == b[id].price
    ensures Amount(a, items) == Amount(b, items)
    decreases |items|
  {
    if items != [] {
      AmountAtSamePrices(a, b, items[1..]);
    }
  }

  /** On success the total is the sum of price x quantity over the items, at the prices
      the products had when the walk started. */
  lemma {:induction false} FulfilTotal(products: map<int, Product>, items: seq<OrderItemDto>,
                                       now: Timestamp, lines: seq<OrderProduct>, total: int)
    requires Fulfil(products, items, now, lines, total).error.None?
    ensures Fulfil(products, items, now, lines, total).total == total + Amount(products, items)
    decreases |items|
  {
    if items != [] {
      var item := items[0];
      var r := Reserve(products[item.productId], item.quantity, now);
      var next := products[item.productId := r.value];
      FulfilTotal(next, items[1..], now, lines + [OrderProduct(r.value.id, item.quantity)],
                  total + r.value.price * item.quantity);
      AmountAtSamePrices(next, products, items[1..]);
    }
  }

  lemma {:induction false} QuantityOfUnrequested(items: seq<OrderItemDto>, productId: int)
    requires !Requested(items, productId)
    ensures QuantityOf(items, productId) == 0
    decreases |items|
  {
    if items != [] {
      QuantityOfUnrequested(items[1..], productId);
    }
  }

  lemma {:induction false} QuantityOfPositive(items: seq<OrderItemDto>, productId: int)
    requires forall k :: 0 <= k < |items| ==> items[k].quantity > 0
    ensures QuantityOf(items, productId) >= 0
    decreases |items|
  {
    if items != [] {
      QuantityOfPositive(items[1..], productId);
    }
  }

  lemma {:induction false} RequestedAt(items: seq<OrderItemDto>, productId: int)
    requires Requested(items, productId)
    ensures exists k :: 0 <= k < |items| && items[k].productId == productId
    decreases |items|
  {
    if items[0].productId != productId {
      RequestedAt(items[1..], productId);
      var k :| 0 <= k < |items[1..]| && items[1..][k].productId == productId;
      assert items[k + 1].productId == productId;
    }
  }

  /** Fulfillable unfolds one item at a time against the tracked stock. */
  lemma FulfillableStep(products: map<int, Product>, items: seq<OrderItemDto>, now: Timestamp)
    requires items != [] && items[0].quantity > 0 && items[0].productId in products
    requires items[0].quantity <= products[items[0].productId].stock
    ensures var item := items[0];
            var next := products[item.productId := products[item.productId].(
                          stock := products[item.productId].stock - item.quantity, updatedAt := Some(now))];
            Fulfillable(products, items) <==> Fulfillable(next, items[1..])
  {
    var item, rest := items[0], items[1..];
    var p := products[item.productId];
    var next := products[item.productId := p.(stock := p.stock - item.quantity, updatedAt := Some(now))];
    if Fulfillable(products, items) {
      forall k | 0 <= k < |rest|
        ensures rest[k].quantity > 0 && rest[k].productId in next
        ensures QuantityOf(rest, rest[k].productId) <= next[rest[k].productId].stock
      {
        assert rest[k] == items[k + 1];
      }
    }
    if Fulfillable(next, rest) {
      forall k | 0 <= k < |items|
        ensures items[k].quantity > 0 && items[k].productId in products
        ensures QuantityOf(items, items[k].productId) <= products[items[k].productId].stock
      {
        if k == 0 {
          if Requested(rest, item.productId) {
            RequestedAt(rest, item.productId);
          } else {
            QuantityOfUnrequested(rest, item.productId);
          }
        } else {
          assert items[k] == rest[k - 1];
        }
      }
    }
  }

  /** The walk succeeds exactly when every quantity is positive, every product exists and
      every product's stock covers the total quantity asked of it: checking each item
      against the already-decremented stock is the same as checking the sums. */
  lemma {:induction false} FulfilSucceedsIff(products: map<int, Product>, items: seq<OrderItemDto>,
                                             now: Timestamp, lines: seq<OrderProduct>, total: int)
    ensures Fulfil(products, items, now, lines, total).error.None? <==> Fulfillable(products, items)
    decreases |items|
  {
    if items != [] {
      var item, rest := items[0], items[1..];
      if item.quantity <= 0 || item.productId !in products {
      } else {
        var p := products[item.productId];
        if p.stock < item.quantity {
          if Fulfillable(products, items) {
            QuantityOfPositive(rest, item.productId);
            assert false;
          }
        } else {
          var r := Reserve(p, item.quantity, now);
          var next := products[item.productId := r.value];
          FulfilSucceedsIff(next, rest, now, lines + [OrderProduct(r.value.id, item.quantity)],
                            total + r.value.price * item.quantity);
          FulfillableStep(products, items, now);
        }
      }
    }
  }

  /** The out-of-stock error of the source can never be raised: the quantity check runs
      first, and a positive quantity against zero stock already fails the
      insufficient-stock check. */
  lemma {:induction false} FulfilNeverOutOfStock(products: map<int, Product>, items: seq<OrderItemDto>,
                                                 now: Timestamp, lines: seq<OrderProduct>, total: int)
    ensures var f := Fulfil(products, items, now, lines, total);
            !(f.error.Some? && f.error.value.OutOfStock?)
    decreases |items|
  {
    if items != [] {
      var item := items[0];
      if item.quantity > 0 && item.productId in products {
        var r := Reserve(products[item.productId], item.quantity, now);
        if r.Success? {
          FulfilNeverOutOfStock(products[item.productId := r.value], items[1..], now,
                                lines + [OrderProduct(r.value.id, item.quantity)],
                                total + r.value.price * item.quantity);
        }
      }
    }
  }

  /** The walk reports a bad quantity only when some item has one. */
  lemma {:induction false} FulfilBlamesBadQuantity(products: map<int, Product>, items: seq<OrderItemDto>,
                                                   now: Timestamp, lines: seq<OrderProduct>, total: int)
    requires Fulfil(products, items, now, lines, total).error == Some(InvalidQuantity)
    ensures exists k :: 0 <= k < |items| && items[k].quantity <= 0
    decreases |items|
  {
    var item := items[0];
    if item.quantity > 0 {
      var r := Reserve(products[item.productId], item.quantity, now);
      FulfilBlamesBadQuantity(products[item.productId := r.value], items[1..], now,
                              lines + [OrderProduct(r.value.id, item.quantity)],
                              total + r.value.price * item.quantity);
      var k :| 0 <= k < |items[1..]| && items[1..][k].quantity <= 0;
      assert items[k + 1].quantity <= 0;
    }
  }

  // ---------------------------------------------------------------------------
  // The whole admission of a request.

  /** A missing customer is reported before the item list is looked at, so an empty list
      with an unknown customer reports the customer. */
  lemma PlaceOrderChecksCustomerFirst(t: Tables, dto: OrderCreateDto, now: Timestamp)
    ensures PlaceOrder(t, dto, now).error == Some(CustomerNotFound) <==> dto.customerId !in t.customers
    ensures dto.customerId in t.customers && dto.items == [] ==> PlaceOrder(t, dto, now).error == Some(EmptyOrder)
  {
    if dto.customerId in t.customers && |dto.items| > 0 {
      FulfilBlamesOnlyItems(t.products, dto.items, now, [], 0);
    }
  }

  /** The walk over the items never blames the customer or the item list. */
  lemma {:induction false} FulfilBlamesOnlyItems(products: map<int, Product>, items: seq<OrderItemDto>,
                                                       now: Timestamp, lines: seq<OrderProduct>, total: int)
    ensures var e := Fulfil(products, items, now, lines, total).error;
            e != Some(CustomerNotFound) && e != Some(EmptyOrder)
    decreases |items|
  {
    if items != [] {
      var item := items[0];
      if item.quantity > 0 && item.productId in products {
        var r := Reserve(products[item.productId], item.quantity, now);
        if r.Success? {
          FulfilBlamesOnlyItems(products[item.productId := r.value], items[1..], now,
                                      lines + [OrderProduct(r.value.id, item.quantity)],
                                      total + r.value.price * item.quantity);
        }
      }
    }
  }

  /** A request is admitted exactly when its customer exists, it has items, and the
      products cover them; an admitted request has one line per item, the total at the
      starting prices, and each product's stock lowered by exactly what was asked of it. */
  lemma PlaceOrderSucceeds(t: Tables, dto: OrderCreateDto, now: Timestamp)
    requires ProductsKeyed(t.products)
    ensures var f := PlaceOrder(t, dto, now);
            f.error.None? <==> dto.customerId in t.customers && |dto.items| > 0 && Fulfillable(t.products, dto.items)
    ensures var f := PlaceOrder(t, dto, now);
            f.error.None? ==>
              && f.lines == RequestedLines(dto.items)
              && f.total == Amount(t.products, dto.items)
              && f.products.Keys == t.products.Keys
              && forall id :: id in t.products ==>
                   f.products[id] == if Requested(dto.items, id)
                                     then t.products[id].(stock := t.products[id].stock - QuantityOf(dto.items, id), updatedAt := Some(now))
                                     else t.products[id]
  {
    if dto.customerId in t.customers && |dto.items| > 0 {
      FulfilSucceedsIff(t.products, dto.items, now, [], 0);
      if Fulfil(t.products, dto.items, now, [], 0).error.None? {
        FulfilLines(t.products, dto.items, now, [], 0);
        FulfilTotal(t.products, dto.items, now, [], 0);
        FulfilStockDrop(t.products, dto.items, now, [], 0);
      }
    }
  }

  /** A round trip: two items at 30.00 each, one asking for two
      keyboards and one for a mouse, give a total of 90.00 and take both stocks to zero. */
  lemma TwoItemOrder()
    ensures var t := Tables(
              map[7 := Customer(7, "Ada", "ada@example.com", "")],
              map[1 := Product(1, "Keyboard", "", 3000, 2, 0, None), 2 := Product(2, "Mouse", "", 3000, 1, 0, None)],
              map[]);
            var f := PlaceOrder(t, OrderCreateDto(7, [OrderItemDto(1, 2), OrderItemDto(2, 1)]), 100);
            && f.error.None?
            && f.total == 9000
            && f.lines == [OrderProduct(1, 2), OrderProduct(2, 1)]
            && f.products[1].stock == 0 && f.products[2].stock == 0
  {
  }

  /** Asking for 5 of a product with 3 in stock fails with the available and requested
      amounts, and leaves the stock at 3. */
  lemma ShortStockOrder()
    ensures var t := Tables(map[7 := Customer(7, "Ada", "ada@example.com", "")],
                            map[1 := Product(1, "Keyboard", "", 3000, 3, 0, None)], map[]);
            var f := PlaceOrder(t, OrderCreateDto(7, [OrderItemDto(1, 5)]), 100);
            f.error == Some(InsufficientStock("Keyboard", 3, 5)) && f.products[1].stock == 3
  {
  }

  /** A repeated product id is checked against the stock its earlier line left: two lines
      of 2 against a stock of 3 fail on the second line with 1 available. */
  lemma RepeatedProductSeesEarlierLine()
    ensures var t := Tables(map[7 := Customer(7, "Ada", "ada@example.com", "")],
                            map[1 := Product(1, "Keyboard", "", 3000, 3, 0, None)], map[]);
            var f := PlaceOrder(t, OrderCreateDto(7, [OrderItemDto(1, 2), OrderItemDto(1, 2)]), 100);
            f.error == Some(InsufficientStock("Keyboard", 1, 2))
  {
  }
}
