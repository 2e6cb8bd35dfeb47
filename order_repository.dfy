/** OrderRepository: order rows (with their lines) of the shared context. */
module OrderStore {
  import opened Wrappers
  import opened Entities
  import opened Errors
  import opened Data

  class OrderRepository {
    const context: DbContext

    constructor (context: DbContext)
      ensures this.context == context
    {
      this.context := context;
    }

    /** Every order. The order of the list is not modelled: the rows come as a set. */
    function GetAll(): (r: set<Order>)
      requires context.Valid()
      reads context
      ensures forall id :: id in context.tracked.orders ==> context.tracked.orders[id] in r
      ensures forall o :: o in r ==> o.id in context.tracked.orders && context.tracked.orders[o.id] == o
    {
      set id | id in context.tracked.orders :: context.tracked.orders[id]
    }

    /** FirstOrDefaultAsync(o => o.Id == id): the order with that id, or nothing. */
    function GetById(id: int): (r: Option<Order>)
      requires context.Valid()
      reads context
      ensures r.Some? ==> r.value.id == id && id in context.tracked.orders && context.tracked.orders[id] == r.value
      ensures r.None? ==> forall k :: k in context.tracked.orders ==> context.tracked.orders[k].id != id
    {
      Find(context.tracked.orders, id)
    }

    /** AnyAsync(o => o.Id == id), which finds an order exactly when GetById does. */
    function Exists(id: int): (r: bool)
      requires context.Valid()
      reads context
      ensures r <==> GetById(id).Some?
    {
      exists k :: k in context.tracked.orders && context.tracked.orders[k].id == id
    }

    /** Where(o => o.CustomerId == customerId): the customer's orders, as a set. */
    function GetOrdersByCustomerId(customerId: int): (r: set<Order>)
      requires context.Valid()
      reads context
      ensures forall o :: o in r <==> o in GetAll() && o.customerId == customerId
    {
      set id | id in context.tracked.orders && context.tracked.orders[id].customerId == customerId
        :: context.tracked.orders[id]
    }

    /** The per-customer lists partition all orders: each order is in its own customer's
        list and in no other. */
    lemma CustomerListsPartition(o: Order, customerId: int)
      requires context.Valid()
      requires o in GetAll()
      ensures o in GetOrdersByCustomerId(customerId) <==> customerId == o.customerId
    {
    }

    /** Stages the order, with its lines, as a new row; the identity column gives it its
        id. The change tracker keys a line by its order and its product, so an order that
        names a product on two lines is refused here, with nothing staged. */
    method Add(order: Order) returns (r: Result<Order, ServiceError>)
      requires context.Valid()
      modifies context`tracked, context`nextOrderId
      ensures context.Valid()
      ensures !DistinctProducts(order.orderProducts) ==>
                && r == Failure(KeyAlreadyTracked)
                && context.tracked == old(context.tracked) && context.nextOrderId == old(context.nextOrderId)
      ensures DistinctProducts(order.orderProducts) ==>
                && r == Success(order.(id := old(context.nextOrderId))) && r.value.id !in old(context.tracked.orders)
                && context.tracked == old(context.tracked).(orders := old(context.tracked.orders)[r.value.id := r.value])
                && context.nextOrderId == old(context.nextOrderId) + 1
    {
      if !DistinctProducts(order.orderProducts) {
        return Failure(KeyAlreadyTracked);
      }
      var stored := order.(id := context.nextOrderId);
      context.tracked := context.tracked.(orders := context.tracked.orders[stored.id := stored]);
      context.nextOrderId := context.nextOrderId + 1;
      r := Success(stored);
    }

    /** Marks the (already tracked) order modified: its new field values are staged. */
    method Update(order: Order)
      requires context.Valid() && order.id in context.tracked.orders
      modifies context`tracked
      ensures context.Valid()
      ensures context.tracked == old(context.tracked).(orders := old(context.tracked.orders)[order.id := order])
    {
      context.tracked := context.tracked.(orders := context.tracked.orders[order.id := order]);
    }

    /** Stages the removal of the order with that id, if there is one. */
    method Delete(id: int)
      requires context.Valid()
      modifies context`tracked
      ensures context.Valid()
      ensures context.tracked == old(context.tracked).(orders := old(context.tracked.orders) - {id})
      ensures id !in old(context.tracked.orders) ==> context.tracked == old(context.tracked)
    {
      var order := GetById(id);
      if order.Some? {
        context.tracked := context.tracked.(orders := context.tracked.orders - {id});
      } else {
        assert context.tracked.orders - {id} == context.tracked.orders;
      }
    }
  }
}
