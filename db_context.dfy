/** The persistence context shared by the repositories: what the change tracker holds
    (`tracked`, where Add, Remove and in-place field updates are staged) and what the
    database holds (`database`, written only by SaveChanges). */
module Data {
  import opened Wrappers
  import opened Entities

  /** The three tables, each a map from primary key to row. */
  datatype Tables = Tables(
    customers: map<int, Customer>,
    products: map<int, Product>,
    orders: map<int, Order>)

  /** Looks a row up by its primary key. */
  function Find<T>(table: map<int, T>, id: int): (r: Option<T>)
    ensures r.Some? <==> id in table
    ensures r.Some? ==> r.value == table[id]
  {
    if id in table then Some(table[id]) else None
  }

  /** Unique index on Customer.Email. */
  predicate EmailsUnique(customers: map<int, Customer>) {
    forall i, j :: i in customers && j in customers && i != j ==> customers[i].email != customers[j].email
  }

  /** Composite primary key (OrderId, ProductId) of the order lines: no product twice in one order. */
  predicate DistinctProducts(lines: seq<OrderProduct>) {
    forall a, b :: 0 <= a < b < |lines| ==> lines[a].productId != lines[b].productId
  }

  /** The constraints the database enforces when changes are saved. */
  predicate SchemaHolds(t: Tables) {
    && EmailsUnique(t.customers)
    && forall id :: id in t.orders ==> DistinctProducts(t.orders[id].orderProducts)
  }

  /** Every row is stored under its own id, and every id is a positive value below the
      table's identity counter. */
  ghost predicate Keyed(t: Tables, nextCustomerId: int, nextProductId: int, nextOrderId: int) {
    && 0 < nextCustomerId && 0 < nextProductId && 0 < nextOrderId
    && (forall id :: id in t.customers ==> t.customers[id].id == id && 0 < id < nextCustomerId)
    && (forall id :: id in t.products ==> t.products[id].id == id && 0 < id < nextProductId)
    && (forall id :: id in t.orders ==> t.orders[id].id == id && 0 < id < nextOrderId)
  }

  class DbContext {
    var tracked: Tables
    var database: Tables
    var nextCustomerId: int
    var nextProductId: int
    var nextOrderId: int
    ghost var saveCount: nat
    var disposeCount: nat

    ghost predicate Valid()
      reads this
    {
      && Keyed(tracked, nextCustomerId, nextProductId, nextOrderId)
      && SchemaHolds(database)
    }

    /** Nothing is staged: the tracker agrees with the database. */
    ghost predicate Clean()
      reads this
    {
      tracked == database
    }

    /** Opens a context over a database holding `rows`, whose identity columns will hand
        out the given next ids. */
    constructor (rows: Tables, nextCustomerId: int, nextProductId: int, nextOrderId: int)
      requires Keyed(rows, nextCustomerId, nextProductId, nextOrderId)
      requires SchemaHolds(rows)
      ensures Valid() && Clean()
      ensures database == rows
      ensures this.nextCustomerId == nextCustomerId && this.nextProductId == nextProductId
      ensures this.nextOrderId == nextOrderId
      ensures saveCount == 0 && disposeCount == 0
    {
      tracked, database := rows, rows;
      this.nextCustomerId, this.nextProductId, this.nextOrderId := nextCustomerId, nextProductId, nextOrderId;
      saveCount, disposeCount := 0, 0;
    }

    /** The single commit: all staged changes reach the database together, or, when they
        break a constraint, none of them does. */
    method SaveChanges() returns (ok: bool)
      requires Valid()
      modifies this`database, this`saveCount
      ensures Valid()
      ensures ok == SchemaHolds(tracked)
      ensures database == if ok then tracked else old(database)
      ensures saveCount == old(saveCount) + 1
    {
      ok := SchemaHolds(tracked);
      if ok {
        database := tracked;
      }
      saveCount := saveCount + 1;
    }

    method Dispose()
      modifies this`disposeCount
      ensures disposeCount == old(disposeCount) + 1
    {
      disposeCount := disposeCount + 1;
    }
  }
}
