/** UnitOfWork: one context shared by three lazily created repositories, a single
    commit, and an idempotent Dispose. */
module Persistence {
  import opened Data
  import opened CustomerStore
  import opened ProductStore
  import opened OrderStore
  import opened Entities

  class UnitOfWork {
    const context: DbContext
    var productRepository: ProductRepository?
    var customerRepository: CustomerRepository?
    var orderRepository: OrderRepository?
    var disposed: bool

    /** Whatever repositories exist work on this unit's own context. */
    ghost predicate Valid()
      reads this, context
    {
      && context.Valid()
      && (productRepository != null ==> productRepository.context == context)
      && (customerRepository != null ==> customerRepository.context == context)
      && (orderRepository != null ==> orderRepository.context == context)
    }

    constructor (context: DbContext)
      requires context.Valid()
      ensures Valid() && this.context == context && !disposed
      ensures productRepository == null && customerRepository == null && orderRepository == null
    {
      this.context := context;
      productRepository, customerRepository, orderRepository := null, null, null;
      disposed := false;
    }

    /** `_productRepository ??= new ProductRepository(_context)`. */
    method Products() returns (r: ProductRepository)
      requires Valid()
      modifies this`productRepository
      ensures Valid() && r.context == context && productRepository == r
      ensures old(productRepository) != null ==> r == old(productRepository)
      ensures old(productRepository) == null ==> fresh(r)
    {
      if productRepository == null {
        productRepository := new ProductRepository(context);
      }
      r := productRepository;
    }

    /** `_customerRepository ??= new CustomerRepository(_context)`. */
    method Customers() returns (r: CustomerRepository)
      requires Valid()
      modifies this`customerRepository
      ensures Valid() && r.context == context && customerRepository == r
      ensures old(customerRepository) != null ==> r == old(customerRepository)
      ensures old(customerRepository) == null ==> fresh(r)
    {
      if customerRepository == null {
        customerRepository := new CustomerRepository(context);
      }
      r := customerRepository;
    }

    /** `_orderRepository ??= new OrderRepository(_context)`. */
    method Orders() returns (r: OrderRepository)
      requires Valid()
      modifies this`orderRepository
      ensures Valid() && r.context == context && orderRepository == r
      ensures old(orderRepository) != null ==> r == old(orderRepository)
      ensures old(orderRepository) == null ==> fresh(r)
    {
      if orderRepository == null {
        orderRepository := new OrderRepository(context);
      }
      r := orderRepository;
    }

    /** Commits everything staged through any of the three repositories at once. */
    method SaveChanges() returns (ok: bool)
      requires Valid()
      modifies context`database, context`saveCount
      ensures Valid()
      ensures ok == SchemaHolds(context.tracked)
      ensures context.database == if ok then context.tracked else old(context.database)
      ensures context.saveCount == old(context.saveCount) + 1
    {
      ok := context.SaveChanges();
    }

    /** The protected `Dispose(bool disposing)`: the context is disposed only on the
        first call, and only when `disposing`; the flag is set in every case. */
    method DisposeCore(disposing: bool)
      modifies this`disposed, context`disposeCount
      ensures disposed
      ensures context.disposeCount == old(context.disposeCount) + (if !old(disposed) && disposing then 1 else 0)
    {
      if !disposed {
        if disposing {
          context.Dispose();
        }
      }
      disposed := true;
    }

    /** The public `Dispose()`, i.e. `Dispose(true)`. */
    method Dispose()
      modifies this`disposed, context`disposeCount
      ensures disposed
      ensures context.disposeCount == old(context.disposeCount) + (if old(disposed) then 0 else 1)
    {
      DisposeCore(true);
    }
  }

  /** Two repositories taken from one unit stage into the same context, so one
      SaveChanges commits a customer and a product added through different repositories
      together; asking twice for a repository yields the same instance. */
  method SharedCommit(unit: UnitOfWork, customer: Customer, product: Product) returns (ok: bool)
    requires unit.Valid() && unit.context.Clean()
    requires forall k :: k in unit.context.tracked.customers ==> unit.context.tracked.customers[k].email != customer.email
    modifies unit, unit.context
    ensures unit.Valid() && ok && unit.context.Clean()
    ensures unit.context.database == old(unit.context.database).(
              customers := old(unit.context.database.customers)[old(unit.context.nextCustomerId) := customer.(id := old(unit.context.nextCustomerId))],
              products := old(unit.context.database.products)[old(unit.context.nextProductId) := product.(id := old(unit.context.nextProductId))])
  {
    var customers := unit.Customers();
    var again := unit.Customers();
    assert again == customers;
    var products := unit.Products();
    var c := customers.Add(customer);
    var p := products.Add(product);
    ok := unit.SaveChanges();
  }

  /** A second Dispose leaves the context alone. */
  method DisposeTwice(unit: UnitOfWork)
    modifies unit, unit.context
    ensures unit.disposed
    ensures unit.context.disposeCount <= old(unit.context.disposeCount) + 1
    ensures !old(unit.disposed) ==> unit.context.disposeCount == old(unit.context.disposeCount) + 1
  {
    unit.Dispose();
    unit.Dispose();
  }
}
