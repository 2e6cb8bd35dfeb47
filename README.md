# E_Commerce order workflow: a Dafny model

This project models the order workflow of the E_Commerce back end and the store it runs on.

**The store.** A unit of work hands out three repositories (customers, products, orders). All three share one context. The context keeps two copies of the tables:

- `tracked`: the change tracker's view. `Add`, `Remove` and in-place field updates are staged here.
- `database`: the committed rows. Only `SaveChanges` writes here.

`SaveChanges` commits the staged tables when they satisfy the two database constraints of the mapping. The constraints are a unique index on the customer email and the composite key (order, product) of the order lines. Otherwise the commit is refused and the database is left as it was.

**Order creation.** `OrderService.CreateOrder` is an imperative method. It loops over the items and lowers stock in the tracked store. It is proved to follow `OrderWorkflow.PlaceOrder`, a pure definition of the same checks. The lemmas about `PlaceOrder` and `Fulfil` state the rest:

- the first failing item decides the error;
- stock never goes negative;
- on success each product's stock drops by exactly what was asked of it;
- the total is the sum of price × quantity;
- success holds exactly when the summed quantities are covered;
- the out-of-stock error can never be raised.

**The rest.** The customer and product services, the three repositories, the unit of work and the FluentValidation validators are modelled too. The validators are functions returning the list of failure messages.

Modelling conventions:

- Prices are exact integers (cents).
- The clock is a `now` parameter.
- `OrderStatus` is its enum's underlying integer, with the five declared members 0..4. This makes `IsInEnum` meaningful.
- The three single-row reads (`GetOrderById`, `GetCustomerById`, `GetProductById`) return an `Option`: nothing stands for the C# `null`. Every other service method returns a `Result`. Where the C# code throws, the model returns `Failure(error)`. `KeyAlreadyTracked` stands for the `InvalidOperationException` of the change tracker when an order is added with two lines for one product. `CommitConflict` stands for a `DbUpdateException` from `SaveChanges`.

## Model

| member | source | states |
|---|---|---|
| Data.DbContext.SaveChanges | E_Commerce.Infrastructure/Data/ECommerceDbContext.cs:36-62 | commits exactly when the unique email index and the (order, product) key hold for the staged tables; otherwise the database is unchanged; counts one save either way |
| CustomerStore.CustomerRepository.GetById | E_Commerce.Infrastructure/Repositories/CustomerRepository.cs:24-27 | the customer stored under that id, or nothing when no customer has it |
| CustomerStore.CustomerRepository.Exists | E_Commerce.Infrastructure/Repositories/CustomerRepository.cs:49-52 | true exactly when GetById finds a customer |
| CustomerStore.CustomerRepository.IsEmailUnique | E_Commerce.Infrastructure/Repositories/CustomerRepository.cs:54-61 | true exactly when no customer has the email; with an id, the customer with that id is not counted |
| CustomerStore.CustomerRepository.Add | E_Commerce.Infrastructure/Repositories/CustomerRepository.cs:29-33 | stages the customer under a fresh id and hands it back with only the id set; nothing else changes |
| CustomerStore.CustomerRepository.Update | E_Commerce.Infrastructure/Repositories/CustomerRepository.cs:35-38 | stages the new field values of the tracked row; the database is untouched |
| CustomerStore.CustomerRepository.Delete | E_Commerce.Infrastructure/Repositories/CustomerRepository.cs:40-47 | stages the removal of that one customer; an absent id changes nothing |
| ProductStore.ProductRepository.GetById | E_Commerce.Infrastructure/Repositories/ProductRepository.cs:24-27 | the product stored under that id, or nothing |
| ProductStore.ProductRepository.Exists | E_Commerce.Infrastructure/Repositories/ProductRepository.cs:49-52 | true exactly when GetById finds a product |
| ProductStore.ProductRepository.Add | E_Commerce.Infrastructure/Repositories/ProductRepository.cs:29-33 | stages the product under a fresh id and hands it back |
| ProductStore.ProductRepository.Update | E_Commerce.Infrastructure/Repositories/ProductRepository.cs:35-38 | only stages the product's new values; nothing is committed |
| ProductStore.ProductRepository.Delete | E_Commerce.Infrastructure/Repositories/ProductRepository.cs:40-47 | stages the removal of that one product; an absent id changes nothing |
| OrderStore.OrderRepository.GetAll | E_Commerce.Infrastructure/Repositories/OrderRepository.cs:21-28 | every stored order, and only stored orders |
| OrderStore.OrderRepository.GetById | E_Commerce.Infrastructure/Repositories/OrderRepository.cs:30-37 | the order with that id, or nothing |
| OrderStore.OrderRepository.Exists | E_Commerce.Infrastructure/Repositories/OrderRepository.cs:59-62 | true exactly when GetById finds an order |
| OrderStore.OrderRepository.GetOrdersByCustomerId | E_Commerce.Infrastructure/Repositories/OrderRepository.cs:64-72 | exactly the stored orders whose customer id is the given one |
| OrderStore.OrderRepository.CustomerListsPartition | E_Commerce.Infrastructure/Repositories/OrderRepository.cs:64-72 | each order is in its own customer's list and in no other |
| OrderStore.OrderRepository.Add | E_Commerce.Infrastructure/Repositories/OrderRepository.cs:39-43 | stages the order with its lines under a fresh id; an order naming one product on two lines is refused by the change tracker, with nothing staged |
| OrderStore.OrderRepository.Update | E_Commerce.Infrastructure/Repositories/OrderRepository.cs:45-48 | stages the order's new values |
| OrderStore.OrderRepository.Delete | E_Commerce.Infrastructure/Repositories/OrderRepository.cs:50-57 | stages the removal of that one order; an absent id changes nothing |
| Data.DbContext.Dispose | E_Commerce.Infrastructure/UnitOfWork/UnitOfWork.cs:39 | each call disposes the context once more (counted), and changes nothing else |
| Persistence.UnitOfWork.Products | E_Commerce.Infrastructure/UnitOfWork/UnitOfWork.cs:22 | creates the repository on first use, over the unit's context, and returns the same instance afterwards |
| Persistence.UnitOfWork.Customers | E_Commerce.Infrastructure/UnitOfWork/UnitOfWork.cs:24 | as Products, for customers |
| Persistence.UnitOfWork.Orders | E_Commerce.Infrastructure/UnitOfWork/UnitOfWork.cs:26 | as Products, for orders |
| Persistence.UnitOfWork.SaveChanges | E_Commerce.Infrastructure/UnitOfWork/UnitOfWork.cs:28-31 | the one commit of the shared context |
| Persistence.UnitOfWork.DisposeCore | E_Commerce.Infrastructure/UnitOfWork/UnitOfWork.cs:33-43 | disposes the context only on the first call and only when disposing; the flag is set afterwards in every case |
| Persistence.UnitOfWork.Dispose | E_Commerce.Infrastructure/UnitOfWork/UnitOfWork.cs:45-49 | the context is disposed once, by the first call |
| Persistence.SharedCommit | E_Commerce.Infrastructure/UnitOfWork/UnitOfWork.cs:17-31 | a customer and a product staged through two repositories of one unit are committed together by one save; asking twice for a repository gives the same instance |
| Persistence.DisposeTwice | E_Commerce.Infrastructure/UnitOfWork/UnitOfWork.cs:33-49 | a second Dispose leaves the context alone |
| OrderWorkflow.Reserve | E_Commerce.Application/Services/OrderService.cs:88-96 | for a positive quantity: succeeds exactly when stock covers it, never reports out-of-stock, and leaves a non-negative stock |
| OrderWorkflow.Fulfil | E_Commerce.Application/Services/OrderService.cs:79-108 | the walk keeps the set of product ids and adds at most one line per item to the lines it is given, exactly one per item when no item fails |
| OrderWorkflow.PlaceOrder | E_Commerce.Application/Services/OrderService.cs:64-108 | the checks of order creation keep the set of product ids; an admitted request has an existing customer and one line per item, at least one |
| OrderWorkflow.FulfilAppend | E_Commerce.Application/Services/OrderService.cs:79-108 | items are walked in order: the first failing item decides the error and later items are not looked at |
| OrderWorkflow.FulfilOnlyDecrements | E_Commerce.Application/Services/OrderService.cs:84-97 | the walk keeps every product row and changes one only by lowering its stock to a non-negative value and stamping it |
| OrderWorkflow.FulfilKeepsStockNonNegative | E_Commerce.Application/Services/OrderService.cs:88-95 | stock that starts non-negative stays non-negative |
| OrderWorkflow.FulfilStockDrop | E_Commerce.Application/Services/OrderService.cs:84-97 | on success each product's stock has dropped by exactly the total quantity asked of it (repeated ids included); other products are untouched |
| OrderWorkflow.FulfilLines | E_Commerce.Application/Services/OrderService.cs:100-105 | on success, one line per item in order, with the item's product id and quantity |
| OrderWorkflow.FulfilTotal | E_Commerce.Application/Services/OrderService.cs:76-107 | on success the total is the sum of price × quantity over the items, at the starting prices |
| OrderWorkflow.FulfilSucceedsIff | E_Commerce.Application/Services/OrderService.cs:79-95 | the walk succeeds exactly when all quantities are positive, all products exist and each product's stock covers the summed quantities asked of it |
| OrderWorkflow.FulfilNeverOutOfStock | E_Commerce.Application/Services/OrderService.cs:81-92 | the out-of-stock error is unreachable |
| OrderWorkflow.FulfilBlamesBadQuantity | E_Commerce.Application/Services/OrderService.cs:81-82 | the bad-quantity error is reported only when some item has a non-positive quantity |
| OrderWorkflow.FulfilBlamesOnlyItems | E_Commerce.Application/Services/OrderService.cs:79-108 | the walk never reports a missing customer or an empty order |
| OrderWorkflow.PlaceOrderChecksCustomerFirst | E_Commerce.Application/Services/OrderService.cs:66-73 | a missing customer is reported exactly when the customer is missing, even for an empty list; an existing customer with no items gets the empty-order error |
| OrderWorkflow.PlaceOrderSucceeds | E_Commerce.Application/Services/OrderService.cs:64-117 | a request is admitted exactly when the customer exists, there are items and the stock covers them; then lines, total and stock drops are as above |
| OrderWorkflow.TwoItemOrder | E_Commerce.Application/Services/OrderService.cs:64-117 | two items at 30.00 (2 and 1 units) give a total of 90.00 and take both stocks to 0 |
| OrderWorkflow.ShortStockOrder | E_Commerce.Application/Services/OrderService.cs:88-89 | 5 units against a stock of 3 fail with available 3, requested 5, and the stock stays 3 |
| OrderWorkflow.RepeatedProductSeesEarlierLine | E_Commerce.Application/Services/OrderService.cs:84-97 | a repeated product id is checked against the stock its earlier line left |
| Dtos.OrderProductDto.Subtotal | E_Commerce.Application/DTOs/OrderDto.cs:27 | a line of no units costs nothing; a line of at least one unit at a non-negative price costs at least that price |
| OrderServices.LineDto | E_Commerce.Application/Services/OrderService.cs:163-170 | the projected line carries the product's id, name, description and current price and the line's quantity, so its subtotal is the current price × quantity |
| OrderServices.LineDtos | E_Commerce.Application/Services/OrderService.cs:163-170 | one projected line per order line, in order, with the product's current name, description and price |
| OrderServices.MapOrderToDto | E_Commerce.Application/Services/OrderService.cs:151-171 | ProductCount equals the number of lines; each line's price is the product's current price |
| OrderServices.SubtotalsMatchAmount | E_Commerce.Application/DTOs/OrderDto.cs:27 | the subtotals of the lines a request produces add up to its amount, at the same prices |
| OrderServices.LivePriceAfterRepricing | E_Commerce.Application/Services/OrderService.cs:168 | after a price change the projected subtotals no longer add up to the stored total: the price is live, not a snapshot |
| OrderServices.SchemaWithNewOrder | E_Commerce.Infrastructure/Data/ECommerceDbContext.cs:59 | adding an order to accepted tables is accepted exactly when the order names no product twice |
| OrderServices.RequestedLinesDistinct | E_Commerce.Infrastructure/Data/ECommerceDbContext.cs:59 | the lines of a request satisfy the composite key exactly when no product id repeats |
| OrderServices.AdmittedProducts | E_Commerce.Application/Services/OrderService.cs:84-97 | an admitted request leaves the same product ids, each at its own id and price, with every item's product among them |
| OrderServices.AdmittedOrder | E_Commerce.Application/Services/OrderService.cs:100-122 | an admitted request gives one resolving line per item, the amount at the starting prices, and subtotals that add up to it |
| OrderServices.OrderService.GetOrderById | E_Commerce.Application/Services/OrderService.cs:37-62 | nothing exactly for an unknown id; otherwise the details with the customer's name, line count and live line prices |
| OrderServices.OrderService.ReserveItems | E_Commerce.Application/Services/OrderService.cs:79-108 | the loop follows Fulfil: staged products, lines, total and error are Fulfil's |
| OrderServices.OrderService.SaveOrder | E_Commerce.Application/Services/OrderService.cs:110-122 | builds the Pending order stamped now; a product on two lines is refused when staged, with no save; otherwise stages it, saves once, and projects it |
| OrderServices.OrderService.CreateOrder | E_Commerce.Application/Services/OrderService.cs:64-123 | returns PlaceOrder's error with the database and save count unchanged; an admitted request naming a product twice fails when the order is staged, with no save; otherwise stages the order, saves once, and returns a Pending order with one line per item and total Σ price × quantity equal to the sum of its subtotals; in a clean session it succeeds exactly when admitted with no repeated product |
| OrderServices.OrderService.UpdateOrderStatus | E_Commerce.Application/Services/OrderService.cs:125-138 | false with no write for an unknown id; otherwise any status is written, the order stamped and saved once; in a clean session it always commits |
| CustomerServices.ToDto | E_Commerce.Application/Services/CustomerService.cs:49-55 | the projection carries id, name, email and phone unchanged |
| CustomerServices.ToDtoInjective | E_Commerce.Application/Services/CustomerService.cs:49-55 | the projection copies all four fields, so it loses nothing |
| CustomerServices.CustomerService.GetCustomerById | E_Commerce.Application/Services/CustomerService.cs:42-56 | nothing for an unknown id; otherwise the four fields unchanged |
| CustomerServices.CustomerService.CreateCustomer | E_Commerce.Application/Services/CustomerService.cs:58-82 | a taken email fails with nothing staged or saved; otherwise stores exactly the given name, email and phone and saves once |
| CustomerServices.CustomerService.UpdateCustomer | E_Commerce.Application/Services/CustomerService.cs:84-103 | false with no write for an unknown id; an email of another customer fails with no write; otherwise overwrites the three fields and saves once; keeping one's own email succeeds |
| CustomerServices.CustomerService.DeleteCustomer | E_Commerce.Application/Services/CustomerService.cs:105-115 | false with no write for an unknown id; otherwise removes that customer and saves once |
| ProductServices.MapToDto | E_Commerce.Application/Services/ProductService.cs:101-113 | the projection carries all seven fields unchanged |
| ProductServices.MapToDtoInjective | E_Commerce.Application/Services/ProductService.cs:101-113 | the projection copies all seven fields, so it loses nothing |
| ProductServices.ProductService.GetProductById | E_Commerce.Application/Services/ProductService.cs:36-44 | nothing for an unknown id; otherwise the product's projection |
| ProductServices.ProductService.CreateProduct | E_Commerce.Application/Services/ProductService.cs:46-64 | a missing request fails before anything is touched; otherwise copies the four fields, created now, no update time, saved once |
| ProductServices.ProductService.UpdateProduct | E_Commerce.Application/Services/ProductService.cs:66-86 | a missing request fails before the lookup; an unknown id gives nothing and saves nothing; otherwise overwrites the four fields (negative stock included), stamps and saves once |
| ProductServices.ProductService.DeleteProduct | E_Commerce.Application/Services/ProductService.cs:88-99 | false with no write for an unknown id; otherwise removes that product and saves once |
| OrderValidators.ValidateOrderItem | E_Commerce.Application/Validators/OrderValidator.cs:27-37 | reports a missing product exactly when the product id is not positive and a bad quantity exactly when the quantity is not positive, and no other message |
| OrderValidators.ValidateItems | E_Commerce.Application/Validators/OrderValidator.cs:17-23 | at most two messages per item; a missing product is reported when some item's product id is not positive, a bad quantity when some item's quantity is not positive |
| OrderValidators.ValidateOrderCreate | E_Commerce.Application/Validators/OrderValidator.cs:6-25 | at most three messages plus two per item; reports the customer when its id is not positive, the empty list when there are no items, and a bad quantity when some item has one |
| OrderValidators.ValidateOrderStatusUpdate | E_Commerce.Application/Validators/OrderValidator.cs:39-46 | accepts exactly the declared statuses |
| OrderValidators.ItemRulesAgree | E_Commerce.Application/Validators/OrderValidator.cs:17-36 | the child rules accept a list exactly when OrderItemValidator accepts each item |
| OrderValidators.OrderCreateAccepts | E_Commerce.Application/Validators/OrderValidator.cs:6-25 | accepted exactly when the customer id is positive, there is an item, and each item's product id and quantity are positive |
| OrderValidators.EmptyItemsReportedTwice | E_Commerce.Application/Validators/OrderValidator.cs:13-15 | an empty list is reported by both of its rules |
| OrderValidators.AcceptedOrderPassesItemChecks | E_Commerce.Application/Validators/OrderValidator.cs:13-23 | an accepted request never hits the empty-order or bad-quantity errors of order creation |
| ProductValidators.ValidateProduct | E_Commerce.Application/Validators/ProductValidator.cs:6-20 | one message per failing rule among name (non-blank, at most 100), price and stock; the price and stock messages appear when their rules fail; there is no description rule |
| ProductValidators.ValidateProductCreate | E_Commerce.Application/Validators/ProductValidator.cs:22-39 | one message per failing rule among name (non-blank, at most 100), description (at most 500), price and stock; the description, price and stock messages appear when their rules fail |
| ProductValidators.ValidateProductUpdate | E_Commerce.Application/Validators/ProductValidator.cs:41-58 | as ValidateProductCreate: one message per failing rule, the description, price and stock messages among them |
| ProductValidators.ProductCreateAccepts | E_Commerce.Application/Validators/ProductValidator.cs:22-39 | accepted exactly when the name is non-blank and at most 100 characters, the description at most 500, the price positive and the stock non-negative |
| ProductValidators.CreateAndUpdateAgree | E_Commerce.Application/Validators/ProductValidator.cs:22-58 | create and update validators report the same failures for the same values |
| ProductValidators.CreateAcceptedIsValidProduct | E_Commerce.Application/Validators/ProductValidator.cs:6-39 | whatever the create validator accepts, ProductValidator accepts |
| ProductValidators.LongDescriptionOnlyFailsCreate | E_Commerce.Application/Validators/ProductValidator.cs:6-39 | a 501-character description passes ProductValidator (no description rule) and fails only the create validator's description rule |
| CustomerValidators.ValidateCustomerCreate | E_Commerce.Application/Validators/CustomerValidator.cs:9-22 | one message per failing rule among name (non-blank, at most 100), email (non-blank, well-formed, at most 100) and phone (at most 20); the blank-name, blank-email, email-format and phone messages appear when their rules fail |
| CustomerValidators.CustomerCreateAccepts | E_Commerce.Application/Validators/CustomerValidator.cs:9-22 | accepted exactly when the name is non-blank and at most 100, the email non-blank, well-formed and at most 100, and the phone at most 20; email uniqueness is not part of it |
| CustomerValidators.BlankNameRejected | E_Commerce.Application/Validators/CustomerValidator.cs:11-12 | a name of blanks is reported as missing |

## Where the code differs from what one might expect (the model follows the code)

- **No price snapshot.** One might expect each order line to record the unit price at order time. The code stores no price on the line. `MapOrderToDto` and `GetOrderByIdAsync` read the product's current price. The stored `TotalPrice` is fixed at creation, but the projected subtotals follow later price changes (`LivePriceAfterRepricing`).
- **Failure after earlier items.** One might expect a failing item to leave all stock unchanged. The code has already lowered the stock of earlier items on the tracked entities when a later item fails. Nothing is saved, so the database is unchanged. The staged decrements remain in the context, which `CreateOrder`'s contract states.
- **Empty order.** One might expect an empty order to fail before any repository is touched. The code looks the customer up first, so an empty order with an unknown customer reports the customer (`PlaceOrderChecksCustomerFirst`).
- **Out-of-stock error.** The code has an `OutOfStock` error for a product with no stock, but it cannot be raised: the stock check before it already fails for any positive quantity (`FulfilNeverOutOfStock`).
- **Negative stock.** One might expect stock never to go negative. `UpdateProductAsync` writes any stock value; only the validator in front of it refuses negative stock.
- **Repeated product id.** An order naming the same product twice passes every check of the loop, and the stock is checked cumulatively. The lines are then keyed by (order, product), so the change tracker refuses the order when it is added, before any save: such an order never succeeds, and nothing is saved (`CreateOrder`, `OrderRepository.Add`, `RequestedLinesDistinct`).

## Left out

- HTTP controllers, dependency-injection wiring, migrations, seed data and the exception-to-status middleware: transport and configuration, not behaviour of the core.
- `async`/`await` and concurrent requests. Two concurrent orders against the same stock depend on database isolation, which this code does not choose.
- Floating point: `Price`, `TotalPrice` and `Subtotal` are `double` in the source. They are exact integers here, with no rounding.
- `DateTime.Now` is the `now` parameter. `CreateOrderAsync` reads the clock once per item for the product's `UpdatedAt` and once more for the order's `OrderDate`; the model uses one reading for all of them, so the stamps of one call are equal in the model, which the source does not promise.
- Entity Framework semantics beyond the two copies of the tables. Queries read the tracked view. Identity values are assigned when a row is added, not when it is saved. The row count returned by `SaveChanges` is not modelled. Navigation fix-up is not modelled: `MapOrderToDto` receives the customer fetched at the start of `CreateOrder`, and reads resolve references through the tables.
- Cascade deletes (customer to orders, product to order lines) and foreign-key checks at commit. `GetOrderById` instead requires that the order's customer and products are present, as the foreign keys guarantee in the source.
- CustomerStore.CustomerRepository.IsEmailUnique and Data.EmailsUnique compare emails with exact equality. In the source both the query and the unique index compare under the database's collation, which on SQL Server is usually case-insensitive, so two emails differing only in case clash there and not in the model.
- OrderStore.OrderRepository.Add: when the change tracker refuses an order, the model stages nothing of it. Which parts of the order graph stay tracked after that exception is not modelled.
- Column length limits of the mapping (name, email, phone). The commit checks only the unique email index and the order-line key.
- `GetAllOrdersAsync`, `GetOrdersByCustomerIdAsync` and `GetCustomerByIdAsync` of `OrderService`, `GetAllCustomersAsync` and `GetAllProductsAsync`. These are projections of the repository queries already modelled, and list order is not modelled (`GetAll` returns a set).
- The lazy creation of repositories on read paths: the read functions query the context directly, since a function cannot create an object.
- Null strings, and a null item list in an order request. `null` is modelled only for the product requests, as `None`.
- Use of a context after it has been disposed.
- `EmailAddress()`, FluentValidation's email-format rule, is a parameter of the customer validator.
- `MaximumLength` counts characters (Unicode scalar values), not UTF-16 code units.
- The exception messages are in the comments of `Errors.ServiceError`. The interpolated product name and amounts are carried as fields.
