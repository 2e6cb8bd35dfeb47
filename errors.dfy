/** The exceptions the services throw, one constructor per message. */
module Errors {

  datatype ServiceError =
    | CustomerNotFound                  // "Customer not found"
    | EmptyOrder                        // "Order must contain at least one item"
    | InvalidQuantity                   // "Quantity must be greater than zero"
    | ProductNotFound(productId: int)   // "Product with ID {id} not found"
    | InsufficientStock(productName: string, available: int, requested: int)
    | OutOfStock(productName: string)   // "Product '{name}' is out of stock"
    | EmailInUse                        // "Email is already in use"
    | EmailInUseByAnotherCustomer       // "Email is already in use by another customer"
    | ArgumentNull                      // ArgumentNullException for a null request
    | KeyAlreadyTracked                 // the change tracker refuses a second entity with a key it already tracks
    | CommitConflict                    // the database rejects SaveChanges
}
