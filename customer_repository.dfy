/** CustomerRepository: customer rows of the shared context. */
module CustomerStore {
  import opened Wrappers
  import opened Entities
  import opened Data

  class CustomerRepository {
    const context: DbContext

    constructor (context: DbContext)
      ensures this.context == context
    {
      this.context := context;
    }

    /** FindAsync: the customer whose id is `id`, or nothing. */
    function GetById(id: int): (r: Option<Customer>)
      requires context.Valid()
      reads context
      ensures r.Some? ==> r.value.id == id && id in context.tracked.customers && context.tracked.customers[id] == r.value
      ensures r.None? ==> forall k :: k in context.tracked.customers ==> context.tracked.customers[k].id != id
    {
      Find(context.tracked.customers, id)
    }

    /** AnyAsync(c => c.Id == id), which finds a customer exactly when GetById does. */
    function Exists(id: int): (r: bool)
      requires context.Valid()
      reads context
      ensures r <==> GetById(id).Some?
    {
      exists k :: k in context.tracked.customers && context.tracked.customers[k].id == id
    }

    /** No customer has `email`; when `id` is given, the customer with that id is not counted. */
    function IsEmailUnique(email: string, id: Option<int>): (r: bool)
      requires context.Valid()
      reads context
      ensures r <==> forall k :: k in context.tracked.customers && (id.Some? ==> k != id.value) ==>
                                   context.tracked.customers[k].email != email
    {
      if id.Some? then
        !(exists k :: k in context.tracked.customers && context.tracked.customers[k].email == email &&
                    context.tracked.customers[k].id != id.value)
      else
        !(exists k :: k in context.tracked.customers && context.tracked.customers[k].email == email)
    }

    /** Stages the customer as a new row; the identity column gives it its id, and the
        customer is handed back. */
    method Add(customer: Customer) returns (r: Customer)
      requires context.Valid()
      modifies context`tracked, context`nextCustomerId
      ensures context.Valid()
      ensures r == customer.(id := old(context.nextCustomerId)) && r.id !in old(context.tracked.customers)
      ensures context.tracked == old(context.tracked).(customers := old(context.tracked.customers)[r.id := r])
      ensures context.nextCustomerId == old(context.nextCustomerId) + 1
    {
      r := customer.(id := context.nextCustomerId);
      context.tracked := context.tracked.(customers := context.tracked.customers[r.id := r]);
      context.nextCustomerId := context.nextCustomerId + 1;
    }

    /** Marks the (already tracked) customer modified: its new field values are staged. */
    method Update(customer: Customer)
      requires context.Valid() && customer.id in context.tracked.customers
      modifies context`tracked
      ensures context.Valid()
      ensures context.tracked == old(context.tracked).(customers := old(context.tracked.customers)[customer.id := customer])
    {
      context.tracked := context.tracked.(customers := context.tracked.customers[customer.id := customer]);
    }

    /** Stages the removal of the customer with that id, if there is one. */
    method Delete(id: int)
      requires context.Valid()
      modifies context`tracked
      ensures context.Valid()
      ensures context.tracked == old(context.tracked).(customers := old(context.tracked.customers) - {id})
      ensures id !in old(context.tracked.customers) ==> context.tracked == old(context.tracked)
    {
      var customer := GetById(id);
      if customer.Some? {
        context.tracked := context.tracked.(customers := context.tracked.customers - {id});
      } else {
        assert context.tracked.customers - {id} == context.tracked.customers;
      }
    }
  }
}
