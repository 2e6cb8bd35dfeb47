/** CustomerService: the projection of a customer, and create, update and delete with the
    service-level check that no two customers share an email. */
module CustomerServices {
  import opened Wrappers
  import opened Entities
  import opened Dtos
  import opened Errors
  import opened Data
  import opened CustomerStore
  import opened Persistence

  /** The projection copies the four fields, so it loses nothing. */
  function ToDto(c: Customer): (r: CustomerDto)
    ensures r.id == c.id && r.name == c.name && r.email == c.email && r.phone == c.phone
  {
    CustomerDto(c.id, c.name, c.email, c.phone)
  }

  /** Two customers with the same projection are the same customer. */
  lemma ToDtoInjective(a: Customer, b: Customer)
    requires ToDto(a) == ToDto(b)
    ensures a == b
  {
  }

  /** Storing a customer whose email no other row has keeps the database constraints. */
  lemma SchemaWithCustomer(t: Tables, id: int, c: Customer)
    requires SchemaHolds(t)
    requires forall k :: k in t.customers && k != id ==> t.customers[k].email != c.email
    ensures SchemaHolds(t.(customers := t.customers[id := c]))
  {
  }

  /** Removing a customer keeps the database constraints. */
  lemma SchemaWithoutCustomer(t: Tables, id: int)
    requires SchemaHolds(t)
    ensures SchemaHolds(t.(customers := t.customers - {id}))
  {
  }

  class CustomerService {
    const unitOfWork: UnitOfWork

    constructor (unitOfWork: UnitOfWork)
      ensures this.unitOfWork == unitOfWork
    {
      this.unitOfWork := unitOfWork;
    }

    /** GetCustomerByIdAsync: nothing for an unknown id, otherwise the customer's four
        fields unchanged. */
    function GetCustomerById(id: int): (r: Option<CustomerDto>)
      requires unitOfWork.Valid()
      reads unitOfWork, unitOfWork.context
      ensures r.None? <==> id !in unitOfWork.context.tracked.customers
      ensures r.Some? ==>
                var c := unitOfWork.context.tracked.customers[id];
                r.value.id == id && r.value.name == c.name && r.value.email == c.email && r.value.phone == c.phone
    {
      match Find(unitOfWork.context.tracked.customers, id)
      case None => None
      case Some(c) => Some(ToDto(c))
    }

    /** CreateCustomerAsync: a taken email fails before anything is staged or saved;
        otherwise the new customer holds exactly the given name, email and phone, gets
        the next id and is saved once. */
    method CreateCustomer(dto: CustomerCreateDto) returns (r: Result<CustomerDto, ServiceError>)
      requires unitOfWork.Valid()
      modifies unitOfWork`customerRepository
      modifies unitOfWork.context`tracked, unitOfWork.context`database, unitOfWork.context`saveCount,
               unitOfWork.context`nextCustomerId
      ensures unitOfWork.Valid()
      ensures var taken := exists k :: k in old(unitOfWork.context.tracked.customers) &&
                                       old(unitOfWork.context.tracked.customers)[k].email == dto.email;
              taken ==>
                && r == Failure(EmailInUse)
                && unitOfWork.context.tracked == old(unitOfWork.context.tracked)
                && unitOfWork.context.nextCustomerId == old(unitOfWork.context.nextCustomerId)
                && unitOfWork.context.database == old(unitOfWork.context.database)
                && unitOfWork.context.saveCount == old(unitOfWork.context.saveCount)
      ensures var taken := exists k :: k in old(unitOfWork.context.tracked.customers) &&
                                       old(unitOfWork.context.tracked.customers)[k].email == dto.email;
              var stored := Customer(old(unitOfWork.context.nextCustomerId), dto.name, dto.email, dto.phone);
              !taken ==>
                && unitOfWork.context.tracked == old(unitOfWork.context.tracked).(
                     customers := old(unitOfWork.context.tracked.customers)[stored.id := stored])
                && unitOfWork.context.nextCustomerId == old(unitOfWork.context.nextCustomerId) + 1
                && unitOfWork.context.saveCount == old(unitOfWork.context.saveCount) + 1
                && (r.Success? <==> SchemaHolds(unitOfWork.context.tracked))
                && (r.Success? ==> r.value == ToDto(stored) && unitOfWork.context.database == unitOfWork.context.tracked)
                && (r.Failure? ==> r.error == CommitConflict && unitOfWork.context.database == old(unitOfWork.context.database))
      ensures old(unitOfWork.context.Clean()) ==> (r.Success? || r == Failure(EmailInUse))
    {
      var customers := unitOfWork.Customers();
      var unique := customers.IsEmailUnique(dto.email, None);
      if !unique {
        return Failure(EmailInUse);
      }
      assert forall k :: k in unitOfWork.context.tracked.customers ==>
               unitOfWork.context.tracked.customers[k].email != dto.email;
      ghost var t0 := unitOfWork.context.tracked;
      var stored := customers.Add(Customer(0, dto.name, dto.email, dto.phone));
      if old(unitOfWork.context.Clean()) {
        SchemaWithCustomer(t0, stored.id, stored);
      }
      var ok := unitOfWork.SaveChanges();
      if !ok {
        return Failure(CommitConflict);
      }
      r := Success(ToDto(stored));
    }

    /** UpdateCustomerAsync: false and no write for an unknown id; an email held by a
        different customer fails with nothing saved (the customer's own row does not
        count); otherwise name, email and phone are overwritten and saved once. */
    method UpdateCustomer(id: int, dto: CustomerCreateDto) returns (r: Result<bool, ServiceError>)
      requires unitOfWork.Valid()
      modifies unitOfWork`customerRepository
      modifies unitOfWork.context`tracked, unitOfWork.context`database, unitOfWork.context`saveCount
      ensures unitOfWork.Valid()
      ensures id !in old(unitOfWork.context.tracked.customers) ==>
                && r == Success(false)
                && unitOfWork.context.tracked == old(unitOfWork.context.tracked)
                && unitOfWork.context.database == old(unitOfWork.context.database)
                && unitOfWork.context.saveCount == old(unitOfWork.context.saveCount)
      ensures var takenByOther := exists k :: k in old(unitOfWork.context.tracked.customers) && k != id &&
                                              old(unitOfWork.context.tracked.customers)[k].email == dto.email;
              id in old(unitOfWork.context.tracked.customers) && takenByOther ==>
                && r == Failure(EmailInUseByAnotherCustomer)
                && unitOfWork.context.tracked == old(unitOfWork.context.tracked)
                && unitOfWork.context.database == old(unitOfWork.context.database)
                && unitOfWork.context.saveCount == old(unitOfWork.context.saveCount)
      ensures var takenByOther := exists k :: k in old(unitOfWork.context.tracked.customers) && k != id &&
                                              old(unitOfWork.context.tracked.customers)[k].email == dto.email;
              id in old(unitOfWork.context.tracked.customers) && !takenByOther ==>
                && unitOfWork.context.tracked == old(unitOfWork.context.tracked).(
                     customers := old(unitOfWork.context.tracked.customers)[id := Customer(id, dto.name, dto.email, dto.phone)])
                && unitOfWork.context.saveCount == old(unitOfWork.context.saveCount) + 1
                && (r == Success(true) <==> SchemaHolds(unitOfWork.context.tracked))
                && (r.Success? ==> unitOfWork.context.database == unitOfWork.context.tracked)
                && (r.Failure? ==> r.error == CommitConflict && unitOfWork.context.database == old(unitOfWork.context.database))
      ensures (old(unitOfWork.context.Clean()) && id in old(unitOfWork.context.tracked.customers)
               && dto.email == old(unitOfWork.context.tracked.customers)[id].email) ==> r == Success(true)
    {
      var customers := unitOfWork.Customers();
      var customer := customers.GetById(id);
      if customer.None? {
        return Success(false);
      }
      var unique := customers.IsEmailUnique(dto.email, Some(id));
      if !unique {
        return Failure(EmailInUseByAnotherCustomer);
      }
      assert forall k :: k in unitOfWork.context.tracked.customers && k != id ==>
               unitOfWork.context.tracked.customers[k].email != dto.email;
      ghost var t0 := unitOfWork.context.tracked;
      var updated := customer.value.(name := dto.name, email := dto.email, phone := dto.phone);
      customers.Update(updated);
      if old(unitOfWork.context.Clean()) {
        SchemaWithCustomer(t0, id, updated);
      }
      var ok := unitOfWork.SaveChanges();
      if !ok {
        return Failure(CommitConflict);
      }
      r := Success(true);
    }

    /** DeleteCustomerAsync: false and no write for an unknown id; otherwise the one
        customer is removed and saved. */
    method DeleteCustomer(id: int) returns (r: Result<bool, ServiceError>)
      requires unitOfWork.Valid()
      modifies unitOfWork`customerRepository
      modifies unitOfWork.context`tracked, unitOfWork.context`database, unitOfWork.context`saveCount
      ensures unitOfWork.Valid()
      ensures id !in old(unitOfWork.context.tracked.customers) ==>
                && r == Success(false)
                && unitOfWork.context.tracked == old(unitOfWork.context.tracked)
                && unitOfWork.context.database == old(unitOfWork.context.database)
                && unitOfWork.context.saveCount == old(unitOfWork.context.saveCount)
      ensures id in old(unitOfWork.context.tracked.customers) ==>
                && unitOfWork.context.tracked == old(unitOfWork.context.tracked).(
                     customers := old(unitOfWork.context.tracked.customers) - {id})
                && unitOfWork.context.saveCount == old(unitOfWork.context.saveCount) + 1
                && (r == Success(true) <==> SchemaHolds(unitOfWork.context.tracked))
                && (r.Success? ==> unitOfWork.context.database == unitOfWork.context.tracked)
                && (r.Failure? ==> r.error == CommitConflict && unitOfWork.context.database == old(unitOfWork.context.database))
      ensures old(unitOfWork.context.Clean()) ==> r == Success(id in old(unitOfWork.context.tracked.customers))
    {
      var customers := unitOfWork.Customers();
      var found := customers.Exists(id);
      if !found {
        return Success(false);
      }
      ghost var t0 := unitOfWork.context.tracked;
      customers.Delete(id);
      if old(unitOfWork.context.Clean()) {
        SchemaWithoutCustomer(t0, id);
      }
      var ok := unitOfWork.SaveChanges();
      if !ok {
        return Failure(CommitConflict);
      }
      r := Success(true);
    }
  }
}
