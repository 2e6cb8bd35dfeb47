/** ProductService: the projection of a product, and create, overwrite and delete. */
module ProductServices {
  import opened Wrappers
  import opened Entities
  import opened Dtos
  import opened Errors
  import opened Data
  import opened ProductStore
  import opened Persistence

  /** MapToDto copies the seven fields, so it loses nothing. */
  function MapToDto(p: Product): (r: ProductDto)
    ensures r.id == p.id && r.name == p.name && r.description == p.description
    ensures r.price == p.price && r.stock == p.stock
    ensures r.createdAt == p.createdAt && r.updatedAt == p.updatedAt
  {
    ProductDto(p.id, p.name, p.description, p.price, p.stock, p.createdAt, p.updatedAt)
  }

  /** Two products with the same projection are the same product. */
  lemma MapToDtoInjective(a: Product, b: Product)
    requires MapToDto(a) == MapToDto(b)
    ensures a == b
  {
  }

  /** Product rows carry no database constraint, so staging one keeps the constraints. */
  lemma SchemaWithProducts(t: Tables, products: map<int, Product>)
    requires SchemaHolds(t)
    ensures SchemaHolds(t.(products := products))
  {
  }

  class ProductService {
    const unitOfWork: UnitOfWork

    constructor (unitOfWork: UnitOfWork)
      ensures this.unitOfWork == unitOfWork
    {
      this.unitOfWork := unitOfWork;
    }

    /** GetProductByIdAsync: nothing for an unknown id, otherwise the product's fields. */
    function GetProductById(id: int): (r: Option<ProductDto>)
      requires unitOfWork.Valid()
      reads unitOfWork, unitOfWork.context
      ensures r.None? <==> id !in unitOfWork.context.tracked.products
      ensures r.Some? ==> r.value == MapToDto(unitOfWork.context.tracked.products[id]) && r.value.id == id
    {
      match Find(unitOfWork.context.tracked.products, id)
      case None => None
      case Some(p) => Some(MapToDto(p))
    }

    /** CreateProductAsync: a missing request (`null`) fails before anything is touched;
        otherwise the new product copies name, description, price and stock, is created
        now with no update time, gets the next id and is saved once. */
    method CreateProduct(dto: Option<ProductCreateDto>, now: Timestamp) returns (r: Result<ProductDto, ServiceError>)
      requires unitOfWork.Valid()
      modifies unitOfWork`productRepository
      modifies unitOfWork.context`tracked, unitOfWork.context`database, unitOfWork.context`saveCount,
               unitOfWork.context`nextProductId
      ensures unitOfWork.Valid()
      ensures dto.None? ==>
                && r == Failure(ArgumentNull)
                && unitOfWork.productRepository == old(unitOfWork.productRepository)
                && unitOfWork.context.tracked == old(unitOfWork.context.tracked)
                && unitOfWork.context.nextProductId == old(unitOfWork.context.nextProductId)
                && unitOfWork.context.database == old(unitOfWork.context.database)
                && unitOfWork.context.saveCount == old(unitOfWork.context.saveCount)
      ensures dto.Some? ==>
                var stored := Product(old(unitOfWork.context.nextProductId), dto.value.name, dto.value.description,
                                      dto.value.price, dto.value.stock, now, None);
                && unitOfWork.context.tracked == old(unitOfWork.context.tracked).(
                     products := old(unitOfWork.context.tracked.products)[stored.id := stored])
                && unitOfWork.context.nextProductId == old(unitOfWork.context.nextProductId) + 1
                && unitOfWork.context.saveCount == old(unitOfWork.context.saveCount) + 1
                && (r.Success? <==> SchemaHolds(unitOfWork.context.tracked))
                && (r.Success? ==> r.value == MapToDto(stored) && unitOfWork.context.database == unitOfWork.context.tracked)
                && (r.Failure? ==> r.error == CommitConflict && unitOfWork.context.database == old(unitOfWork.context.database))
      ensures old(unitOfWork.context.Clean()) ==> (r.Success? <==> dto.Some?)
    {
      if dto.None? {
        return Failure(ArgumentNull);
      }
      ghost var t0 := unitOfWork.context.tracked;
      var products := unitOfWork.Products();
      var stored := products.Add(Product(0, dto.value.name, dto.value.description, dto.value.price, dto.value.stock,
                                         now, None));
      if old(unitOfWork.context.Clean()) {
        SchemaWithProducts(t0, unitOfWork.context.tracked.products);
      }
      var ok := unitOfWork.SaveChanges();
      if !ok {
        return Failure(CommitConflict);
      }
      r := Success(MapToDto(stored));
    }

    /** UpdateProductAsync: a missing request fails before the lookup; an unknown id
        gives nothing and saves nothing; otherwise name, description, price and stock
        are overwritten whatever they were (a negative stock included), the product is
        stamped, and one SaveChanges commits it. */
    method UpdateProduct(id: int, dto: Option<ProductUpdateDto>, now: Timestamp) returns (r: Result<Option<ProductDto>, ServiceError>)
      requires unitOfWork.Valid()
      modifies unitOfWork`productRepository
      modifies unitOfWork.context`tracked, unitOfWork.context`database, unitOfWork.context`saveCount
      ensures unitOfWork.Valid()
      ensures (dto.None? || id !in old(unitOfWork.context.tracked.products)) ==>
                && r == (if dto.None? then Failure(ArgumentNull) else Success(None))
                && unitOfWork.context.tracked == old(unitOfWork.context.tracked)
                && unitOfWork.context.database == old(unitOfWork.context.database)
                && unitOfWork.context.saveCount == old(unitOfWork.context.saveCount)
      ensures dto.Some? && id in old(unitOfWork.context.tracked.products) ==>
                var updated := old(unitOfWork.context.tracked.products)[id].(
                                 name := dto.value.name, description := dto.value.description, price := dto.value.price,
                                 stock := dto.value.stock, updatedAt := Some(now));
                && unitOfWork.context.tracked == old(unitOfWork.context.tracked).(
                     products := old(unitOfWork.context.tracked.products)[id := updated])
                && unitOfWork.context.saveCount == old(unitOfWork.context.saveCount) + 1
                && (r.Success? <==> SchemaHolds(unitOfWork.context.tracked))
                && (r.Success? ==> r.value == Some(MapToDto(updated)) && unitOfWork.context.database == unitOfWork.context.tracked)
                && (r.Failure? ==> r.error == CommitConflict && unitOfWork.context.database == old(unitOfWork.context.database))
      ensures old(unitOfWork.context.Clean()) ==> (r.Success? <==> dto.Some?)
    {
      if dto.None? {
        return Failure(ArgumentNull);
      }
      var products := unitOfWork.Products();
      var product := products.GetById(id);
      if product.None? {
        return Success(None);
      }
      ghost var t0 := unitOfWork.context.tracked;
      var updated := product.value.(name := dto.value.name, description := dto.value.description,
                                    price := dto.value.price, stock := dto.value.stock, updatedAt := Some(now));
      products.Update(updated);
      if old(unitOfWork.context.Clean()) {
        SchemaWithProducts(t0, unitOfWork.context.tracked.products);
      }
      var ok := unitOfWork.SaveChanges();
      if !ok {
        return Failure(CommitConflict);
      }
      r := Success(Some(MapToDto(updated)));
    }

    /** DeleteProductAsync: false and no write for an unknown id; otherwise the one
        product is removed and saved. */
    method DeleteProduct(id: int) returns (r: Result<bool, ServiceError>)
      requires unitOfWork.Valid()
      modifies unitOfWork`productRepository
      modifies unitOfWork.context`tracked, unitOfWork.context`database, unitOfWork.context`saveCount
      ensures unitOfWork.Valid()
      ensures id !in old(unitOfWork.context.tracked.products) ==>
                && r == Success(false)
                && unitOfWork.context.tracked == old(unitOfWork.context.tracked)
                && unitOfWork.context.database == old(unitOfWork.context.database)
                && unitOfWork.context.saveCount == old(unitOfWork.context.saveCount)
      ensures id in old(unitOfWork.context.tracked.products) ==>
                && unitOfWork.context.tracked == old(unitOfWork.context.tracked).(
                     products := old(unitOfWork.context.tracked.products) - {id})
                && unitOfWork.context.saveCount == old(unitOfWork.context.saveCount) + 1
                && (r == Success(true) <==> SchemaHolds(unitOfWork.context.tracked))
                && (r.Success? ==> unitOfWork.context.database == unitOfWork.context.tracked)
                && (r.Failure? ==> r.error == CommitConflict && unitOfWork.context.database == old(unitOfWork.context.database))
      ensures old(unitOfWork.context.Clean()) ==> r == Success(id in old(unitOfWork.context.tracked.products))
    {
      var products := unitOfWork.Products();
      var found := products.Exists(id);
      if !found {
        return Success(false);
      }
      ghost var t0 := unitOfWork.context.tracked;
      products.Delete(id);
      if old(unitOfWork.context.Clean()) {
        SchemaWithProducts(t0, unitOfWork.context.tracked.products);
      }
      var ok := unitOfWork.SaveChanges();
      if !ok {
        return Failure(CommitConflict);
      }
      r := Success(true);
    }
  }
}
