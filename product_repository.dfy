/** ProductRepository: product rows of the shared context. */
module ProductStore {
  import opened Wrappers
  import opened Entities
  import opened Data

  class ProductRepository {
    const context: DbContext

    constructor (context: DbContext)
      ensures this.context == context
    {
      this.context := context;
    }

    /** FindAsync: the product whose id is `id` (as the context tracks it), or nothing. */
    function GetById(id: int): (r: Option<Product>)
      requires context.Valid()
      reads context
      ensures r.Some? ==> r.value.id == id && id in context.tracked.products && context.tracked.products[id] == r.value
      ensures r.None? ==> forall k :: k in context.tracked.products ==> context.tracked.products[k].id != id
    {
      Find(context.tracked.products, id)
    }

    /** AnyAsync(p => p.Id == id), which finds a product exactly when GetById does. */
    function Exists(id: int): (r: bool)
      requires context.Valid()
      reads context
      ensures r <==> GetById(id).Some?
    {
      exists k :: k in context.tracked.products && context.tracked.products[k].id == id
    }

    /** Stages the product as a new row; the identity column gives it its id, and the
        product is handed back. */
    method Add(product: Product) returns (r: Product)
      requires context.Valid()
      modifies context`tracked, context`nextProductId
      ensures context.Valid()
      ensures r == product.(id := old(context.nextProductId)) && r.id !in old(context.tracked.products)
      ensures context.tracked == old(context.tracked).(products := old(context.tracked.products)[r.id := r])
      ensures context.nextProductId == old(context.nextProductId) + 1
    {
      r := product.(id := context.nextProductId);
      context.tracked := context.tracked.(products := context.tracked.products[r.id := r]);
      context.nextProductId := context.nextProductId + 1;
    }

    /** Marks the (already tracked) product modified: its new field values are staged,
        nothing reaches the database. */
    method Update(product: Product)
      requires context.Valid() && product.id in context.tracked.products
      modifies context`tracked
      ensures context.Valid()
      ensures context.tracked == old(context.tracked).(products := old(context.tracked.products)[product.id := product])
    {
      context.tracked := context.tracked.(products := context.tracked.products[product.id := product]);
    }

    /** Stages the removal of the product with that id, if there is one. */
    method Delete(id: int)
      requires context.Valid()
      modifies context`tracked
      ensures context.Valid()
      ensures context.tracked == old(context.tracked).(products := old(context.tracked.products) - {id})
      ensures id !in old(context.tracked.products) ==> context.tracked == old(context.tracked)
    {
      var product := GetById(id);
      if product.Some? {
        context.tracked := context.tracked.(products := context.tracked.products - {id});
      } else {
        assert context.tracked.products - {id} == context.tracked.products;
      }
    }
  }
}
