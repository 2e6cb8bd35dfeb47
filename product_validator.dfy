/** ProductValidator (on the product projection), ProductCreateValidator and
    ProductUpdateValidator. */
module ProductValidators {
  import opened Wrappers
  import opened Dtos
  import opened ValidationRules

  /** The name rules all three validators share. */
  function NameRules(name: string): (r: seq<string>)
    ensures |r| == Fails(NotEmpty(name)) + Fails(|name| <= 100)
    ensures !NotEmpty(name) ==> "Name is required" in r
    ensures |name| > 100 ==> "Name cannot exceed 100 characters" in r
  {
    Check(NotEmpty(name), "Name is required") + Check(MaximumLength(name, 100), "Name cannot exceed 100 characters")
  }

  /** ProductValidator: name, price and stock; it has no description rule. */
  function ValidateProduct(dto: ProductDto): (r: seq<string>)
    ensures |r| == Fails(NotEmpty(dto.name)) + Fails(|dto.name| <= 100) + Fails(dto.price > 0) + Fails(dto.stock >= 0)
    ensures dto.price <= 0 ==> "Price must be greater than 0" in r
    ensures dto.stock < 0 ==> "Stock cannot be negative" in r
  {
    NameRules(dto.name)
    + Check(dto.price > 0, "Price must be greater than 0")
    + Check(dto.stock >= 0, "Stock cannot be negative")
  }

  /** ProductCreateValidator: name, description of at most 500 characters, price, stock. */
  function ValidateProductCreate(dto: ProductCreateDto): (r: seq<string>)
    ensures |r| == Fails(NotEmpty(dto.name)) + Fails(|dto.name| <= 100) + Fails(|dto.description| <= 500)
                   + Fails(dto.price > 0) + Fails(dto.stock >= 0)
    ensures |dto.description| > 500 ==> "Description cannot exceed 500 characters" in r
    ensures dto.price <= 0 ==> "Price must be greater than 0" in r
    ensures dto.stock < 0 ==> "Stock cannot be negative" in r
  {
    NameRules(dto.name)
    + Check(MaximumLength(dto.description, 500), "Description cannot exceed 500 characters")
    + Check(dto.price > 0, "Price must be greater than 0")
    + Check(dto.stock >= 0, "Stock cannot be negative")
  }

  /** ProductUpdateValidator: the same rules as ProductCreateValidator. */
  function ValidateProductUpdate(dto: ProductUpdateDto): (r: seq<string>)
    ensures |r| == Fails(NotEmpty(dto.name)) + Fails(|dto.name| <= 100) + Fails(|dto.description| <= 500)
                   + Fails(dto.price > 0) + Fails(dto.stock >= 0)
    ensures |dto.description| > 500 ==> "Description cannot exceed 500 characters" in r
    ensures dto.price <= 0 ==> "Price must be greater than 0" in r
    ensures dto.stock < 0 ==> "Stock cannot be negative" in r
  {
    NameRules(dto.name)
    + Check(MaximumLength(dto.description, 500), "Description cannot exceed 500 characters")
    + Check(dto.price > 0, "Price must be greater than 0")
    + Check(dto.stock >= 0, "Stock cannot be negative")
  }

  /** What the create validator accepts, rule by rule. */
  lemma ProductCreateAccepts(dto: ProductCreateDto)
    ensures ValidateProductCreate(dto) == [] <==>
            && NotEmpty(dto.name) && |dto.name| <= 100
            && |dto.description| <= 500
            && dto.price > 0 && dto.stock >= 0
  {
  }

  /** The create and update validators report the same failures for the same field
      values, so they accept exactly the same requests. */
  lemma CreateAndUpdateAgree(name: string, description: string, price: int, stock: int)
    ensures ValidateProductCreate(ProductCreateDto(name, description, price, stock))
         == ValidateProductUpdate(ProductUpdateDto(name, description, price, stock))
  {
  }

  /** Whatever the create validator accepts, the projection validator accepts too. */
  lemma CreateAcceptedIsValidProduct(dto: ProductCreateDto, id: int, createdAt: int)
    requires ValidateProductCreate(dto) == []
    ensures ValidateProduct(ProductDto(id, dto.name, dto.description, dto.price, dto.stock, createdAt, None)) == []
  {
  }

  /** The converse fails: ProductValidator has no description rule, so a product with a
      501-character description passes it and fails the create validator. */
  lemma LongDescriptionOnlyFailsCreate()
    ensures var description := seq(501, _ => 'x');
            && ValidateProduct(ProductDto(1, "Keyboard", description, 3000, 2, 0, None)) == []
            && ValidateProductCreate(ProductCreateDto("Keyboard", description, 3000, 2))
               == ["Description cannot exceed 500 characters"]
  {
    assert !IsWhiteSpace('K');
    assert "Keyboard"[0] == 'K';
  }
}
