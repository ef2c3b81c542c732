/** The product table (src/product/product.service.ts): create, list, read,
    update and delete over a map keyed by product id. No operation here checks
    who owns a product. */
module Products {
  import opened Common

  /** A stored product; `createdBy` is the id of the user who created it. */
  datatype Product = Product(id: ProductId, name: string, description: string, price: int, createdBy: UserId)

  datatype CreateProductDto = CreateProductDto(name: string, description: string, price: int)

  /** An update body: every field is optional, and an absent field is left as it is. */
  datatype UpdateProductDto = UpdateProductDto(name: Option<string>, description: Option<string>, price: Option<int>)

  /** The `{ deleted }` object `remove` returns. */
  datatype Deleted = Deleted(deleted: bool)

  /** What an operation returns, and the product table afterwards. */
  datatype Outcome<+T> = Outcome(result: Result<T>, products: map<ProductId, Product>)

  /** Errors the store throws; the service does not catch them. */
  const IdTakenMessage := "store: unique constraint failed on the product id"
  const RecordToDeleteMissing := "store: record to delete does not exist"

  /** The table invariant: every record sits under its own id. */
  ghost predicate WellFormed(products: map<ProductId, Product>)
  {
    forall id :: id in products ==> products[id].id == id
  }

  function NotFoundMessage(id: ProductId): string
  {
    "Product with ID " + id + " not found"
  }

  /** `create`: the DTO's fields, the id the store generates and
      `created_by = userId`. The store rejects an id it already holds. */
  function CreateOutcome(products: map<ProductId, Product>, dto: CreateProductDto,
                         userId: UserId, newId: ProductId): (o: Outcome<Product>)
    ensures o.result.Ok? <==> newId !in products
    ensures o.result.Ok? ==>
              && o.result.value == Product(newId, dto.name, dto.description, dto.price, userId)
              && o.products.Keys == products.Keys + {newId}
              && o.products[newId] == o.result.value
              && (forall id :: id in products ==> o.products[id] == products[id])
    ensures o.result.Err? ==> o.result.error.OtherError? && o.products == products
    ensures WellFormed(products) ==> WellFormed(o.products)
  {
    if newId in products then
      Outcome(Err(OtherError(IdTakenMessage)), products)
    else
      var product := Product(newId, dto.name, dto.description, dto.price, userId);
      Outcome(Ok(product), products[newId := product])
  }

  /** `findAll`: every record in the table, and nothing else. */
  function FindAll(products: map<ProductId, Product>): (r: set<Product>)
    ensures forall id :: id in products ==> products[id] in r
    ensures forall p :: p in r ==> exists id :: id in products && products[id] == p
  {
    set id | id in products :: products[id]
  }

  /** `findOne`: the record with that id, or NotFound "Product with ID {id} not found". */
  function FindOne(products: map<ProductId, Product>, id: ProductId): (r: Result<Product>)
    ensures r.Ok? <==> id in products
    ensures r.Ok? ==> r.value == products[id]
    ensures r.Err? ==> r.error == HttpException(StatusNotFound, "Product with ID " + id + " not found")
    // in a well-formed table the record found carries the id asked for
    ensures WellFormed(products) && r.Ok? ==> r.value.id == id
  {
    if id in products then Ok(products[id]) else Err(NotFound(NotFoundMessage(id)))
  }

  /** The store's update of one record with an update body: the fields the
      body carries replace the stored ones; the id and the owner stay. */
  function ApplyUpdate(p: Product, dto: UpdateProductDto): (q: Product)
    ensures q.id == p.id && q.createdBy == p.createdBy
    ensures q.name == (if dto.name.Some? then dto.name.value else p.name)
    ensures q.description == (if dto.description.Some? then dto.description.value else p.description)
    ensures q.price == (if dto.price.Some? then dto.price.value else p.price)
  {
    p.(name := match dto.name case Some(n) => n case None => p.name,
       description := match dto.description case Some(d) => d case None => p.description,
       price := match dto.price case Some(x) => x case None => p.price)
  }

  /** `update`: NotFound for an absent id; otherwise the body is applied to
      that record alone. */
  function UpdateOutcome(products: map<ProductId, Product>, id: ProductId,
                         dto: UpdateProductDto): (o: Outcome<Product>)
    ensures o.result.Ok? <==> id in products
    ensures o.result.Err? ==>
              && o.result.error == HttpException(StatusNotFound, "Product with ID " + id + " not found")
              && o.products == products
    ensures o.result.Ok? ==>
              && o.result.value == ApplyUpdate(products[id], dto)
              && o.result.value.createdBy == products[id].createdBy
              && o.products.Keys == products.Keys
              && o.products[id] == o.result.value
              && (forall k :: k in products && k != id ==> o.products[k] == products[k])
    ensures WellFormed(products) ==> WellFormed(o.products)
  {
    match FindOne(products, id)
    case Err(e) => Outcome(Err(e), products)
    case Ok(product) =>
      var updated := ApplyUpdate(product, dto);
      Outcome(Ok(updated), products[id := updated])
  }

  /** `remove`: delete the record and report `{ deleted: true }`. There is no
      existence check of its own: on an absent id the store's error escapes. */
  function RemoveOutcome(products: map<ProductId, Product>, id: ProductId): (o: Outcome<Deleted>)
    ensures o.result.Ok? <==> id in products
    ensures o.result.Ok? ==> o.result.value == Deleted(true) && o.products == products - {id}
    ensures o.result.Err? ==> o.result.error.OtherError? && o.products == products
    ensures WellFormed(products) ==> WellFormed(o.products)
  {
    if id in products then Outcome(Ok(Deleted(true)), products - {id})
    else Outcome(Err(OtherError(RecordToDeleteMissing)), products)
  }

  /** The product service: it owns the product table. */
  class ProductService {
    var products: map<ProductId, Product>

    ghost predicate Valid()
      reads this
    {
      WellFormed(products)
    }

    constructor ()
      ensures Valid() && products == map[]
    {
      products := map[];
    }

    method Create(dto: CreateProductDto, userId: UserId, newId: ProductId) returns (r: Result<Product>)
      requires Valid()
      modifies this
      ensures Valid()
      ensures Outcome(r, products) == CreateOutcome(old(products), dto, userId, newId)
    {
      if newId in products {
        r := Err(OtherError(IdTakenMessage));
        return;
      }
      var product := Product(newId, dto.name, dto.description, dto.price, userId);
      products := products[newId := product];
      r := Ok(product);
    }

    method Update(id: ProductId, dto: UpdateProductDto) returns (r: Result<Product>)
      requires Valid()
      modifies this
      ensures Valid()
      ensures Outcome(r, products) == UpdateOutcome(old(products), id, dto)
    {
      if id !in products {
        r := Err(NotFound(NotFoundMessage(id)));
        return;
      }
      var updated := ApplyUpdate(products[id], dto);
      products := products[id := updated];
      r := Ok(updated);
    }

    method Remove(id: ProductId) returns (r: Result<Deleted>)
      requires Valid()
      modifies this
      ensures Valid()
      ensures Outcome(r, products) == RemoveOutcome(old(products), id)
    {
      if id !in products {
        r := Err(OtherError(RecordToDeleteMissing));
        return;
      }
      products := products - {id};
      r := Ok(Deleted(true));
    }
  }
}
