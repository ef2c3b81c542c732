/** The product endpoints (src/product/product.controller.ts). Every route sits
    behind the JWT guard, so each handler requires a request the guard
    admitted. The handlers forward to the product service; `create` names the
    caller as the owner, and no handler compares the caller with an owner. */
module ProductController {
  import opened Common
  import opened Products

  /** `req.user`, as the JWT strategy sets it once the token is verified. */
  datatype AuthUser = AuthUser(id: UserId)

  datatype Request = Request(user: Option<AuthUser>)

  /** The guard lets a request through only when it carries a verified user. */
  predicate Admitted(req: Request)
  {
    req.user.Some?
  }

  /** `create`: the service's create, with the caller's id as the owner. */
  function Create(products: map<ProductId, Product>, req: Request, dto: CreateProductDto,
                  newId: ProductId): (o: Outcome<Product>)
    requires Admitted(req)
    ensures o.result.Ok? <==> newId !in products
    // the caller becomes the owner; the other fields are the body's
    ensures o.result.Ok? ==>
              && o.result.value == Product(newId, dto.name, dto.description, dto.price, req.user.value.id)
              && o.products == products[newId := o.result.value]
    ensures o.result.Err? ==> o.products == products
  {
    CreateOutcome(products, dto, req.user.value.id, newId)
  }

  /** `findAll`: forwarded. */
  function FindAllProducts(products: map<ProductId, Product>, req: Request): (r: set<Product>)
    requires Admitted(req)
    ensures forall id :: id in products ==> products[id] in r
    ensures forall p :: p in r ==> exists id :: id in products && products[id] == p
  {
    FindAll(products)
  }

  /** `findOne`: forwarded with the id unchanged. */
  function FindOneProduct(products: map<ProductId, Product>, req: Request, id: ProductId): (r: Result<Product>)
    requires Admitted(req)
    ensures r.Ok? <==> id in products
    ensures r.Ok? ==> r.value == products[id]
    ensures r.Err? ==> r.error == HttpException(StatusNotFound, "Product with ID " + id + " not found")
  {
    FindOne(products, id)
  }

  /** `update`: forwarded with the id and the body unchanged. */
  function Update(products: map<ProductId, Product>, req: Request, id: ProductId,
                  dto: UpdateProductDto): (o: Outcome<Product>)
    requires Admitted(req)
    ensures o.result.Ok? <==> id in products
    ensures o.result.Err? ==>
              && o.result.error == HttpException(StatusNotFound, "Product with ID " + id + " not found")
              && o.products == products
    // the owner is kept, whoever the caller is, and no other record changes
    ensures o.result.Ok? ==>
              && o.result.value == ApplyUpdate(products[id], dto)
              && o.result.value.createdBy == products[id].createdBy
              && o.products == products[id := o.result.value]
  {
    UpdateOutcome(products, id, dto)
  }

  /** `remove`: forwarded with the id unchanged. */
  function Remove(products: map<ProductId, Product>, req: Request, id: ProductId): (o: Outcome<Deleted>)
    requires Admitted(req)
    ensures o.result.Ok? <==> id in products
    ensures o.result.Ok? ==> o.result.value == Deleted(true) && o.products == products - {id}
    ensures o.result.Err? ==> o.result.error.OtherError? && o.products == products
  {
    RemoveOutcome(products, id)
  }

  /** No ownership check: any admitted caller, owner or not, may update an
      existing product, and gets the same outcome as its owner would. */
  lemma AnyCallerMayUpdate(products: map<ProductId, Product>, caller: Request, owner: Request,
                           id: ProductId, dto: UpdateProductDto)
    requires Admitted(caller) && Admitted(owner)
    requires id in products && owner.user.value.id == products[id].createdBy
    ensures Update(products, caller, id, dto).result.Ok?
    ensures Update(products, caller, id, dto) == Update(products, owner, id, dto)
  {
  }

  /** No ownership check: any admitted caller may delete an existing product. */
  lemma AnyCallerMayRemove(products: map<ProductId, Product>, caller: Request, id: ProductId)
    requires Admitted(caller) && id in products
    ensures Remove(products, caller, id).result == Ok(Deleted(true))
    ensures id !in Remove(products, caller, id).products
  {
  }

  /** One admitted request to a mutating product endpoint. */
  datatype Action =
    | CreateAction(caller: AuthUser, dto: CreateProductDto, newId: ProductId)
    | UpdateAction(caller: AuthUser, id: ProductId, patch: UpdateProductDto)
    | RemoveAction(caller: AuthUser, id: ProductId)

  /** The product table after one request. */
  function Step(products: map<ProductId, Product>, a: Action): map<ProductId, Product>
  {
    var req := Request(Some(a.caller));
    match a
    case CreateAction(_, dto, newId) => Create(products, req, dto, newId).products
    case UpdateAction(_, id, patch) => Update(products, req, id, patch).products
    case RemoveAction(_, id) => Remove(products, req, id).products
  }

  /** The product table after a sequence of requests; the table invariant
      holds throughout. */
  function Run(products: map<ProductId, Product>, actions: seq<Action>): (final: map<ProductId, Product>)
    ensures WellFormed(products) ==> WellFormed(final)
    decreases |actions|
  {
    if actions == [] then products else Run(Step(products, actions[0]), actions[1..])
  }

  /** The owner of a product is set once, by the request that creates it:
      whatever updates and deletes any callers send, a product that is still
      there at the end, and whose id no request tried to create, has the
      owner it had at the start. This rests on the update body holding only
      name, description and price: `update` hands the body to the store as it
      is, so an update body that carried `created_by` (were request
      validation to let it through) would reassign the owner. */
  lemma {:induction false} OwnerNeverReassigned(products: map<ProductId, Product>, actions: seq<Action>,
                                                id: ProductId)
    requires forall i :: 0 <= i < |actions| ==> !(actions[i].CreateAction? && actions[i].newId == id)
    requires id in Run(products, actions)
    ensures id in products && Run(products, actions)[id].createdBy == products[id].createdBy
    decreases |actions|
  {
    if actions != [] {
      var next := Step(products, actions[0]);
      forall i | 0 <= i < |actions[1..]|
        ensures !(actions[1..][i].CreateAction? && actions[1..][i].newId == id)
      {
        assert actions[1..][i] == actions[i + 1];
      }
      OwnerNeverReassigned(next, actions[1..], id);
      assert !(actions[0].CreateAction? && actions[0].newId == id);
    }
  }

  /** The request that creates a product stamps it with its caller's id, and
      later requests that do not delete it keep that owner. */
  lemma {:induction false} CreatorOwnsProduct(products: map<ProductId, Product>, caller: AuthUser,
                                              dto: CreateProductDto, newId: ProductId, later: seq<Action>)
    requires newId !in products
    requires forall i :: 0 <= i < |later| ==> !(later[i].CreateAction? && later[i].newId == newId)
    requires newId in Run(products, [CreateAction(caller, dto, newId)] + later)
    ensures Run(products, [CreateAction(caller, dto, newId)] + later)[newId].createdBy == caller.id
  {
    var actions := [CreateAction(caller, dto, newId)] + later;
    assert actions[0] == CreateAction(caller, dto, newId) && actions[1..] == later;
    var created := Step(products, actions[0]);
    OwnerNeverReassigned(created, later, newId);
  }
}
