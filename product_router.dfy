/**
 * The product router of src/server/api/routers/product.ts: its input schemas
 * and its five procedures. Every store call runs inside a try block whose
 * catch re-throws typed errors and wraps anything else.
 */
module ProductRouter {
  import opened Wrappers
  import opened Validation
  import opened Trpc
  import opened Db

  datatype CreateInput = CreateInput(name: Json)
  datatype IdInput = IdInput(id: Json)
  datatype UpdateInput = UpdateInput(id: Json, name: Json)

  /** A checked update: the target id, and the new name if one was given. */
  datatype Patch = Patch(id: Id, name: Option<string>)

  /** productCreateSchema: `name` must be a non-empty string. */
  function CreateSchema(input: CreateInput): (r: Result<string, seq<Issue>>)
    ensures r.Success? <==> IsNonEmptyString(input.name)
    ensures r.Success? ==> r.value == input.name.s
    ensures r.Failure? ==> |r.error| > 0 && forall k :: 0 <= k < |r.error| ==> r.error[k].path == "name"
  {
    var name := NonEmptyString(input.name);
    if name.Success? then Success(name.value) else Failure(At("name", name))
  }

  /** productIdSchema: `id` must be a UUID string. */
  function IdSchema(input: IdInput): (r: Result<Id, seq<Issue>>)
    ensures r.Success? <==> IsUuidString(input.id)
    ensures r.Success? ==> r.value == input.id.s && IsUuid(r.value)
    ensures r.Failure? ==> |r.error| > 0 && forall k :: 0 <= k < |r.error| ==> r.error[k].path == "id"
  {
    var id := UuidString(input.id);
    if id.Success? then Success(id.value) else Failure(At("id", id))
  }

  /** productUpdateSchema: the id schema extended with an optional non-empty `name`; issues of both fields are kept. */
  function UpdateSchema(input: UpdateInput): (r: Result<Patch, seq<Issue>>)
    ensures r.Success? <==> IsUuidString(input.id) && (input.name.Undefined? || IsNonEmptyString(input.name))
    ensures r.Success? ==> r.value.id == input.id.s
    ensures r.Success? ==> r.value.name == if input.name.Undefined? then None else Some(input.name.s)
    ensures r.Failure? ==> |r.error| > 0
    ensures r.Failure? ==> forall k :: 0 <= k < |r.error| ==>
      (r.error[k].path == "id" && !IsUuidString(input.id)) ||
      (r.error[k].path == "name" && !input.name.Undefined? && !IsNonEmptyString(input.name))
    ensures r.Failure? && !IsUuidString(input.id) ==> Reports(r.error, "id")
    ensures r.Failure? && !input.name.Undefined? && !IsNonEmptyString(input.name) ==> Reports(r.error, "name")
  {
    var id := UuidString(input.id);
    var name := OptionalName(input.name);
    if id.Success? && name.Success? then Success(Patch(id.value, name.value))
    else
      ReportsAt("id", id);
      ReportsAt("name", name);
      ReportsConcat(At("id", id), At("name", name));
      Failure(At("id", id) + At("name", name))
  }

  /** The catch blocks: a typed error is re-thrown as is, any other failure becomes INTERNAL_SERVER_ERROR. */
  function Rethrow(e: Error): (r: Error)
    ensures e.StoreError? ==> r == InternalServerError(e.fault)
    ensures !e.StoreError? ==> r == e
    ensures !r.StoreError?
  {
    if e.StoreError? then InternalServerError(e.fault) else e
  }

  /** Wrapping twice is wrapping once. */
  lemma RethrowIdempotent(e: Error)
    ensures Rethrow(Rethrow(e)) == Rethrow(e)
  {
  }

  /** The update applied by `product.update` with `data: { name }`: an undefined name writes nothing. */
  function ApplyPatch(p: Product, name: Option<string>): (q: Product)
    ensures q.id == p.id && q.createdById == p.createdById && q.createdAt == p.createdAt
    ensures name.None? ==> q == p
    ensures name.Some? ==> q.name == name.value
  {
    match name
    case None => p
    case Some(n) => p.(name := n)
  }

  /**
   * createProduct (admin tier). The new row takes the caller's id as creator;
   * `newId` and `now` stand for the id and the timestamp the store generates.
   */
  method CreateProduct(db: Store, ctx: Context, input: CreateInput, newId: Id, now: int)
    returns (r: Result<Product, Error>)
    requires db.Valid()
    modifies db`products
    ensures db.Valid()
    ensures AdminGate(ctx).Failure? ==> r == Failure(AdminGate(ctx).error)
    ensures AdminGate(ctx).Success? && CreateSchema(input).Failure? ==>
      r == Failure(BadRequest(CreateSchema(input).error))
    ensures r.Failure? ==> db.products == old(db.products)
    ensures AdminGate(ctx).Success? && CreateSchema(input).Success? ==>
      var creator := AdminGate(ctx).value.user.id;
      && (!CanConnectUser(db.users, creator) ==> r == Failure(InternalServerError(ConnectFailed)))
      && (CanConnectUser(db.users, creator) && newId in old(db.products) ==>
            r == Failure(InternalServerError(UniqueViolation)))
      && (CanConnectUser(db.users, creator) && newId !in old(db.products) ==>
            && r == Success(Product(newId, input.name.s, creator.value, now))
            && db.products == old(db.products)[newId := r.value])
  {
    var gate := AdminGate(ctx);
    if gate.Failure? {
      return Failure(gate.error);
    }
    var parsed := CreateSchema(input);
    if parsed.Failure? {
      return Failure(BadRequest(parsed.error));
    }
    var creator := gate.value.user.id;
    if !CanConnectUser(db.users, creator) {
      return Failure(Rethrow(StoreError(ConnectFailed)));
    }
    if newId in db.products {
      return Failure(Rethrow(StoreError(UniqueViolation)));
    }
    var product := Product(newId, parsed.value, creator.value, now);
    db.products := db.products[newId := product];
    r := Success(product);
  }

  /** The rows of a product table are newest first. */
  ghost predicate NewestFirstOrder(ps: seq<Product>) {
    forall i, j :: 0 <= i < j < |ps| ==> ps[i].createdAt >= ps[j].createdAt
  }

  ghost predicate IsNewest(m: map<Id, Product>, k: Id) {
    k in m && forall k' :: k' in m ==> m[k'].createdAt <= m[k].createdAt
  }

  /** A non-empty table has a newest product. */
  lemma {:induction false} NewestExists(m: map<Id, Product>)
    requires m != map[]
    ensures exists k :: IsNewest(m, k)
    decreases m.Keys
  {
    var k0 :| k0 in m;
    var rest := m - {k0};
    if rest == map[] {
      forall k' | k' in m ensures m[k'].createdAt <= m[k0].createdAt {
        assert k' !in rest;
      }
      assert IsNewest(m, k0);
    } else {
      NewestExists(rest);
      var k1 :| IsNewest(rest, k1);
      var k := if m[k1].createdAt <= m[k0].createdAt then k0 else k1;
      forall k' | k' in m ensures m[k'].createdAt <= m[k].createdAt {
        if k' != k0 {
          assert k' in rest;
        }
      }
      assert IsNewest(m, k);
    }
  }

  /** A newest product of a non-empty table. */
  ghost function Newest(m: map<Id, Product>): (k: Id)
    requires m != map[]
    ensures IsNewest(m, k)
  {
    NewestExists(m);
    var k :| IsNewest(m, k);
    k
  }

  /** The ids of a table, newest first: the newest, then the rest of the table in the same order. */
  ghost function NewestFirst(m: map<Id, Product>): (ids: seq<Id>)
    decreases m.Keys
    ensures forall i :: 0 <= i < |ids| ==> ids[i] in m
    ensures m != map[] ==> |ids| > 0 && IsNewest(m, ids[0])
  {
    if m == map[] then []
    else
      var k := Newest(m);
      [k] + NewestFirst(m - {k})
  }

  /** NewestFirst lists every id of the table exactly once. */
  lemma {:induction false} NewestFirstListsEachOnce(m: map<Id, Product>)
    decreases m.Keys
    ensures |NewestFirst(m)| == |m.Keys|
    ensures forall k :: k in NewestFirst(m) <==> k in m
    ensures forall i, j :: 0 <= i < j < |NewestFirst(m)| ==> NewestFirst(m)[i] != NewestFirst(m)[j]
  {
    if m != map[] {
      var k := Newest(m);
      var rest := m - {k};
      assert rest.Keys == m.Keys - {k};
      NewestFirstListsEachOnce(rest);
      var tail := NewestFirst(rest);
      assert NewestFirst(m) == [k] + tail;
      assert k !in tail;
    }
  }

  /** NewestFirst orders the ids by `createdAt`, descending. */
  lemma {:induction false} NewestFirstIsDescending(m: map<Id, Product>)
    decreases m.Keys
    ensures forall i :: 0 <= i < |NewestFirst(m)| ==> NewestFirst(m)[i] in m
    ensures forall i, j :: 0 <= i < j < |NewestFirst(m)| ==>
      m[NewestFirst(m)[i]].createdAt >= m[NewestFirst(m)[j]].createdAt
  {
    if m != map[] {
      var k := Newest(m);
      var rest := m - {k};
      NewestFirstIsDescending(rest);
      var tail := NewestFirst(rest);
      var ids := [k] + tail;
      assert NewestFirst(m) == ids;
      forall i | 0 <= i < |ids| ensures ids[i] in m {
        if i > 0 {
          assert ids[i] == tail[i - 1];
        }
      }
      forall i, j | 0 <= i < j < |ids| ensures m[ids[i]].createdAt >= m[ids[j]].createdAt {
        assert ids[j] == tail[j - 1] && ids[j] in rest;
        if i > 0 {
          assert ids[i] == tail[i - 1] && ids[i] in rest;
        }
      }
    }
  }

  /** getAllProducts (protected tier): every product once, newest first. */
  ghost function GetAllProducts(db: Store, ctx: Context): (r: Result<seq<Product>, Error>)
    reads db
    ensures r.Failure? <==> !HasUser(ctx)
    ensures r.Failure? ==> r.error == Unauthorized
    ensures r.Success? ==> |r.value| == |db.products.Keys| && NewestFirstOrder(r.value)
    ensures r.Success? ==> forall i :: 0 <= i < |r.value| ==> r.value[i] in db.products.Values
    ensures r.Success? ==> forall id :: id in db.products ==> db.products[id] in r.value
  {
    match ProtectedGate(ctx)
    case Failure(e) => Failure(e)
    case Success(_) =>
      var ids := NewestFirst(db.products);
      NewestFirstListsEachOnce(db.products);
      NewestFirstIsDescending(db.products);
      RowsOfCoversTable(db.products, ids);
      Success(RowsOf(db.products, ids))
  }

  /** getProductById (protected tier): the product, or NOT_FOUND when no row has that id. */
  function GetProductById(db: Store, ctx: Context, input: IdInput): (r: Result<Product, Error>)
    reads db
    ensures !HasUser(ctx) ==> r == Failure(Unauthorized)
    ensures HasUser(ctx) && IdSchema(input).Failure? ==> r == Failure(BadRequest(IdSchema(input).error))
    ensures HasUser(ctx) && IdSchema(input).Success? ==>
      if input.id.s in db.products then r == Success(db.products[input.id.s]) else r == Failure(NotFound)
  {
    match ProtectedGate(ctx)
    case Failure(e) => Failure(e)
    case Success(_) =>
      match IdSchema(input)
      case Failure(issues) => Failure(BadRequest(issues))
      case Success(id) =>
        if id !in db.products then Failure(Rethrow(NotFound)) else Success(db.products[id])
  }

  /** updateProduct (admin tier): NOT_FOUND without writing when the id is unknown; otherwise only that product's name changes. */
  method UpdateProduct(db: Store, ctx: Context, input: UpdateInput) returns (r: Result<Product, Error>)
    requires db.Valid()
    modifies db`products
    ensures db.Valid()
    ensures AdminGate(ctx).Failure? ==> r == Failure(AdminGate(ctx).error)
    ensures AdminGate(ctx).Success? && UpdateSchema(input).Failure? ==>
      r == Failure(BadRequest(UpdateSchema(input).error))
    ensures r.Failure? ==> db.products == old(db.products)
    ensures AdminGate(ctx).Success? && UpdateSchema(input).Success? ==>
      var patch := UpdateSchema(input).value;
      && (patch.id !in old(db.products) ==> r == Failure(NotFound))
      && (patch.id in old(db.products) ==>
            && r == Success(ApplyPatch(old(db.products)[patch.id], patch.name))
            && db.products == old(db.products)[patch.id := r.value])
  {
    var gate := AdminGate(ctx);
    if gate.Failure? {
      return Failure(gate.error);
    }
    var parsed := UpdateSchema(input);
    if parsed.Failure? {
      return Failure(BadRequest(parsed.error));
    }
    var patch := parsed.value;
    if patch.id !in db.products {
      return Failure(Rethrow(NotFound));
    }
    var updated := ApplyPatch(db.products[patch.id], patch.name);
    db.products := db.products[patch.id := updated];
    r := Success(updated);
  }

  /** deleteProduct (admin tier): NOT_FOUND without writing when the id is unknown; otherwise that product is removed and returned. */
  method DeleteProduct(db: Store, ctx: Context, input: IdInput) returns (r: Result<Product, Error>)
    requires db.Valid()
    modifies db`products
    ensures db.Valid()
    ensures AdminGate(ctx).Failure? ==> r == Failure(AdminGate(ctx).error)
    ensures AdminGate(ctx).Success? && IdSchema(input).Failure? ==>
      r == Failure(BadRequest(IdSchema(input).error))
    ensures r.Failure? ==> db.products == old(db.products)
    ensures AdminGate(ctx).Success? && IdSchema(input).Success? ==>
      var id := input.id.s;
      && (id !in old(db.products) ==> r == Failure(NotFound))
      && (id in old(db.products) ==> r == Success(old(db.products)[id]) && db.products == old(db.products) - {id})
  {
    var gate := AdminGate(ctx);
    if gate.Failure? {
      return Failure(gate.error);
    }
    var parsed := IdSchema(input);
    if parsed.Failure? {
      return Failure(BadRequest(parsed.error));
    }
    var id := parsed.value;
    if id !in db.products {
      return Failure(Rethrow(NotFound));
    }
    var deleted := db.products[id];
    db.products := db.products - {id};
    r := Success(deleted);
  }
}
