/**
 * The product-availability router of
 * src/server/api/routers/productAvailability.ts: the status enum, the
 * upsert keyed by the (companyId, productId) pair, and the lookup by pair.
 */
module AvailabilityRouter {
  import opened Wrappers
  import opened Validation
  import opened Trpc
  import opened Db

  /** The values `z.enum` admits for `status`. */
  const StatusNames: seq<string> := ["AVAILABLE", "NOT_AVAILABLE", "UNKNOWN"]

  /** The enum name each status is stored and sent as. */
  function StatusName(s: Status): (name: string)
    ensures name in StatusNames
  {
    match s
    case Available => "AVAILABLE"
    case NotAvailable => "NOT_AVAILABLE"
    case Unknown => "UNKNOWN"
  }

  /** The status schema: exactly the three names are accepted, each as its own status. */
  function StatusSchema(v: Json): (r: Parsed<Status>)
    ensures r.Success? <==> IsOneOf(v, StatusNames)
    ensures r.Success? ==> StatusName(r.value) == v.s
    ensures r.Failure? ==> r.error == if v.Str? then [InvalidEnumValue] else [InvalidType(EnumExpected(StatusNames))]
  {
    match Enum(v, StatusNames)
    case Failure(e) => Failure(e)
    case Success(name) =>
      if name == "AVAILABLE" then Success(Available)
      else if name == "NOT_AVAILABLE" then Success(NotAvailable)
      else Success(Unknown)
  }

  /** Every status survives the trip through its name. */
  lemma StatusRoundTrip(s: Status)
    ensures StatusSchema(Str(StatusName(s))) == Success(s)
  {
  }

  /** Near misses are not statuses: the schema matches names exactly, case included. */
  lemma StatusRejections()
    ensures StatusSchema(Str("available")) == Failure([InvalidEnumValue])
    ensures StatusSchema(Str("")) == Failure([InvalidEnumValue])
    ensures StatusSchema(Null) == Failure([InvalidType(EnumExpected(StatusNames))])
    ensures StatusSchema(Undefined) == Failure([InvalidType(EnumExpected(StatusNames))])
  {
  }

  datatype SetInput = SetInput(companyId: Json, productId: Json, status: Json)
  datatype GetInput = GetInput(companyId: Json, productId: Json)

  /** A checked setAvailability input. */
  datatype Assignment = Assignment(companyId: Id, productId: Id, status: Status)

  /** The setAvailability schema: two UUIDs and a status name; every failing field is reported. */
  function SetSchema(input: SetInput): (r: Result<Assignment, seq<Issue>>)
    ensures r.Success? <==>
      IsUuidString(input.companyId) && IsUuidString(input.productId) && IsOneOf(input.status, StatusNames)
    ensures r.Success? ==>
      && r.value.companyId == input.companyId.s
      && r.value.productId == input.productId.s
      && StatusName(r.value.status) == input.status.s
    ensures r.Failure? ==> |r.error| > 0
    ensures r.Failure? ==> forall k :: 0 <= k < |r.error| ==>
      || (r.error[k].path == "companyId" && !IsUuidString(input.companyId))
      || (r.error[k].path == "productId" && !IsUuidString(input.productId))
      || (r.error[k].path == "status" && !IsOneOf(input.status, StatusNames))
    ensures r.Failure? && !IsUuidString(input.companyId) ==> Reports(r.error, "companyId")
    ensures r.Failure? && !IsUuidString(input.productId) ==> Reports(r.error, "productId")
    ensures r.Failure? && !IsOneOf(input.status, StatusNames) ==> Reports(r.error, "status")
  {
    var company := UuidString(input.companyId);
    var product := UuidString(input.productId);
    var status := StatusSchema(input.status);
    if company.Success? && product.Success? && status.Success? then
      Success(Assignment(company.value, product.value, status.value))
    else
      ReportsAt("companyId", company);
      ReportsAt("productId", product);
      ReportsAt("status", status);
      ReportsConcat(At("companyId", company), At("productId", product));
      ReportsConcat(At("companyId", company) + At("productId", product), At("status", status));
      Failure(At("companyId", company) + At("productId", product) + At("status", status))
  }

  /** The getAvailability schema: two UUIDs; exactly the failing ones are reported. */
  function GetSchema(input: GetInput): (r: Result<(Id, Id), seq<Issue>>)
    ensures r.Success? <==> IsUuidString(input.companyId) && IsUuidString(input.productId)
    ensures r.Success? ==> r.value == (input.companyId.s, input.productId.s)
    ensures r.Failure? ==> |r.error| > 0
    ensures r.Failure? ==> forall k :: 0 <= k < |r.error| ==>
      || (r.error[k].path == "companyId" && !IsUuidString(input.companyId))
      || (r.error[k].path == "productId" && !IsUuidString(input.productId))
    ensures r.Failure? ==> (Reports(r.error, "companyId") <==> !IsUuidString(input.companyId))
    ensures r.Failure? ==> (Reports(r.error, "productId") <==> !IsUuidString(input.productId))
  {
    var company := UuidString(input.companyId);
    var product := UuidString(input.productId);
    if company.Success? && product.Success? then Success((company.value, product.value))
    else
      ReportsAt("companyId", company);
      ReportsAt("productId", product);
      ReportsConcat(At("companyId", company), At("productId", product));
      Failure(At("companyId", company) + At("productId", product))
  }

  /** `findUnique` on the `companyId_productId` key: the row for the pair, or no row. */
  function Lookup(t: map<(Id, Id), Availability>, c: Id, p: Id): (r: Option<Availability>)
    ensures r.Some? <==> (c, p) in t
    ensures r.Some? ==> r.value == t[(c, p)]
  {
    if (c, p) in t then Some(t[(c, p)]) else None
  }

  /**
   * The table after the upsert: an existing row for the pair keeps everything
   * but its status, which becomes s; a missing one is created with s; no
   * other row changes.
   */
  function Upsert(t: map<(Id, Id), Availability>, c: Id, p: Id, s: Status): (u: map<(Id, Id), Availability>)
    ensures u.Keys == t.Keys + {(c, p)}
    ensures (c, p) in t ==> u[(c, p)] == t[(c, p)].(status := s)
    ensures (c, p) !in t ==> u[(c, p)] == Availability(c, p, s)
    ensures forall k :: k in t && k != (c, p) ==> u[k] == t[k]
  {
    if (c, p) in t then t[(c, p) := t[(c, p)].(status := s)] else t[(c, p) := Availability(c, p, s)]
  }

  /** The upsert keeps every row under its own pair, and leaves exactly one row for (c, p). */
  lemma UpsertLeavesOneRow(t: map<(Id, Id), Availability>, c: Id, p: Id, s: Status)
    requires KeyedByPair(t)
    ensures KeyedByPair(Upsert(t, c, p, s))
    ensures RowsFor(Upsert(t, c, p, s), c, p) == {(c, p)}
  {
  }

  /** Reading a pair right after setting it gives the row with the status just set. */
  lemma GetAfterSet(t: map<(Id, Id), Availability>, c: Id, p: Id, s: Status)
    requires KeyedByPair(t)
    ensures Lookup(Upsert(t, c, p, s), c, p) == Some(Availability(c, p, s))
  {
  }

  /** Setting a pair leaves the reading of every other pair as it was. */
  lemma SetLeavesOtherPairs(t: map<(Id, Id), Availability>, c: Id, p: Id, s: Status, c': Id, p': Id)
    requires (c', p') != (c, p)
    ensures Lookup(Upsert(t, c, p, s), c', p') == Lookup(t, c', p')
  {
  }

  /** Setting the same status twice gives the table that setting it once gives. */
  lemma UpsertIdempotent(t: map<(Id, Id), Availability>, c: Id, p: Id, s: Status)
    ensures Upsert(Upsert(t, c, p, s), c, p, s) == Upsert(t, c, p, s)
  {
  }

  /** Of two writes to one pair the later status wins, and the table is as if only it had happened. */
  lemma LastWriteWins(t: map<(Id, Id), Availability>, c: Id, p: Id, s1: Status, s2: Status)
    ensures Upsert(Upsert(t, c, p, s1), c, p, s2) == Upsert(t, c, p, s2)
  {
  }

  /** Writes to two different pairs do not interfere: either order gives the same table. */
  lemma UpsertsOnDistinctPairsCommute(
    t: map<(Id, Id), Availability>, c: Id, p: Id, s: Status, c': Id, p': Id, s': Status)
    requires (c, p) != (c', p')
    ensures Upsert(Upsert(t, c, p, s), c', p', s') == Upsert(Upsert(t, c', p', s'), c, p, s)
  {
  }

  /** A pair never written reads as "no row", which is not the same answer as a row holding UNKNOWN. */
  lemma NeverWrittenIsNoRow(t: map<(Id, Id), Availability>, c: Id, p: Id)
    requires (c, p) !in t
    ensures Lookup(t, c, p) == None
    ensures Lookup(t, c, p) != Lookup(Upsert(t, c, p, Unknown), c, p)
  {
  }

  /** getAvailability (protected tier): the row for the exact pair, or no row; never an error for a missing row. */
  function GetAvailability(db: Store, ctx: Context, input: GetInput): (r: Result<Option<Availability>, Error>)
    reads db
    ensures !HasUser(ctx) ==> r == Failure(Unauthorized)
    ensures HasUser(ctx) && GetSchema(input).Failure? ==> r == Failure(BadRequest(GetSchema(input).error))
    ensures HasUser(ctx) && GetSchema(input).Success? ==>
      r == Success(Lookup(db.availability, input.companyId.s, input.productId.s))
  {
    match ProtectedGate(ctx)
    case Failure(e) => Failure(e)
    case Success(_) =>
      match GetSchema(input)
      case Failure(issues) => Failure(BadRequest(issues))
      case Success(pair) => Success(Lookup(db.availability, pair.0, pair.1))
  }

  /**
   * setAvailability (admin tier): look the pair up, then overwrite the status
   * of the row found or create the row. Creating links the company and the
   * product, which fails in the store when either is missing.
   */
  method SetAvailability(db: Store, ctx: Context, input: SetInput) returns (r: Result<Availability, Error>)
    requires db.Valid()
    modifies db`availability
    ensures db.Valid()
    ensures AdminGate(ctx).Failure? ==> r == Failure(AdminGate(ctx).error)
    ensures AdminGate(ctx).Success? && SetSchema(input).Failure? ==>
      r == Failure(BadRequest(SetSchema(input).error))
    ensures r.Failure? ==> db.availability == old(db.availability)
    ensures AdminGate(ctx).Success? && SetSchema(input).Success? ==>
      var a := SetSchema(input).value;
      if (a.companyId, a.productId) in old(db.availability) || (a.companyId in db.companies && a.productId in db.products)
      then r == Success(Availability(a.companyId, a.productId, a.status))
        && db.availability == Upsert(old(db.availability), a.companyId, a.productId, a.status)
      else r == Failure(StoreError(ConnectFailed))
    ensures r.Success? ==>
      GetAvailability(db, ctx, GetInput(input.companyId, input.productId)) == Success(Some(r.value))
  {
    var gate := AdminGate(ctx);
    if gate.Failure? {
      return Failure(gate.error);
    }
    var parsed := SetSchema(input);
    if parsed.Failure? {
      return Failure(BadRequest(parsed.error));
    }
    var a := parsed.value;
    var existing := Lookup(db.availability, a.companyId, a.productId);
    if existing.Some? {
      var row := existing.value.(status := a.status);
      db.availability := db.availability[(a.companyId, a.productId) := row];
      r := Success(row);
    } else if a.companyId !in db.companies || a.productId !in db.products {
      r := Failure(StoreError(ConnectFailed));
    } else {
      var row := Availability(a.companyId, a.productId, a.status);
      db.availability := db.availability[(a.companyId, a.productId) := row];
      r := Success(row);
    }
    if r.Success? {
      UpsertLeavesOneRow(old(db.availability), a.companyId, a.productId, a.status);
      GetAfterSet(old(db.availability), a.companyId, a.productId, a.status);
    }
  }
}
