/**
 * The company router of src/server/api/routers/company.ts: the name and
 * rating schemas and its five procedures. No call is wrapped in a try block,
 * so a store failure propagates as it is (`StoreError`).
 */
module CompanyRouter {
  import opened Wrappers
  import opened Validation
  import opened Trpc
  import opened Db

  datatype CreateInput = CreateInput(name: Json, ethicsRating: Json, priceRating: Json, qualityServiceRating: Json)
  datatype IdInput = IdInput(id: Json)
  datatype UpdateInput = UpdateInput(
    id: Json, name: Json, ethicsRating: Json, priceRating: Json, qualityServiceRating: Json)

  /** The checked fields of a new company. */
  datatype Fields = Fields(
    name: string, ethicsRating: Option<int>, priceRating: Option<int>, qualityServiceRating: Option<int>)

  /** A checked update: the target id and, for each field, its new value if one was given. */
  datatype Patch = Patch(
    id: Id, name: Option<string>,
    ethicsRating: Option<int>, priceRating: Option<int>, qualityServiceRating: Option<int>)

  /** The issue paths of the company schemas. */
  predicate FailingCreateField(input: CreateInput, path: string) {
    || (path == "name" && !IsNonEmptyString(input.name))
    || (path == "ethicsRating" && !IsOptionalRating(input.ethicsRating))
    || (path == "priceRating" && !IsOptionalRating(input.priceRating))
    || (path == "qualityServiceRating" && !IsOptionalRating(input.qualityServiceRating))
  }

  /** The issues of the createCompany schema: those of every field, each on a failing field. */
  function CreateIssues(input: CreateInput): (issues: seq<Issue>)
    ensures forall k :: 0 <= k < |issues| ==> FailingCreateField(input, issues[k].path)
    ensures forall path :: FailingCreateField(input, path) ==> Reports(issues, path)
  {
    var name := NonEmptyString(input.name);
    var ethics := OptionalRating(input.ethicsRating);
    var price := OptionalRating(input.priceRating);
    var quality := OptionalRating(input.qualityServiceRating);
    var names, ethicses, prices, qualities :=
      At("name", name), At("ethicsRating", ethics), At("priceRating", price), At("qualityServiceRating", quality);
    ReportsAt("name", name);
    ReportsAt("ethicsRating", ethics);
    ReportsAt("priceRating", price);
    ReportsAt("qualityServiceRating", quality);
    ReportsConcat(names, ethicses);
    ReportsConcat(names + ethicses, prices);
    ReportsConcat(names + ethicses + prices, qualities);
    names + ethicses + prices + qualities
  }

  /** The createCompany schema: a non-empty name and three ratings, each absent or an integer in [1,5]. */
  function CreateSchema(input: CreateInput): (r: Result<Fields, seq<Issue>>)
    ensures r.Success? <==>
      && IsNonEmptyString(input.name)
      && IsOptionalRating(input.ethicsRating)
      && IsOptionalRating(input.priceRating)
      && IsOptionalRating(input.qualityServiceRating)
    ensures r.Success? ==>
      && r.value.name == input.name.s
      && RatingDenotes(input.ethicsRating, r.value.ethicsRating)
      && RatingDenotes(input.priceRating, r.value.priceRating)
      && RatingDenotes(input.qualityServiceRating, r.value.qualityServiceRating)
    ensures r.Success? ==>
      WellFormedCompany(Company("", r.value.name, r.value.ethicsRating, r.value.priceRating,
                                r.value.qualityServiceRating, ""))
    ensures r.Failure? ==> |r.error| > 0
    ensures r.Failure? ==> forall k :: 0 <= k < |r.error| ==> FailingCreateField(input, r.error[k].path)
    ensures r.Failure? ==> forall path :: FailingCreateField(input, path) ==> Reports(r.error, path)
  {
    var name := NonEmptyString(input.name);
    var ethics := OptionalRating(input.ethicsRating);
    var price := OptionalRating(input.priceRating);
    var quality := OptionalRating(input.qualityServiceRating);
    if name.Success? && ethics.Success? && price.Success? && quality.Success? then
      Success(Fields(name.value, ethics.value, price.value, quality.value))
    else
      assert || FailingCreateField(input, "name") || FailingCreateField(input, "ethicsRating")
             || FailingCreateField(input, "priceRating") || FailingCreateField(input, "qualityServiceRating");
      Failure(CreateIssues(input))
  }

  /** `z.object({ id: z.string().uuid() })`, the input of getCompanyById and deleteCompany. */
  function IdSchema(input: IdInput): (r: Result<Id, seq<Issue>>)
    ensures r.Success? <==> IsUuidString(input.id)
    ensures r.Success? ==> r.value == input.id.s
    ensures r.Failure? ==> |r.error| > 0 && forall k :: 0 <= k < |r.error| ==> r.error[k].path == "id"
  {
    var id := UuidString(input.id);
    if id.Success? then Success(id.value) else Failure(At("id", id))
  }

  predicate FailingUpdateField(input: UpdateInput, path: string) {
    || (path == "id" && !IsUuidString(input.id))
    || (path == "name" && !input.name.Undefined? && !IsNonEmptyString(input.name))
    || (path == "ethicsRating" && !IsOptionalRating(input.ethicsRating))
    || (path == "priceRating" && !IsOptionalRating(input.priceRating))
    || (path == "qualityServiceRating" && !IsOptionalRating(input.qualityServiceRating))
  }

  /** The issues of the updateCompany schema: those of every field, each on a failing field. */
  function UpdateIssues(input: UpdateInput): (issues: seq<Issue>)
    ensures forall k :: 0 <= k < |issues| ==> FailingUpdateField(input, issues[k].path)
    ensures forall path :: FailingUpdateField(input, path) ==> Reports(issues, path)
  {
    var id := UuidString(input.id);
    var name := OptionalName(input.name);
    var ethics := OptionalRating(input.ethicsRating);
    var price := OptionalRating(input.priceRating);
    var quality := OptionalRating(input.qualityServiceRating);
    var ids, names, ethicses, prices, qualities :=
      At("id", id), At("name", name), At("ethicsRating", ethics), At("priceRating", price),
      At("qualityServiceRating", quality);
    ReportsAt("id", id);
    ReportsAt("name", name);
    ReportsAt("ethicsRating", ethics);
    ReportsAt("priceRating", price);
    ReportsAt("qualityServiceRating", quality);
    ReportsConcat(ids, names);
    ReportsConcat(ids + names, ethicses);
    ReportsConcat(ids + names + ethicses, prices);
    ReportsConcat(ids + names + ethicses + prices, qualities);
    ids + names + ethicses + prices + qualities
  }

  /** The updateCompany schema: a UUID id, an optional non-empty name, the same three optional ratings. */
  function UpdateSchema(input: UpdateInput): (r: Result<Patch, seq<Issue>>)
    ensures r.Success? <==>
      && IsUuidString(input.id)
      && (input.name.Undefined? || IsNonEmptyString(input.name))
      && IsOptionalRating(input.ethicsRating)
      && IsOptionalRating(input.priceRating)
      && IsOptionalRating(input.qualityServiceRating)
    ensures r.Success? ==>
      && r.value.id == input.id.s
      && r.value.name == (if input.name.Undefined? then None else Some(input.name.s))
      && RatingDenotes(input.ethicsRating, r.value.ethicsRating)
      && RatingDenotes(input.priceRating, r.value.priceRating)
      && RatingDenotes(input.qualityServiceRating, r.value.qualityServiceRating)
    ensures r.Success? ==>
      IsRating(r.value.ethicsRating) && IsRating(r.value.priceRating) && IsRating(r.value.qualityServiceRating)
    ensures r.Failure? ==> |r.error| > 0
    ensures r.Failure? ==> forall k :: 0 <= k < |r.error| ==> FailingUpdateField(input, r.error[k].path)
    ensures r.Failure? ==> forall path :: FailingUpdateField(input, path) ==> Reports(r.error, path)
  {
    var id := UuidString(input.id);
    var name := OptionalName(input.name);
    var ethics := OptionalRating(input.ethicsRating);
    var price := OptionalRating(input.priceRating);
    var quality := OptionalRating(input.qualityServiceRating);
    if id.Success? && name.Success? && ethics.Success? && price.Success? && quality.Success? then
      Success(Patch(id.value, name.value, ethics.value, price.value, quality.value))
    else
      assert || FailingUpdateField(input, "id") || FailingUpdateField(input, "name")
             || FailingUpdateField(input, "ethicsRating") || FailingUpdateField(input, "priceRating")
             || FailingUpdateField(input, "qualityServiceRating");
      Failure(UpdateIssues(input))
  }

  /** Update and create apply the same rating rules: given a valid id and name, one accepts exactly what the other does. */
  lemma UpdateRatingsMatchCreate(id: Json, name: Json, ethics: Json, price: Json, quality: Json)
    requires IsUuidString(id) && IsNonEmptyString(name)
    ensures UpdateSchema(UpdateInput(id, name, ethics, price, quality)).Success?
        <==> CreateSchema(CreateInput(name, ethics, price, quality)).Success?
  {
  }

  /** `company.update` with undefined fields left out of `data`: only the given fields change. */
  function ApplyPatch(c: Company, patch: Patch): (d: Company)
    ensures d.id == c.id && d.createdById == c.createdById
    ensures patch.name.None? ==> d.name == c.name
    ensures patch.name.Some? ==> d.name == patch.name.value
    ensures patch.ethicsRating.None? ==> d.ethicsRating == c.ethicsRating
    ensures patch.ethicsRating.Some? ==> d.ethicsRating == patch.ethicsRating
    ensures patch.priceRating.None? ==> d.priceRating == c.priceRating
    ensures patch.priceRating.Some? ==> d.priceRating == patch.priceRating
    ensures patch.qualityServiceRating.None? ==> d.qualityServiceRating == c.qualityServiceRating
    ensures patch.qualityServiceRating.Some? ==> d.qualityServiceRating == patch.qualityServiceRating
  {
    c.(name := if patch.name.Some? then patch.name.value else c.name,
       ethicsRating := if patch.ethicsRating.Some? then patch.ethicsRating else c.ethicsRating,
       priceRating := if patch.priceRating.Some? then patch.priceRating else c.priceRating,
       qualityServiceRating :=
         if patch.qualityServiceRating.Some? then patch.qualityServiceRating else c.qualityServiceRating)
  }

  /** A patch with nothing to change leaves the company as it was. */
  lemma EmptyPatchChangesNothing(c: Company, id: Id)
    ensures ApplyPatch(c, Patch(id, None, None, None, None)) == c
  {
  }

  /**
   * createCompany (admin tier): stores exactly the checked name and ratings
   * with the caller as creator; `newId` stands for the id the store generates.
   */
  method CreateCompany(db: Store, ctx: Context, input: CreateInput, newId: Id)
    returns (r: Result<Company, Error>)
    requires db.Valid()
    modifies db`companies
    ensures db.Valid()
    ensures AdminGate(ctx).Failure? ==> r == Failure(AdminGate(ctx).error)
    ensures AdminGate(ctx).Success? && CreateSchema(input).Failure? ==>
      r == Failure(BadRequest(CreateSchema(input).error))
    ensures r.Failure? ==> db.companies == old(db.companies)
    ensures AdminGate(ctx).Success? && CreateSchema(input).Success? ==>
      var creator := AdminGate(ctx).value.user.id;
      && (!CanConnectUser(db.users, creator) ==> r == Failure(StoreError(ConnectFailed)))
      && (CanConnectUser(db.users, creator) && newId in old(db.companies) ==>
            r == Failure(StoreError(UniqueViolation)))
      && (CanConnectUser(db.users, creator) && newId !in old(db.companies) ==>
            && r.Success?
            && r.value.id == newId
            && r.value.name == input.name.s
            && RatingDenotes(input.ethicsRating, r.value.ethicsRating)
            && RatingDenotes(input.priceRating, r.value.priceRating)
            && RatingDenotes(input.qualityServiceRating, r.value.qualityServiceRating)
            && r.value.createdById == creator.value
            && db.companies == old(db.companies)[newId := r.value])
  {
    var gate := AdminGate(ctx);
    if gate.Failure? {
      return Failure(gate.error);
    }
    var parsed := CreateSchema(input);
    if parsed.Failure? {
      return Failure(BadRequest(parsed.error));
    }
    var creator := gate.value.user.id;
    if !CanConnectUser(db.users, creator) {
      return Failure(StoreError(ConnectFailed));
    }
    if newId in db.companies {
      return Failure(StoreError(UniqueViolation));
    }
    var f := parsed.value;
    var company := Company(newId, f.name, f.ethicsRating, f.priceRating, f.qualityServiceRating, creator.value);
    db.companies := db.companies[newId := company];
    r := Success(company);
  }

  /** The order `findMany` returns rows in without `orderBy`: some order, each row once. */
  ghost function StoreOrder(m: map<Id, Company>): (ids: seq<Id>)
    decreases m.Keys
    ensures forall i :: 0 <= i < |ids| ==> ids[i] in m
    ensures m != map[] <==> |ids| > 0
  {
    if m == map[] then []
    else
      var k :| k in m;
      [k] + StoreOrder(m - {k})
  }

  lemma {:induction false} StoreOrderListsEachOnce(m: map<Id, Company>)
    decreases m.Keys
    ensures |StoreOrder(m)| == |m.Keys|
    ensures forall i :: 0 <= i < |StoreOrder(m)| ==> StoreOrder(m)[i] in m
    ensures forall k :: k in m ==> k in StoreOrder(m)
    ensures forall i, j :: 0 <= i < j < |StoreOrder(m)| ==> StoreOrder(m)[i] != StoreOrder(m)[j]
  {
    if m != map[] {
      var k :| k in m && StoreOrder(m) == [k] + StoreOrder(m - {k});
      var rest := m - {k};
      assert rest.Keys == m.Keys - {k};
      StoreOrderListsEachOnce(rest);
      assert k !in StoreOrder(rest);
    }
  }

  /** getAllCompanies (protected tier): every company once, in no stated order. */
  ghost function GetAllCompanies(db: Store, ctx: Context): (r: Result<seq<Company>, Error>)
    reads db
    ensures r.Failure? <==> !HasUser(ctx)
    ensures r.Failure? ==> r.error == Unauthorized
    ensures r.Success? ==> |r.value| == |db.companies.Keys|
    ensures r.Success? ==> forall i :: 0 <= i < |r.value| ==> r.value[i] in db.companies.Values
    ensures r.Success? ==> forall id :: id in db.companies ==> db.companies[id] in r.value
  {
    match ProtectedGate(ctx)
    case Failure(e) => Failure(e)
    case Success(_) =>
      var ids := StoreOrder(db.companies);
      StoreOrderListsEachOnce(db.companies);
      RowsOfCoversTable(db.companies, ids);
      Success(RowsOf(db.companies, ids))
  }

  /** getCompanyById (protected tier): the company or null; this procedure never raises NOT_FOUND. */
  function GetCompanyById(db: Store, ctx: Context, input: IdInput): (r: Result<Option<Company>, Error>)
    reads db
    ensures !HasUser(ctx) ==> r == Failure(Unauthorized)
    ensures HasUser(ctx) && IdSchema(input).Failure? ==> r == Failure(BadRequest(IdSchema(input).error))
    ensures HasUser(ctx) && IdSchema(input).Success? ==>
      r.Success? && (r.value.Some? <==> input.id.s in db.companies)
    ensures r.Success? && r.value.Some? ==> r.value.value == db.companies[input.id.s]
    ensures r != Failure(NotFound)
  {
    match ProtectedGate(ctx)
    case Failure(e) => Failure(e)
    case Success(_) =>
      match IdSchema(input)
      case Failure(issues) => Failure(BadRequest(issues))
      case Success(id) => Success(if id in db.companies then Some(db.companies[id]) else None)
  }

  /**
   * updateCompany (admin tier): no existence check of its own, so a missing
   * id surfaces as the store's RecordNotFound; otherwise only the given
   * fields of that company change.
   */
  method UpdateCompany(db: Store, ctx: Context, input: UpdateInput) returns (r: Result<Company, Error>)
    requires db.Valid()
    modifies db`companies
    ensures db.Valid()
    ensures AdminGate(ctx).Failure? ==> r == Failure(AdminGate(ctx).error)
    ensures AdminGate(ctx).Success? && UpdateSchema(input).Failure? ==>
      r == Failure(BadRequest(UpdateSchema(input).error))
    ensures r.Failure? ==> db.companies == old(db.companies)
    ensures AdminGate(ctx).Success? && UpdateSchema(input).Success? ==>
      var patch := UpdateSchema(input).value;
      && (patch.id !in old(db.companies) ==> r == Failure(StoreError(RecordNotFound)))
      && (patch.id in old(db.companies) ==>
            && r == Success(ApplyPatch(old(db.companies)[patch.id], patch))
            && db.companies == old(db.companies)[patch.id := r.value])
  {
    var gate := AdminGate(ctx);
    if gate.Failure? {
      return Failure(gate.error);
    }
    var parsed := UpdateSchema(input);
    if parsed.Failure? {
      return Failure(BadRequest(parsed.error));
    }
    var patch := parsed.value;
    if patch.id !in db.companies {
      return Failure(StoreError(RecordNotFound));
    }
    var updated := ApplyPatch(db.companies[patch.id], patch);
    db.companies := db.companies[patch.id := updated];
    r := Success(updated);
  }

  /** deleteCompany (admin tier): removes that company and no other; a missing id surfaces as RecordNotFound. */
  method DeleteCompany(db: Store, ctx: Context, input: IdInput) returns (r: Result<Company, Error>)
    requires db.Valid()
    modifies db`companies
    ensures db.Valid()
    ensures AdminGate(ctx).Failure? ==> r == Failure(AdminGate(ctx).error)
    ensures AdminGate(ctx).Success? && IdSchema(input).Failure? ==>
      r == Failure(BadRequest(IdSchema(input).error))
    ensures r.Failure? ==> db.companies == old(db.companies)
    ensures AdminGate(ctx).Success? && IdSchema(input).Success? ==>
      var id := input.id.s;
      && (id !in old(db.companies) ==> r == Failure(StoreError(RecordNotFound)))
      && (id in old(db.companies) ==>
            r == Success(old(db.companies)[id]) && db.companies == old(db.companies) - {id})
  {
    var gate := AdminGate(ctx);
    if gate.Failure? {
      return Failure(gate.error);
    }
    var parsed := IdSchema(input);
    if parsed.Failure? {
      return Failure(BadRequest(parsed.error));
    }
    var id := parsed.value;
    if id !in db.companies {
      return Failure(StoreError(RecordNotFound));
    }
    var deleted := db.companies[id];
    db.companies := db.companies - {id};
    r := Success(deleted);
  }
}
