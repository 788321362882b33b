/**
 * The entity store the procedures run against: the company, product and
 * product-availability tables, and the ids of the users a new row can name
 * as its creator.
 */
module Db {
  import opened Wrappers

  type Id = string

  datatype Status = Available | NotAvailable | Unknown

  datatype Company = Company(
    id: Id,
    name: string,
    ethicsRating: Option<int>,
    priceRating: Option<int>,
    qualityServiceRating: Option<int>,
    createdById: Id)

  datatype Product = Product(id: Id, name: string, createdById: Id, createdAt: int)

  /** One availability row; the store keys it by its (companyId, productId) pair. */
  datatype Availability = Availability(companyId: Id, productId: Id, status: Status)

  predicate IsRating(r: Option<int>) {
    r.None? || 1 <= r.value <= 5
  }

  /** The invariants the procedures keep on a company row. */
  predicate WellFormedCompany(c: Company) {
    c.name != "" && IsRating(c.ethicsRating) && IsRating(c.priceRating) && IsRating(c.qualityServiceRating)
  }

  /** Every row sits under the pair it names, so a pair has at most one row. */
  ghost predicate KeyedByPair(t: map<(Id, Id), Availability>) {
    forall k :: k in t ==> k == (t[k].companyId, t[k].productId)
  }

  /** The keys of the rows that link company c with product p. */
  function RowsFor(t: map<(Id, Id), Availability>, c: Id, p: Id): set<(Id, Id)> {
    set k | k in t && t[k].companyId == c && t[k].productId == p
  }

  /** At most one row links a company with a product. */
  lemma AtMostOneRowPerPair(t: map<(Id, Id), Availability>, c: Id, p: Id)
    requires KeyedByPair(t)
    ensures RowsFor(t, c, p) == if (c, p) in t then {(c, p)} else {}
    ensures |RowsFor(t, c, p)| <= 1
  {
  }

  /** The rows of a table in the order of a listing of its ids. */
  function RowsOf<V>(m: map<Id, V>, ids: seq<Id>): (rows: seq<V>)
    requires forall i :: 0 <= i < |ids| ==> ids[i] in m
    ensures |rows| == |ids|
    ensures forall i :: 0 <= i < |ids| ==> rows[i] == m[ids[i]]
  {
    seq(|ids|, i requires 0 <= i < |ids| => m[ids[i]])
  }

  /** A listing that names every id gives every row. */
  lemma RowsOfCoversTable<V>(m: map<Id, V>, ids: seq<Id>)
    requires forall i :: 0 <= i < |ids| ==> ids[i] in m
    requires forall k :: k in m ==> k in ids
    ensures forall i :: 0 <= i < |ids| ==> RowsOf(m, ids)[i] in m.Values
    ensures forall k :: k in m ==> m[k] in RowsOf(m, ids)
  {
  }

  class Store {
    var users: set<Id>
    var companies: map<Id, Company>
    var products: map<Id, Product>
    var availability: map<(Id, Id), Availability>

    ghost predicate Valid()
      reads this
    {
      && (forall id :: id in companies ==> companies[id].id == id && WellFormedCompany(companies[id]))
      && (forall id :: id in products ==> products[id].id == id && products[id].name != "")
      && KeyedByPair(availability)
    }

    /** An empty store whose user table holds the given ids. */
    constructor (users: set<Id>)
      ensures Valid()
      ensures this.users == users && companies == map[] && products == map[] && availability == map[]
    {
      this.users := users;
      companies, products, availability := map[], map[], map[];
    }
  }

  /** `createdBy: { connect: { id } }` succeeds only for a present id that names a user. */
  predicate CanConnectUser(users: set<Id>, id: Option<Id>): (b: bool)
    ensures b <==> exists u :: u in users && id == Some(u)
  {
    id.Some? && id.value in users
  }
}
