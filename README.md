# ProductPulse procedure layer, modelled in Dafny

This project models the server-side procedure layer of ProductPulse. ProductPulse is a small
web application for rating companies on ethics, price and quality of service, and for recording
which products each company carries. The model covers three parts:

- **Authorization gate** (`src/server/api/trpc.ts`). The request context is built from the
  resolved session; a missing or empty role becomes `"USER"`. There are three procedure tiers
  (public, protected, admin). The protected tier answers `UNAUTHORIZED` when there is no session
  user. The admin tier runs the protected check first, then the role check, so a caller without
  an identity always gets `UNAUTHORIZED` and never `FORBIDDEN`. The timing middleware returns
  the rest of the chain's result unchanged.
- **Input schemas** (the zod objects in the routers). A JSON field is `Validation.Json`, where
  `Undefined` is a missing key. Each check is a function that accepts a value or returns the
  issue codes zod would report, in zod's terms: `invalid_type` with the expected type (a failed
  `.int()` is an `invalid_type` expecting "integer"), `too_small`, `too_big`, `invalid_string`
  with validation "uuid", and `invalid_enum_value`. An object schema reports the issues of all
  of its fields: every issue names a failing field, and every failing field is named. Names must
  be non-empty and are not trimmed. Ratings must be absent or an integer in [1, 5]. Ids must be
  UUIDs, modelled concretely as the 8-4-4-4-12 hexadecimal shape. Status must be one of
  `AVAILABLE`, `NOT_AVAILABLE` or `UNKNOWN`.
- **Table operations** against an abstract store, `Db.Store`. The store is a class with a
  `map` per table: companies and products keyed by id, availability rows keyed by the
  (companyId, productId) pair. It also holds the set of user ids that a new row can name as its
  creator. Write procedures are methods that modify exactly one table field and state its
  whole new value. Read procedures are functions that read the store.

Each procedure runs in the order tRPC uses: the tier's gate, then the input schema (`BAD_REQUEST`
carrying the issues), then the store. A failing gate or schema leaves the store unchanged.

Errors are `Trpc.Error`. `StoreError(fault)` is a store exception that propagates without being
wrapped, as in the company and availability routers; tRPC reports it to the client with code
INTERNAL_SERVER_ERROR. The product router catches every store failure: `NOT_FOUND` is re-thrown
as is, and anything else becomes `InternalServerError(cause)`.

Where the code and the intended design differ, the model follows the code:
- `getCompanyById` returns null for an unknown id rather than raising NOT_FOUND.
- `updateCompany` and `deleteCompany` do no existence check. A missing id fails inside the store
  (`StoreError(RecordNotFound)`), not with NOT_FOUND.
- Name checks are `min(1)` with no trimming, so a whitespace-only name is accepted.
- `setAvailability` does not check that the company and product exist. Its create path fails
  in the store (`StoreError(ConnectFailed)`) when either is missing. Its update path does not
  look at them at all.
- `createTRPCContext` gives every session a user object, even when the provider's session has
  none. So on a built context the protected tier only tests that a session exists
  (`Trpc.BuiltContextProtected`).

Environment inputs are parameters: the id the store generates for a new row (`newId`) and the
creation time of a product (`now`). A generated id that is already taken is the store's
`UniqueViolation`.

## Model

| member | source | states |
|---|---|---|
| `Trpc.RoleOrDefault` | src/server/api/trpc.ts:39 | an absent or empty role becomes "USER"; any other role is kept; the result is never empty |
| `Trpc.CreateContext` | src/server/api/trpc.ts:21-45 | no session gives a null context session; a session always gives a user carrying the provider's user id (possibly missing) and the defaulted role |
| `Trpc.ProtectedGate` | src/server/api/trpc.ts:129-139 | fails exactly when there is no session or no user, and then with UNAUTHORIZED; otherwise passes the session and the user on unchanged |
| `Trpc.IsAdmin` | src/server/api/trpc.ts:145-164 | UNAUTHORIZED without a user; FORBIDDEN for a user whose role is not "ADMIN"; otherwise passes the session and user on |
| `Trpc.AdminGate` | src/server/api/trpc.ts:145-170 | protected-then-isAdmin: UNAUTHORIZED without a user, FORBIDDEN for a non-admin role, success exactly for a user with role "ADMIN", and the same caller the protected tier passes |
| `Trpc.TimingMiddleware` | src/server/api/trpc.ts:92-106 | the middleware's result is the result of the rest of the chain, unchanged |
| `Trpc.PublicProcedure` | src/server/api/trpc.ts:92-122 | the public tier with the timing middleware returns exactly the resolver's result |
| `Trpc.ProtectedProcedure` | src/server/api/trpc.ts:127-140 | UNAUTHORIZED without a user; otherwise exactly the resolver's result for the passed-on caller; timing changes nothing |
| `Trpc.AdminProcedure` | src/server/api/trpc.ts:166-170 | UNAUTHORIZED, then FORBIDDEN, otherwise exactly the resolver's result for the admin caller |
| `Trpc.AdminImpliesProtected` | src/server/api/trpc.ts:170 | whoever passes the admin tier passes the protected tier, as the same caller |
| `Trpc.IdentityBeforeRole` | src/server/api/trpc.ts:147-157 | the admin tier answers FORBIDDEN only to a present user with another role, and UNAUTHORIZED exactly when there is no user |
| `Trpc.AdminGateIsIsAdmin` | src/server/api/trpc.ts:145-170 | the protected check in front of isAdmin changes no decision; isAdmin's own identity check is what decides UNAUTHORIZED |
| `Trpc.BuiltContextProtected` | src/server/api/trpc.ts:31-42 | on a context built from the session, the protected tier passes exactly when the provider gave a session |
| `Trpc.BuiltContextAdmin` | src/server/api/trpc.ts:31-42 | on a built context, the admin tier passes exactly when the provider's user exists and has role "ADMIN" |
| `Validation.NonEmptyString` | src/server/api/routers/company.ts:14 | accepts exactly the strings of length at least one and returns them untrimmed; others give too_small, non-strings invalid_type |
| `Validation.IntBetween` | src/server/api/routers/company.ts:15-17 | accepts exactly the integral numbers in [lo, hi] and returns that integer; a non-number gives invalid_type expecting "number" alone; for a number, invalid_type expecting "integer", too_small and too_big are each reported exactly when that check fails |
| `Validation.UuidString` | src/server/api/routers/product.ts:15-17 | accepts exactly the strings of UUID shape, unchanged; other strings give invalid_string with validation "uuid", non-strings invalid_type expecting "string" |
| `Validation.Enum` | src/server/api/routers/productAvailability.ts:17 | accepts exactly the listed strings; other strings give invalid_enum_value, non-strings invalid_type expecting the quoted options |
| `Validation.Optional` | src/server/api/routers/product.ts:20 | a missing key is accepted as absent; any other value is accepted or rejected exactly as the inner check does |
| `Validation.At` | src/server/api/routers/company.ts:13-18 | one issue per failed check of a field, each naming that field |
| `Validation.ReportsAt` | src/server/api/routers/company.ts:13-18 | a field's issues name that field and no other, and name it exactly when its check failed |
| `Validation.ReportsConcat` | src/server/api/routers/company.ts:13-18 | the joined issue list of an object names a field exactly when one of the joined lists does |
| `Validation.OptionalRating` | src/server/api/routers/company.ts:15-17 | a rating is accepted exactly when absent or an integer in [1, 5], and then stands for the same value |
| `Validation.OptionalName` | src/server/api/routers/company.ts:82 | an update name is accepted exactly when absent or non-empty, and is then absent or that same string |
| `Validation.RatingAcceptsExactlyOneToFive` | src/server/api/routers/company.ts:15-17 | for every integer k, rating k is accepted exactly when 1 <= k <= 5, and kept as k |
| `Validation.RatingRejections` | src/server/api/routers/company.ts:15-17 | 0 gives too_small, 6 too_big, 2.5 invalid_type expecting "integer", 0.5 that and too_small, "3" and null invalid_type expecting "number"; a missing rating is accepted as absent |
| `Validation.NameIsNotTrimmed` | src/server/api/routers/company.ts:14 | " " is accepted as is; "" and a missing name are rejected |
| `Validation.UuidFromRuns` | src/server/api/routers/product.ts:16 | five runs of 8, 4, 4, 4 and 12 characters joined by dashes form a UUID exactly when every run is hexadecimal |
| `Validation.UuidRejections` | src/server/api/routers/product.ts:16 | a string one character short, one with a misplaced dash and one with a non-hex digit are rejected |
| `Db.CanConnectUser` | src/server/api/routers/product.ts:48 | `createdBy: { connect }` (also company.ts:27) succeeds exactly when the caller's id is present and names a stored user |
| `Db.AtMostOneRowPerPair` | src/server/api/routers/productAvailability.ts:22-29 | in a table keyed by pair, the rows linking a company with a product are that pair's row or none, so at most one |
| `ProductRouter.CreateSchema` | src/server/api/routers/product.ts:11-13 | accepts exactly a non-empty name and returns it; every issue is about `name` |
| `ProductRouter.IdSchema` | src/server/api/routers/product.ts:15-17 | accepts exactly a UUID id and returns it; every issue is about `id` |
| `ProductRouter.UpdateSchema` | src/server/api/routers/product.ts:19-21 | accepts exactly a UUID id with an absent or non-empty name; an absent name stays absent; every issue names a failing field, and a failing id or name is always reported |
| `ProductRouter.Rethrow` | src/server/api/routers/product.ts:96-103 | a typed error is re-thrown as is; a store failure becomes INTERNAL_SERVER_ERROR with that cause; the result is always typed |
| `ProductRouter.RethrowIdempotent` | src/server/api/routers/product.ts:96-103 | wrapping an error twice is wrapping it once |
| `ProductRouter.ApplyPatch` | src/server/api/routers/product.ts:123-129 | an update changes only the name, and only when one is given; id, creator and creation time are kept |
| `ProductRouter.CreateProduct` | src/server/api/routers/product.ts:41-59 | gate, then schema, before any write; the new product has the given name, the caller as creator and the given time; store failures become INTERNAL_SERVER_ERROR with no write; only that id is added |
| `ProductRouter.Newest` | src/server/api/routers/product.ts:65-68 | picks a product no other product of the table is newer than |
| `ProductRouter.NewestExists` | src/server/api/routers/product.ts:65-68 | every non-empty table has a newest product |
| `ProductRouter.NewestFirst` | src/server/api/routers/product.ts:67 | `orderBy: { createdAt: 'desc' }`: every listed id is in the table, and a non-empty table is listed starting with a newest product |
| `ProductRouter.NewestFirstListsEachOnce` | src/server/api/routers/product.ts:65-68 | the newest-first listing holds every id of the table exactly once |
| `ProductRouter.NewestFirstIsDescending` | src/server/api/routers/product.ts:65-68 | the newest-first listing is ordered by createdAt, descending |
| `ProductRouter.GetAllProducts` | src/server/api/routers/product.ts:62-76 | UNAUTHORIZED without a user; otherwise every stored product, as many as the table holds, newest first |
| `ProductRouter.GetProductById` | src/server/api/routers/product.ts:79-105 | gate, then schema; then the stored product, or NOT_FOUND when no row has that id |
| `ProductRouter.UpdateProduct` | src/server/api/routers/product.ts:108-139 | NOT_FOUND with no write for an unknown id; otherwise only that product changes, by the patch; all other products are untouched |
| `ProductRouter.DeleteProduct` | src/server/api/routers/product.ts:142-170 | NOT_FOUND with no write for an unknown id; otherwise removes exactly that product and returns it |
| `CompanyRouter.CreateIssues` | src/server/api/routers/company.ts:13-18 | every issue of the create schema names a failing field, and every failing field is named by an issue |
| `CompanyRouter.CreateSchema` | src/server/api/routers/company.ts:13-18 | accepts exactly a non-empty name with three ratings each absent or in [1, 5]; keeps the name and ratings as given; every issue names a failing field, and every failing field is named by an issue |
| `CompanyRouter.IdSchema` | src/server/api/routers/company.ts:55 | accepts exactly a UUID id and returns it |
| `CompanyRouter.UpdateIssues` | src/server/api/routers/company.ts:80-86 | every issue of the update schema names a failing field, and every failing field is named by an issue |
| `CompanyRouter.UpdateSchema` | src/server/api/routers/company.ts:80-86 | accepts exactly a UUID id, an absent or non-empty name and three valid optional ratings; omitted fields stay absent in the patch; every issue names a failing field, and every failing field is named by an issue |
| `CompanyRouter.UpdateRatingsMatchCreate` | src/server/api/routers/company.ts:83-85 | with a valid id and name, update accepts exactly the ratings create accepts |
| `CompanyRouter.ApplyPatch` | src/server/api/routers/company.ts:89-96 | each field changes exactly when the patch gives it; omitted fields, the id and the creator are kept |
| `CompanyRouter.EmptyPatchChangesNothing` | src/server/api/routers/company.ts:89-96 | an update that gives no field leaves the company as it was |
| `CompanyRouter.CreateCompany` | src/server/api/routers/company.ts:11-30 | gate, then schema, before any write; stores exactly the given name and ratings with the caller as creator; store failures propagate unwrapped with no write |
| `CompanyRouter.StoreOrder` | src/server/api/routers/company.ts:34 | `findMany` without `orderBy`: every listed id is in the table, and the listing is empty exactly when the table is |
| `CompanyRouter.StoreOrderListsEachOnce` | src/server/api/routers/company.ts:33-51 | the unordered listing holds every id of the table exactly once |
| `CompanyRouter.GetAllCompanies` | src/server/api/routers/company.ts:33-51 | UNAUTHORIZED without a user; otherwise every stored company, as many as the table holds, in no stated order |
| `CompanyRouter.GetCompanyById` | src/server/api/routers/company.ts:54-75 | gate, then schema; then the stored company or null, and never NOT_FOUND |
| `CompanyRouter.UpdateCompany` | src/server/api/routers/company.ts:78-98 | a missing id fails in the store with no write; otherwise only the given fields of that company change and other companies are untouched |
| `CompanyRouter.DeleteCompany` | src/server/api/routers/company.ts:101-107 | a missing id fails in the store with no write; otherwise removes that company and no other, and returns it |
| `AvailabilityRouter.StatusName` | src/server/api/routers/productAvailability.ts:17 | every status has a name among the three the enum admits |
| `AvailabilityRouter.StatusSchema` | src/server/api/routers/productAvailability.ts:17 | accepts exactly the three status names, each as its own status |
| `AvailabilityRouter.StatusRoundTrip` | src/server/api/routers/productAvailability.ts:17 | every status is accepted back from its name |
| `AvailabilityRouter.StatusRejections` | src/server/api/routers/productAvailability.ts:17 | a lower-case name and the empty string give invalid_enum_value; null and a missing status give invalid_type |
| `AvailabilityRouter.SetSchema` | src/server/api/routers/productAvailability.ts:13-19 | accepts exactly two UUIDs and a status name; every issue names a failing field, and each failing field is reported |
| `AvailabilityRouter.GetSchema` | src/server/api/routers/productAvailability.ts:51-56 | accepts exactly two UUIDs and returns them as the pair; the issues name only the failing ids, and each failing id is named |
| `AvailabilityRouter.Lookup` | src/server/api/routers/productAvailability.ts:58-65 | the row stored for the pair, or no row exactly when the pair has none |
| `AvailabilityRouter.Upsert` | src/server/api/routers/productAvailability.ts:31-45 | an existing row keeps all but its status, which becomes s; a missing row is created with s; no other row changes |
| `AvailabilityRouter.UpsertLeavesOneRow` | src/server/api/routers/productAvailability.ts:22-46 | after the upsert every row still sits under its own pair and exactly one row links c and p |
| `AvailabilityRouter.GetAfterSet` | src/server/api/routers/productAvailability.ts:12-66 | reading a pair right after setting it gives the row with the status just set |
| `AvailabilityRouter.SetLeavesOtherPairs` | src/server/api/routers/productAvailability.ts:22-46 | setting one pair leaves the reading of every other pair unchanged |
| `AvailabilityRouter.UpsertIdempotent` | src/server/api/routers/productAvailability.ts:31-45 | setting the same status twice gives the same table as setting it once |
| `AvailabilityRouter.LastWriteWins` | src/server/api/routers/productAvailability.ts:31-45 | two writes to one pair leave the table as the later write alone would |
| `AvailabilityRouter.UpsertsOnDistinctPairsCommute` | src/server/api/routers/productAvailability.ts:22-46 | writes to two different pairs give the same table in either order |
| `AvailabilityRouter.NeverWrittenIsNoRow` | src/server/api/routers/productAvailability.ts:57-65 | a pair never written reads as no row, which differs from a row holding UNKNOWN |
| `AvailabilityRouter.GetAvailability` | src/server/api/routers/productAvailability.ts:49-66 | gate, then schema; then the pair's row or no row, never an error for a missing row |
| `AvailabilityRouter.SetAvailability` | src/server/api/routers/productAvailability.ts:12-47 | gate, then schema, before any store access; an existing row or a linkable company and product gives the upserted table and the row with status s; otherwise the store's connect failure with no write; a following getAvailability returns that row |

## Left out

- The React pages and components, the chart layout (D3 scales in floating point) and the login
  and upload forms: rendering and browser I/O.
- The session provider (NextAuth configuration, environment variables) and the HTTP route
  wiring. The resolved session is an input (`Trpc.ProviderSession`).
- Router aggregation in `src/server/api/root.ts`, which only collects the routers.
- `timingMiddleware`'s clock reads, random development delay and log line. Only the fact that
  it returns the chain's result unchanged is modelled.
- The `include`/`select` projections of the queries (related rows, the creator's id, name and
  email). Results are the stored rows themselves.
- The database's referential actions. The schema that decides cascade or restrict is not part
  of this model, so deleting a company or product leaves the availability rows as they are and
  cannot fail on a foreign key.
- Store failures that do not come from the data itself (database unreachable, timeouts). The
  store fails only on a missing row, a taken id or a missing link.
- Concurrent requests. The model runs one procedure at a time, so races between two upserts
  of one pair are not represented.
- `uploadBulkData`: the upload form calls it, but no router shown here defines it.
- `superjson` transport and zod's error formatting. Issues are kept as (field, code) pairs,
  the code with its expected type or failed validation, without the `received` type or message.
- An input that is not an object at all (no input sent): zod reports one `invalid_type` at the
  root path there, but the input types always carry their fields, so this case is not
  represented.
- JavaScript numbers are `real`: NaN, the infinities and floating-point rounding are not
  represented.
- The UUID check: it is the 8-4-4-4-12 hexadecimal shape of zod 3's `.uuid()`. Versions of zod
  that also constrain the version and variant digits are not modelled.
- `ProductRouter.GetAllProducts`: ties on `createdAt` come out in some order the model does not
  fix, as the store's order for equal keys is unspecified.
- `CompanyRouter.GetAllCompanies`: the store's natural order is represented as some fixed
  enumeration, not as the order the database would use.
