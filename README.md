# BuyCycle server: authorization gates, store updates and the category join

This project models the request-handling core of the BuyCycle marketplace
server (`index.js`). The server is an Express application over three MongoDB
collections: users, products and bookings. The model covers three parts.

- **Authorization gates.** `verifyToken` takes the bearer token from the
  `Authorization` header. It answers 401 "Unauthorized access" unless the token
  verifies and its claimed email equals the `email` query value.
  `verifySellerAccount` answers 403 "Forbidden" unless the user stored under
  that email has account type `"seller"`. Routes run their gates in order, and
  the first refusal answers the request (module `Gates`, route table in
  `Server.RouteGates`).
- **Store operations.** These are registration, product insertion, product
  deletion and booking creation. They are methods of the `Server.Store` class,
  whose sequence fields are the three collections. Registration, deletion and
  the booking's update are specified by pure functions of the old table
  (module `Writes`), and the lemmas there state what the source promises;
  product insertion appends to the table directly.
- **Reads.** These are the user listing, the seller's own product listing and
  the category listing. The category listing left-joins each product to the
  users stored under its `sellerEmail` (module `Queries`). `find` keeps every
  match in table order (`Sequences.Where`). `findOne`, `deleteOne` and
  `updateOne` act on the first match only (`Sequences.IndexWhere`).

Token verification (signature and expiry) is an oracle parameter
`verify: string -> Option<Claims>`. The string-to-ObjectId conversion is
another oracle, `toId: string -> Option<Id>`, which fails on a malformed
string. The store hands out identifiers from a counter, `Store.nextId`.
An absent `Authorization` header, an absent query value, and an absent
product id in a booking or delete request are `None`. An absent `available`
in a posted product is `None`, and a posted `available` is a boolean; the
other body fields are plain strings.

Where the code and the intended design differ, the model follows the code:

- Booking creation sets `available = false` on the booked product.
- Product deletion does not cascade to bookings.
- A repeated booking is stored again.
- A repeated registration is never answered (`NoResponse`).

The one exception is the seller gate on an unknown email; see "## Findings".

## Model

| member | source | states |
|---|---|---|
| `Header.Split` | index.js:20 | `split(" ")` yields at least one word, and no word contains a space |
| `Header.JoinSplit` | index.js:20 | joining the words of a split with spaces gives back the header |
| `Header.SplitJoin` | index.js:20 | splitting a space-join of space-free words gives back those words |
| `Header.BearerToken` | index.js:20-22 | no header gives no token; a token is non-empty and has no space |
| `Header.BearerTokenOfHeader` | index.js:20 | the header `scheme token more...` yields exactly `token` |
| `Header.BearerTokenIsSecondWord` | index.js:20 | any token is the second word of its header: the header is a space-free scheme, the token, and space-free further words (converse of the row above) |
| `Header.NoSpaceNoToken` | index.js:20-22 | a header with no space (a bare token, or the scheme alone) carries no token, so it gets a 401 |
| `Gates.TokenGate` | index.js:19-34 | passes iff a token is present, verifies, and its claimed email equals the query email; otherwise 401 |
| `Gates.TokenFailuresLookAlike` | index.js:21-28 | a missing token, a failed verification and an email mismatch all give the same 401 "Unauthorized access" |
| `Gates.TokenBoundToEmail` | index.js:27-30 | a token issued for one email admits a request iff the query names that same email |
| `Gates.SellerGate` | index.js:42-49 | passes iff the first user stored under the query email is a seller; otherwise 403; an unknown email never passes |
| `Gates.SellerGateAsWritten` | index.js:43-44 | the source's gate throws (no answer) exactly when no user has the email; otherwise it agrees with `SellerGate` |
| `Gates.UnknownSellerThrowsAsWritten` | index.js:43-45 | for an email with no user, the source's gate throws while the corrected gate answers 403 |
| `Gates.SellerGateOnUniqueEmails` | index.js:42-49 | while emails are unique, the gate passes iff some stored user with that email is a seller |
| `Gates.RunChain` | index.js:111-115 | gates run in order; the result passes iff every gate passes; otherwise the first refusing gate answers and no later gate runs |
| `Gates.AuthenticateBeforeRole` | index.js:77 | with `[verifyToken, verifySellerAccount]`, a token failure gives 401 after one gate; otherwise the seller gate decides |
| `Gates.Decision.Status` | index.js:22-45 | a token refusal is answered with status 401 and a seller refusal with 403, and no other status is used |
| `Gates.Decision.Message` | index.js:22-45 | a token refusal's body is "Unauthorized access" and a seller refusal's body is "Forbidden" |
| `Gates.Check` | index.js:19-49 | one middleware call: the token gate can only refuse with 401 and the seller gate only with 403; the seller gate passes iff the user `findOne` returns is a seller |
| `Server.Admission` | index.js:77-123 | a route's middleware chain: a 401 always comes from the first gate, and a 403 only after the token passed |
| `Server.BookingRouteTokenOnly` | index.js:123 | POST /bookings runs only the token gate and never looks up a role |
| `Server.OpenRoutesAdmitAll` | index.js:52-90 | POST /users, GET /users and GET /products/:id run no gate and admit every request |
| `Server.ProductRoutesGateOrder` | index.js:111-114 | a product route admits a request iff both gates pass; a token failure is a 401 with no role lookup |
| `Server.OwnProductsOnly` | index.js:83-87 | an admitted product listing for a token holder contains only that holder's products |
| `Sequences.Where` | index.js:66 | `find` returns exactly the matching documents and never more than the table |
| `Sequences.WhereConcat` | index.js:85 | filtering distributes over concatenation, so results keep table order |
| `Sequences.IndexWhere` | index.js:43 | returns the first matching position, or none iff no document matches |
| `Queries.FindUser` | index.js:53 | `findOne({email})` returns the first user with that email, or none iff no user has it |
| `Queries.UsersWithEmail` | index.js:64-66 | returns exactly the users stored under the email |
| `Queries.AtMostOneUserPerEmail` | index.js:52-58 | while emails are unique, a lookup finds at most one user, and exactly one iff one is stored |
| `Queries.UserListing` | index.js:61-68 | with no (or an empty) email, all users; otherwise exactly the users with that email |
| `Queries.ProductsOwnedBy` | index.js:83-87 | exactly the products whose `ownerEmail` is the query email, so no other owner's products appear |
| `Queries.ProductsInCategory` | index.js:91-96 | exactly the products whose `categoryId` is the path id |
| `Queries.AttachSellers` | index.js:97-104 | one row per product, in order; each row's `sellerDetails` is exactly the users whose email is the product's `sellerEmail` |
| `Queries.AttachSellersRow` | index.js:97-104 | row `i` is product `i` with the email lookup for its `sellerEmail` |
| `Queries.CategoryListing` | index.js:90-107 | the rows are exactly the category's products; `sellerDetails` holds exactly the users with the seller email, and is empty iff there are none, which is not an error |
| `Queries.CategoryListingOrder` | index.js:92-106 | the rows follow the matched products in table order |
| `Queries.AtMostOneSellerPerRow` | index.js:97-104 | while emails are unique, each row has at most one seller record |
| `Writes.Register` | index.js:52-58 | a taken email leaves the table unchanged; a free email appends exactly the posted user; existing records are kept, and afterwards a user with that email exists |
| `Writes.RegisterIdempotent` | index.js:53-54 | a second registration with the same email leaves the users table unchanged |
| `Writes.RegisterKeepsOneRecord` | index.js:52-58 | registration keeps emails unique and leaves exactly one record for the email |
| `Writes.RepeatedRegistration` | index.js:52-58 | after any sequence of registrations, each registered email has exactly one record |
| `Writes.RegisterAllKeeps` | index.js:54-55 | registrations never remove or alter a stored user |
| `Writes.DeleteFirst` | index.js:116-117 | `deleteOne` removes exactly the first product with the id, keeping the others in table order; with no such product the table is unchanged |
| `Writes.DeleteWithUniqueIds` | index.js:116-117 | while ids are unique, no product with the id remains, and ids stay unique |
| `Writes.MarkUnavailable` | index.js:125-131 | the first product with the id gets `available` false; every other product, and every other field, is unchanged |
| `Writes.MarkUnavailableIdempotent` | index.js:126-131 | a second update with the same id changes nothing |
| `Writes.MarkUnavailableWithUniqueIds` | index.js:125-131 | while ids are unique, the product with the id is marked unavailable and every other product is unchanged |
| `Server.Store.constructor` | index.js:37-40 | the store starts with three empty collections |
| `Server.Store.RegisterUser` | index.js:52-58 | the users table becomes `Register(old users, new user)`; a taken email is not answered; other tables are unchanged |
| `Server.Store.InsertProduct` | index.js:77-80 | appends the posted product under a fresh id and answers with it; other tables are unchanged |
| `Server.Store.DeleteProduct` | index.js:111-120 | a missing id deletes nothing; a malformed id throws with no answer; otherwise `DeleteFirst`; bookings are untouched |
| `Server.Store.CreateBooking` | index.js:123-133 | appends exactly one booking, then applies `MarkUnavailable` to its product; a malformed id leaves the booking stored and no answer |
| `Server.Store.Handle` | index.js:52-133 | a refused request is answered with the gate's status and message and changes nothing; an admitted one runs its route's handler |

## Left out

- Express setup, CORS, JSON parsing, `app.listen`, the connection string,
  `dotenv` and the `run().catch` logger are I/O and bootstrapping.
- JWT signing (`/jwt-token`) and the signature and expiry check are left out.
  Verification is the `verify` oracle.
- The ObjectId format check is the `toId` oracle. `ObjectId(undefined)` makes a
  fresh id that no stored product carries. The model writes this directly: a
  delete answers `deletedCount` 0, and a booking update changes nothing.
- `GET /` returns a fixed message, and is not modelled.
- `GET /jwt-token` signs a token for the query email; it is left out with the
  JWT signing described above.
- `GET /categories` passes the categories collection through unchanged, and
  is not modelled.
- A posted `available` that is not a boolean is not modelled.
- Request ordering, concurrency and async scheduling are left out. Each request
  is handled atomically in the model. In the source, the two writes of a
  booking are separate steps.
- `Server.Store.RegisterUser`: registration checks for the email and then
  inserts, across two awaits. Two concurrent registrations of one email can
  both insert. So `Valid()`'s unique emails, `Writes.RegisterKeepsOneRecord`
  and `Writes.RepeatedRegistration` hold only when requests run one at a time.
- A throw inside a handler or gate (`NoResponse`) is modelled as no answer to
  that request only. In the source it is an unhandled promise rejection. Under
  Express 4 with Node 15 or later that ends the whole process by default, and
  Express 5 would answer 500. `index.js` pins neither version.
- The store always assigns a fresh `_id`. A client-supplied `_id` and
  duplicate-key errors are not modelled.
- Store operations never fail in the model. In the source, a failing store
  call during a request is an unhandled rejection in that handler (see the
  `NoResponse` line).
- Stored emails, `categoryId`, `ownerEmail`, `sellerEmail` and `account_type`
  are always strings. A document that lacks one of them, and the store's
  matching of an `undefined` filter value against such documents, are not
  modelled. An absent query email matches no stored document.
- Query values sent as arrays or objects (a repeated `?email=`) are not
  modelled.
- A `decoded` payload that is not an object is not modelled.
- Advertisements, wishlists, reports, cascading deletes and duplicate-booking
  suppression do not appear in `index.js`, so they are not modelled.

## Findings

| source | as written | input that shows it | evidently intended | confidence | as-written member | corrected member |
|---|---|---|---|---|---|---|
| index.js:43-44 | reads `seller.account_type` on the `null` that `findOne` returns for an unknown email, which throws a TypeError; the request is never answered, and under Node 15 or later the unhandled rejection ends the process | a valid token for `bob@x.com`, no user `bob@x.com`, `POST /products?email=bob@x.com` | refuse with 403 "Forbidden" like any other non-seller | high (not executed) | `Gates.UnknownSellerThrowsAsWritten` | `Gates.SellerGate` |
