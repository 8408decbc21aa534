/**
 The server over an in-memory store: the three collections it writes, the
 route table with each route's gates, the handlers, and the dispatcher that
 runs a request's gates before its handler.
 */
module Server {
  import opened Wrappers
  import opened Documents
  import opened Queries
  import opened Header
  import opened Gates
  import opened Writes

  /** A request, by route, with the body and path fields its handler reads. */
  datatype Call =
    | PostUsers(email: string, accountType: string, extra: Fields)
    | GetUsers
    | PostProducts(categoryId: string, ownerEmail: string, sellerEmail: string,
                   available: Option<bool>, extra: Fields)
    | GetProducts
    | GetCategory(categoryId: string)
    | DeleteProducts(productId: Option<string>)
    | PostBookings(productId: Option<string>, extra: Fields)

  datatype Request = Request(call: Call, caller: Caller)

  datatype Response =
    | Rejected(status: nat, message: string)
    | Users(users: seq<User>)
    | Products(products: seq<Product>)
    | Listings(rows: seq<Listing>)
    | Inserted(insertedId: Id)
    | Deleted(deletedCount: nat)
    | NoResponse  // the handler threw, or returned without answering

  /** The gates each route is registered with, in order. */
  function RouteGates(call: Call): seq<Gate>
  {
    match call
    case PostProducts(_, _, _, _, _) => [Authenticated, SellerAccount]
    case GetProducts => [Authenticated, SellerAccount]
    case DeleteProducts(_) => [Authenticated, SellerAccount]
    case PostBookings(_, _) => [Authenticated]
    case _ => []
  }

  /**
   The chain a request goes through, against the users table as it stands. A
   401 always comes from the first gate; a 403 only after the token passed.
   */
  function Admission(req: Request, users: seq<User>, verify: string -> Option<Claims>): (r: ChainResult)
    ensures r.decision == Unauthorized ==> r.ran == [Authenticated]
    ensures r.decision == Forbidden ==>
              r.ran == [Authenticated, SellerAccount] && TokenGate(req.caller, verify) == Pass
  {
    AuthenticateBeforeRole(req.caller, users, verify);
    RunChain(RouteGates(req.call), req.caller, users, verify)
  }

  /** POST /bookings runs the token gate only: no role is ever looked up. */
  lemma BookingRouteTokenOnly(req: Request, users: seq<User>, verify: string -> Option<Claims>)
    requires req.call.PostBookings?
    ensures Admission(req, users, verify) == ChainResult(TokenGate(req.caller, verify), [Authenticated])
  {
  }

  /** POST /users, GET /users and GET /products/:id run no gate and admit every request. */
  lemma OpenRoutesAdmitAll(req: Request, users: seq<User>, verify: string -> Option<Claims>)
    requires req.call.PostUsers? || req.call.GetUsers? || req.call.GetCategory?
    ensures Admission(req, users, verify) == ChainResult(Pass, [])
  {
  }

  /**
   A product route admits a request only when both gates pass; a token failure
   answers 401 without looking up a role.
   */
  lemma ProductRoutesGateOrder(req: Request, users: seq<User>, verify: string -> Option<Claims>)
    requires req.call.PostProducts? || req.call.GetProducts? || req.call.DeleteProducts?
    ensures Admission(req, users, verify).decision == Pass
        <==> TokenGate(req.caller, verify) == Pass && SellerGate(users, req.caller.email) == Pass
    ensures TokenGate(req.caller, verify) != Pass ==>
              Admission(req, users, verify) == ChainResult(Unauthorized, [Authenticated])
  {
    AuthenticateBeforeRole(req.caller, users, verify);
  }

  /**
   Scope isolation: whoever holds a token issued for `holder`, the product
   listing it admits contains only `holder`'s products.
   */
  lemma OwnProductsOnly(req: Request, users: seq<User>, products: seq<Product>,
                        verify: string -> Option<Claims>, token: string, holder: string)
    requires req.call.GetProducts?
    requires Admission(req, users, verify).decision == Pass
    requires BearerToken(req.caller.authorization) == Some(token)
    requires verify(token) == Some(Claims(Some(holder)))
    ensures forall p :: p in ProductsOwnedBy(products, req.caller.email) ==> p.ownerEmail == holder
  {
  }

  class Store {
    var users: seq<User>
    var products: seq<Product>
    var bookings: seq<Booking>
    var nextId: Id

    /** Every stored identifier came from the counter; emails and product identifiers are unique. */
    ghost predicate Valid()
      reads this
    {
      && (forall u :: u in users ==> u.id < nextId)
      && (forall p :: p in products ==> p.id < nextId)
      && (forall b :: b in bookings ==> b.id < nextId)
      && UniqueEmails(users)
      && UniqueIds(products)
    }

    constructor ()
      ensures Valid()
      ensures users == [] && products == [] && bookings == [] && nextId == 0
    {
      users, products, bookings, nextId := [], [], [], 0;
    }

    /** POST /users: insert unless the email is taken; a taken email is never answered. */
    method RegisterUser(email: string, accountType: string, extra: Fields) returns (resp: Response)
      requires Valid()
      modifies this
      ensures Valid()
      ensures users == Register(old(users), User(old(nextId), email, accountType, extra))
      ensures resp == if FindUser(old(users), email).Some? then NoResponse else Inserted(old(nextId))
      ensures nextId == if FindUser(old(users), email).Some? then old(nextId) else old(nextId) + 1
      ensures products == old(products) && bookings == old(bookings)
    {
      if FindUser(users, email).Some? {
        resp := NoResponse;
      } else {
        var user := User(nextId, email, accountType, extra);
        users := users + [user];
        nextId := nextId + 1;
        resp := Inserted(user.id);
      }
    }

    /** POST /products: append the posted product under a fresh identifier. */
    method InsertProduct(categoryId: string, ownerEmail: string, sellerEmail: string,
                         available: Option<bool>, extra: Fields) returns (resp: Response)
      requires Valid()
      modifies this
      ensures Valid()
      ensures products == old(products)
                          + [Product(old(nextId), categoryId, ownerEmail, sellerEmail, available, extra)]
      ensures resp == Inserted(old(nextId)) && nextId == old(nextId) + 1
      ensures users == old(users) && bookings == old(bookings)
    {
      var product := Product(nextId, categoryId, ownerEmail, sellerEmail, available, extra);
      products := products + [product];
      nextId := nextId + 1;
      resp := Inserted(product.id);
    }

    /**
     DELETE /products: remove the product with the given identifier. An absent
     identifier becomes a fresh ObjectId that matches nothing; one that does not
     convert throws and the request is not answered. Bookings are left alone.
     */
    method DeleteProduct(productId: Option<string>, toId: string -> Option<Id>) returns (resp: Response)
      requires Valid()
      modifies this
      ensures Valid()
      ensures match productId
              case None => products == old(products) && resp == Deleted(0)
              case Some(s) =>
                match toId(s)
                case None => products == old(products) && resp == NoResponse
                case Some(id) => products == DeleteFirst(old(products), id)
                                 && resp == Deleted(|old(products)| - |products|)
      ensures users == old(users) && bookings == old(bookings) && nextId == old(nextId)
    {
      resp := Deleted(0);
      if productId.Some? {
        var converted := toId(productId.value);
        if converted.None? {
          resp := NoResponse;
        } else {
          var before := |products|;
          DeleteWithUniqueIds(products, converted.value);
          products := DeleteFirst(products, converted.value);
          resp := Deleted(before - |products|);
        }
      }
    }

    /**
     POST /bookings: insert the booking, then mark its product unavailable. The
     insert happens first, so a product identifier that does not convert leaves
     the booking stored and the request unanswered.
     */
    method CreateBooking(productId: Option<string>, extra: Fields, toId: string -> Option<Id>)
      returns (resp: Response)
      requires Valid()
      modifies this
      ensures Valid()
      ensures bookings == old(bookings) + [Booking(old(nextId), productId, extra)]
      ensures nextId == old(nextId) + 1
      ensures match productId
              case None => products == old(products) && resp == Inserted(old(nextId))
              case Some(s) =>
                match toId(s)
                case None => products == old(products) && resp == NoResponse
                case Some(id) => products == MarkUnavailable(old(products), id)
                                 && resp == Inserted(old(nextId))
      ensures users == old(users)
    {
      var booking := Booking(nextId, productId, extra);
      bookings := bookings + [booking];
      nextId := nextId + 1;
      resp := Inserted(booking.id);
      if productId.Some? {
        var converted := toId(productId.value);
        if converted.None? {
          resp := NoResponse;
        } else {
          products := MarkUnavailable(products, converted.value);
        }
      }
    }

    /**
     Serve one request: run the route's gates; a refusal answers with its status
     and message and changes nothing, otherwise the route's handler runs.
     */
    method Handle(req: Request, verify: string -> Option<Claims>, toId: string -> Option<Id>)
      returns (resp: Response)
      requires Valid()
      modifies this
      ensures Valid()
      ensures var d := Admission(req, old(users), verify).decision;
              d != Pass ==> resp == Rejected(d.Status(), d.Message()) && unchanged(this)
      ensures Admission(req, old(users), verify).decision == Pass ==>
                match req.call
                case PostUsers(email, accountType, extra) =>
                  users == Register(old(users), User(old(nextId), email, accountType, extra))
                  && resp == (if FindUser(old(users), email).Some? then NoResponse else Inserted(old(nextId)))
                  && nextId == (if FindUser(old(users), email).Some? then old(nextId) else old(nextId) + 1)
                  && products == old(products) && bookings == old(bookings)
                case GetUsers =>
                  resp == Users(UserListing(old(users), req.caller.email)) && unchanged(this)
                case PostProducts(categoryId, ownerEmail, sellerEmail, available, extra) =>
                  products == old(products)
                              + [Product(old(nextId), categoryId, ownerEmail, sellerEmail, available, extra)]
                  && resp == Inserted(old(nextId)) && nextId == old(nextId) + 1
                  && users == old(users) && bookings == old(bookings)
                case GetProducts =>
                  resp == Products(ProductsOwnedBy(old(products), req.caller.email)) && unchanged(this)
                case GetCategory(categoryId) =>
                  resp == Listings(CategoryListing(old(products), old(users), categoryId)) && unchanged(this)
                case DeleteProducts(productId) =>
                  users == old(users) && bookings == old(bookings) && nextId == old(nextId)
                  && (match productId
                      case None => products == old(products) && resp == Deleted(0)
                      case Some(s) =>
                        match toId(s)
                        case None => products == old(products) && resp == NoResponse
                        case Some(id) => products == DeleteFirst(old(products), id)
                                         && resp == Deleted(|old(products)| - |products|))
                case PostBookings(productId, extra) =>
                  bookings == old(bookings) + [Booking(old(nextId), productId, extra)] && users == old(users)
                  && nextId == old(nextId) + 1
                  && (match productId
                      case None => products == old(products) && resp == Inserted(old(nextId))
                      case Some(s) =>
                        match toId(s)
                        case None => products == old(products) && resp == NoResponse
                        case Some(id) => products == MarkUnavailable(old(products), id)
                                         && resp == Inserted(old(nextId)))
    {
      var chain := Admission(req, users, verify);
      if chain.decision != Pass {
        resp := Rejected(chain.decision.Status(), chain.decision.Message());
        return;
      }
      match req.call {
        case PostUsers(email, accountType, extra) =>
          resp := RegisterUser(email, accountType, extra);
        case GetUsers =>
          resp := Users(UserListing(users, req.caller.email));
        case PostProducts(categoryId, ownerEmail, sellerEmail, available, extra) =>
          resp := InsertProduct(categoryId, ownerEmail, sellerEmail, available, extra);
        case GetProducts =>
          resp := Products(ProductsOwnedBy(products, req.caller.email));
        case GetCategory(categoryId) =>
          resp := Listings(CategoryListing(products, users, categoryId));
        case DeleteProducts(productId) =>
          resp := DeleteProduct(productId, toId);
        case PostBookings(productId, extra) =>
          resp := CreateBooking(productId, extra, toId);
      }
    }
  }
}
