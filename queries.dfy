/**
 The read handlers: the user lookup behind registration and the seller gate,
 the user listing, the seller's own product listing, and the category listing
 that left-joins each product to the users stored under its seller email.
 */
module Queries {
  import opened Wrappers
  import opened Documents
  import opened Sequences

  /** `findOne({email})` on the users collection: the first user stored under `email`. */
  function FindUser(users: seq<User>, email: string): (r: Option<User>)
    ensures r.None? <==> forall u :: u in users ==> u.email != email
    ensures r.Some? ==> exists i :: 0 <= i < |users| && users[i] == r.value
                          && r.value.email == email
                          && forall j :: 0 <= j < i ==> users[j].email != email
  {
    match IndexWhere(users, (u: User) => u.email == email)
    case None => None
    case Some(i) => Some(users[i])
  }

  /** `find({email})` on the users collection, in table order. */
  function UsersWithEmail(users: seq<User>, email: string): (r: seq<User>)
    ensures forall u :: u in r <==> u in users && u.email == email
  {
    Where(users, (u: User) => u.email == email)
  }

  /** While emails are unique, a lookup by email finds exactly one user or none. */
  lemma {:induction false} AtMostOneUserPerEmail(users: seq<User>, email: string)
    requires UniqueEmails(users)
    ensures |UsersWithEmail(users, email)| <= 1
    ensures |UsersWithEmail(users, email)| == 1 <==> exists u :: u in users && u.email == email
  {
    if users != [] {
      var rest := users[1..];
      assert UniqueEmails(rest) by {
        forall i, j | 0 <= i < j < |rest| ensures rest[i].email != rest[j].email {
          assert rest[i] == users[i + 1] && rest[j] == users[j + 1];
        }
      }
      AtMostOneUserPerEmail(rest, email);
      if users[0].email == email {
        forall u | u in rest ensures u.email != email {
          var k :| 0 <= k < |rest| && rest[k] == u;
          assert users[k + 1] == u;
        }
        assert UsersWithEmail(rest, email) == [];
      }
      assert users == [users[0]] + rest;
    }
  }

  /**
   GET /users: all users when no email is given, or an empty one (a falsy query
   value), otherwise exactly the users stored under that email.
   */
  function UserListing(users: seq<User>, email: Option<string>): (r: seq<User>)
    ensures email.None? || email == Some("") ==> r == users
    ensures email.Some? && email.value != "" ==>
              forall u :: u in r <==> u in users && u.email == email.value
  {
    if email.Some? && email.value != "" then UsersWithEmail(users, email.value) else users
  }

  /**
   GET /products: the products whose owner is the query email; an absent query
   email matches no stored product.
   */
  function ProductsOwnedBy(products: seq<Product>, email: Option<string>): (r: seq<Product>)
    ensures forall p :: p in r <==> p in products && Some(p.ownerEmail) == email
  {
    Where(products, (p: Product) => Some(p.ownerEmail) == email)
  }

  /** The `$match` stage of GET /products/:id. */
  function ProductsInCategory(products: seq<Product>, categoryId: string): (r: seq<Product>)
    ensures forall p :: p in r <==> p in products && p.categoryId == categoryId
  {
    Where(products, (p: Product) => p.categoryId == categoryId)
  }

  /** A product together with the `sellerDetails` array the `$lookup` stage attaches. */
  datatype Listing = Listing(product: Product, sellerDetails: seq<User>)

  /** The `$lookup` stage: every product, in order, with the users stored under its seller email. */
  function AttachSellers(products: seq<Product>, users: seq<User>): (r: seq<Listing>)
    ensures |r| == |products|
    ensures forall i :: 0 <= i < |r| ==> r[i].product == products[i]
    ensures forall i :: 0 <= i < |r| ==>
              forall u :: u in r[i].sellerDetails <==> u in users && u.email == products[i].sellerEmail
  {
    if products == [] then []
    else
      [Listing(products[0], UsersWithEmail(users, products[0].sellerEmail))]
      + AttachSellers(products[1..], users)
  }

  /** GET /products/:id: the products of the category, each joined to its seller's user records. */
  function CategoryListing(products: seq<Product>, users: seq<User>, categoryId: string): (r: seq<Listing>)
    ensures forall row :: row in r ==> row.product in products && row.product.categoryId == categoryId
    ensures forall p :: p in products && p.categoryId == categoryId ==>
              exists row :: row in r && row.product == p
    ensures forall row :: row in r ==>
              (row.sellerDetails == [] <==> forall u :: u in users ==> u.email != row.product.sellerEmail)
    ensures forall row :: row in r ==>
              forall u :: u in row.sellerDetails <==> u in users && u.email == row.product.sellerEmail
  {
    var matched := ProductsInCategory(products, categoryId);
    var rows := AttachSellers(matched, users);
    forall row | row in rows
      ensures row.sellerDetails == [] <==> forall u :: u in users ==> u.email != row.product.sellerEmail
      ensures forall u :: u in row.sellerDetails <==> u in users && u.email == row.product.sellerEmail
    {
      var i :| 0 <= i < |rows| && rows[i] == row;
      assert forall u :: u in row.sellerDetails <==> u in users && u.email == row.product.sellerEmail;
      if row.sellerDetails != [] {
        assert row.sellerDetails[0] in row.sellerDetails;
      }
    }
    forall p | p in matched ensures exists row :: row in rows && row.product == p {
      var i :| 0 <= i < |matched| && matched[i] == p;
      assert rows[i] in rows;
    }
    rows
  }

  /** The listing keeps the category's products in table order, one row each. */
  lemma CategoryListingOrder(products: seq<Product>, users: seq<User>, categoryId: string)
    ensures var r := CategoryListing(products, users, categoryId);
            var matched := ProductsInCategory(products, categoryId);
            |r| == |matched| && forall i :: 0 <= i < |r| ==> r[i].product == matched[i]
  {
  }

  /** While emails are unique, every row carries at most one seller record. */
  lemma AtMostOneSellerPerRow(products: seq<Product>, users: seq<User>, categoryId: string)
    requires UniqueEmails(users)
    ensures forall row :: row in CategoryListing(products, users, categoryId) ==> |row.sellerDetails| <= 1
  {
    var r := CategoryListing(products, users, categoryId);
    var matched := ProductsInCategory(products, categoryId);
    forall row | row in r ensures |row.sellerDetails| <= 1 {
      var i :| 0 <= i < |r| && r[i] == row;
      assert AttachSellers(matched, users)[i].sellerDetails
          == UsersWithEmail(users, matched[i].sellerEmail) by {
        AttachSellersRow(matched, users, i);
      }
      AtMostOneUserPerEmail(users, matched[i].sellerEmail);
    }
  }

  /** Row `i` of the join is product `i` with exactly the `find` result for its seller email. */
  lemma {:induction false} AttachSellersRow(products: seq<Product>, users: seq<User>, i: nat)
    requires i < |products|
    ensures AttachSellers(products, users)[i]
         == Listing(products[i], UsersWithEmail(users, products[i].sellerEmail))
  {
    if i > 0 {
      AttachSellersRow(products[1..], users, i - 1);
    }
  }
}
