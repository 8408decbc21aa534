/**
 How the write handlers change a table, as functions from the old table to the
 new one: registration, product deletion (`deleteOne` by identifier) and the
 booking's `updateOne` that marks a product unavailable.
 */
module Writes {
  import opened Wrappers
  import opened Documents
  import opened Sequences
  import opened Queries

  /**
   POST /users: `user` is appended unless a user is already stored under its
   email. Existing records are never touched.
   */
  function Register(users: seq<User>, user: User): (r: seq<User>)
    ensures users <= r && |r| <= |users| + 1
    ensures exists v :: v in r && v.email == user.email
    ensures user in r || r == users
    ensures (exists v :: v in users && v.email == user.email) ==> r == users
    ensures (forall v :: v in users ==> v.email != user.email) ==> r == users + [user]
  {
    if FindUser(users, user.email).Some? then users else users + [user]
  }

  /** Registering the same email again changes nothing, whatever the rest of the body. */
  lemma RegisterIdempotent(users: seq<User>, first: User, again: User)
    requires first.email == again.email
    ensures Register(Register(users, first), again) == Register(users, first)
  {
  }

  /** Registration keeps emails unique and leaves exactly one user under the registered email. */
  lemma RegisterKeepsOneRecord(users: seq<User>, user: User)
    requires UniqueEmails(users)
    ensures UniqueEmails(Register(users, user))
    ensures |UsersWithEmail(Register(users, user), user.email)| == 1
  {
    var r := Register(users, user);
    if FindUser(users, user.email).None? {
      assert r == users + [user];
      assert r[|users|] == user;
    }
    AtMostOneUserPerEmail(r, user.email);
  }

  /** The users table after a series of registrations, in order. */
  ghost function RegisterAll(users: seq<User>, requests: seq<User>): seq<User>
    decreases |requests|
  {
    if requests == [] then users else RegisterAll(Register(users, requests[0]), requests[1..])
  }

  /** After any number of registrations, each registered email has exactly one record. */
  lemma {:induction false} RepeatedRegistration(users: seq<User>, requests: seq<User>)
    requires UniqueEmails(users)
    ensures UniqueEmails(RegisterAll(users, requests))
    ensures forall v :: v in requests ==> |UsersWithEmail(RegisterAll(users, requests), v.email)| == 1
    decreases |requests|
  {
    if requests != [] {
      var next := Register(users, requests[0]);
      RegisterKeepsOneRecord(users, requests[0]);
      RepeatedRegistration(next, requests[1..]);
      var r := RegisterAll(users, requests);
      RegisterAllKeeps(next, requests[1..]);
      forall v | v in requests ensures |UsersWithEmail(r, v.email)| == 1 {
        if v !in requests[1..] {
          assert v == requests[0];
          var w :| w in next && w.email == v.email;
          assert w in r;
          AtMostOneUserPerEmail(r, v.email);
        }
      }
    }
  }

  /** Registrations never remove or alter a stored user. */
  lemma {:induction false} RegisterAllKeeps(users: seq<User>, requests: seq<User>)
    ensures users <= RegisterAll(users, requests)
    decreases |requests|
  {
    if requests != [] {
      RegisterAllKeeps(Register(users, requests[0]), requests[1..]);
    }
  }

  /** DELETE /products: `deleteOne({_id})` removes the first product with that identifier. */
  function DeleteFirst(products: seq<Product>, id: Id): (r: seq<Product>)
    ensures |r| == |products| <==> forall p :: p in products ==> p.id != id
    ensures |r| == |products| || |r| == |products| - 1
    ensures forall p :: p in r ==> p in products
    ensures forall p :: p in products && p.id != id ==> p in r
    ensures (forall p :: p in products ==> p.id != id) ==> r == products
    ensures forall k :: 0 <= k < |products| && products[k].id == id
                        && (forall j :: 0 <= j < k ==> products[j].id != id) ==>
              r == products[..k] + products[k + 1..]
  {
    match IndexWhere(products, (p: Product) => p.id == id)
    case None => products
    case Some(k) =>
      var r := products[..k] + products[k + 1..];
      assert forall p :: p in products && p.id != id ==> p in r by {
        forall p | p in products && p.id != id ensures p in r {
          var j :| 0 <= j < |products| && products[j] == p;
          if j < k { assert r[j] == p; } else { assert r[j - 1] == p; }
        }
      }
      assert products[k] in products;
      r
  }

  /** While identifiers are unique, deletion leaves no product with that identifier and keeps them unique. */
  lemma DeleteWithUniqueIds(products: seq<Product>, id: Id)
    requires UniqueIds(products)
    ensures forall p :: p in DeleteFirst(products, id) ==> p.id != id
    ensures UniqueIds(DeleteFirst(products, id))
  {
  }

  /**
   The booking's `updateOne({_id}, {$set: {available: false}})`: only the first
   product with that identifier changes, and only its availability.
   */
  function MarkUnavailable(products: seq<Product>, id: Id): (r: seq<Product>)
    ensures |r| == |products|
    ensures forall i :: 0 <= i < |r| ==>
              r[i] == products[i] || (products[i].id == id && r[i] == products[i].(available := Some(false)))
    ensures forall i, j :: 0 <= i < j < |r| && r[i] != products[i] ==> r[j] == products[j]
    ensures (exists p :: p in products && p.id == id) ==>
              exists i :: 0 <= i < |r| && r[i].id == id && r[i].available == Some(false)
    ensures forall i :: 0 <= i < |r| ==>
              r[i] == if products[i].id == id && (forall j :: 0 <= j < i ==> products[j].id != id)
                      then products[i].(available := Some(false)) else products[i]
  {
    match IndexWhere(products, (p: Product) => p.id == id)
    case None => products
    case Some(k) => products[k := products[k].(available := Some(false))]
  }

  /** Marking a product unavailable twice is the same as marking it once. */
  lemma MarkUnavailableIdempotent(products: seq<Product>, id: Id)
    ensures MarkUnavailable(MarkUnavailable(products, id), id) == MarkUnavailable(products, id)
  {
  }

  /** While identifiers are unique, exactly the product with that identifier is marked unavailable. */
  lemma MarkUnavailableWithUniqueIds(products: seq<Product>, id: Id)
    requires UniqueIds(products)
    ensures forall i :: 0 <= i < |products| ==>
              MarkUnavailable(products, id)[i]
              == if products[i].id == id then products[i].(available := Some(false)) else products[i]
  {
  }
}
