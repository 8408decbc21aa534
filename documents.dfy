/**
 The documents of the three collections the server writes (users, products,
 bookings). The store gives every inserted document a fresh identifier; the
 fields the handlers never look at are kept, as posted, in `extra`.
 */
module Documents {
  import opened Wrappers

  /** The store's native document identifier (a MongoDB ObjectId). */
  type Id = nat

  /** The fields of a posted JSON body that no handler inspects. */
  type Fields = map<string, string>

  /** The account type that the seller gate admits. */
  const SellerAccountType: string := "seller"

  datatype User = User(id: Id, email: string, accountType: string, extra: Fields)

  /**
   A product. `ownerEmail` is what the seller's own listing filters on, while
   `sellerEmail` is what the category listing joins users on: two separate fields.
   `available` holds what the posted body carried, or is absent; a booking
   sets it to false.
   */
  datatype Product = Product(
    id: Id,
    categoryId: string,
    ownerEmail: string,
    sellerEmail: string,
    available: Option<bool>,
    extra: Fields)

  /** A booking; `productId` is the product's identifier as a string, or absent. */
  datatype Booking = Booking(id: Id, productId: Option<string>, extra: Fields)

  /** No two users share an email (what registration maintains). */
  ghost predicate UniqueEmails(users: seq<User>) {
    forall i, j :: 0 <= i < j < |users| ==> users[i].email != users[j].email
  }

  /** No two products share an identifier (what the store's id allocation maintains). */
  ghost predicate UniqueIds(products: seq<Product>) {
    forall i, j :: 0 <= i < j < |products| ==> products[i].id != products[j].id
  }
}
