/** The `Listing` record the client works with (the seller fields are joined
    from the profile of the listing's owner when the listings are fetched). */
module Types {

  /** The identifier of a signed-in user (`user.id`, `listing.user_id`). */
  type UserId = string

  /** The five conditions a listing may be in. */
  datatype Condition = New | LikeNew | Good | Fair | Poor

  /** A point on the map in degrees. */
  datatype Location = Location(lat: real, lng: real)

  /** The seller snapshot attached to a listing when it is fetched. */
  datatype Seller = Seller(id: UserId, name: string, username: string, avatar: string)

  /** A listing as held by the client. Timestamps are milliseconds since the
      epoch. */
  datatype Listing = Listing(
    id: string,
    title: string,
    description: string,
    price: string,
    category: string,
    condition: Condition,
    images: seq<string>,
    location: Location,
    seller: Seller,
    createdAt: int,
    expiresAt: int,
    userId: UserId)

  /** The seven fields the post/edit form edits and submits: a listing
      without `id`, `seller`, `created_at`, `expires_at` and `user_id`. */
  datatype ListingDraft = ListingDraft(
    title: string,
    description: string,
    price: string,
    category: string,
    condition: Condition,
    images: seq<string>,
    location: Location)

  /** The form fields of a listing. */
  function DraftOf(l: Listing): ListingDraft
  {
    ListingDraft(l.title, l.description, l.price, l.category, l.condition, l.images, l.location)
  }
}
