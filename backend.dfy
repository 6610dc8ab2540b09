/** The hosted backend's tables, as far as the client reads and writes them.
    Only their contents are modelled; the service's own behaviour (ordering,
    row-level security, triggers, realtime notification) is not. */
module Backend {
  import opened Common
  import opened Types

  /** A row of the `listings` table. The seller fields are not stored: they
      are joined from `profiles` when listings are read. */
  datatype ListingRow = ListingRow(
    id: string,
    title: string,
    description: string,
    price: string,
    category: string,
    condition: Condition,
    images: seq<string>,
    location: Location,
    createdAt: int,
    expiresAt: int,
    userId: UserId)

  /** The seven columns the post/edit form writes. */
  function DraftOfRow(row: ListingRow): ListingDraft
  {
    ListingDraft(row.title, row.description, row.price, row.category, row.condition, row.images, row.location)
  }

  /** The profile columns the listings query joins; each may be null. */
  datatype Profile = Profile(name: Option<string>, username: Option<string>, avatar: Option<string>)

  /** A row of the `conversations` table. */
  datatype ConversationRow = ConversationRow(id: string, listingId: string, buyerId: UserId, sellerId: UserId)

  /** The tables the client touches. */
  class Database {
    var listings: seq<ListingRow>
    var profiles: map<UserId, Profile>
    var conversations: seq<ConversationRow>

    constructor (listings: seq<ListingRow>, profiles: map<UserId, Profile>, conversations: seq<ConversationRow>)
      ensures this.listings == listings && this.profiles == profiles
      ensures this.conversations == conversations
    {
      this.listings := listings;
      this.profiles := profiles;
      this.conversations := conversations;
    }
  }
}
