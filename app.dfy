/** The top-level view: the fetched listing collection and its seller
    fallbacks, the search filter, who may edit or delete a listing, and the
    create/update/delete handlers over the `listings` table. */
module App {
  import opened Common
  import opened Text
  import opened Types
  import opened Backend
  import PostItemModal

  const DefaultName := "Unknown User"
  const DefaultUsername := "unknown"
  const DefaultAvatar := "https://images.unsplash.com/photo-1535713875002-d1d0cf377fde?auto=format&fit=crop&q=80&w=100"

  // ---------------------------------------------------------------------
  // Fetching and normalising listings
  // ---------------------------------------------------------------------

  /** JavaScript truthiness of a nullable string column: present and not
      empty. */
  predicate Present(v: Option<string>)
  {
    v.Some? && v.value != ""
  }

  /** `v || fallback` on a nullable string column. */
  function OrElse(v: Option<string>, fallback: string): string
  {
    if Present(v) then v.value else fallback
  }

  /** One element of the listings query's result: the row together with the
      profile joined on its `user_id` (`None` when the owner has none). */
  datatype FetchedRow = FetchedRow(row: ListingRow, profile: Option<Profile>)

  /** The listings query: every row with the profile of its owner. The
      server-side ordering by `created_at` is not modelled, so rows come back
      in table order. */
  function SelectListings(rows: seq<ListingRow>, profiles: map<UserId, Profile>): (r: seq<FetchedRow>)
    ensures |r| == |rows|
    ensures forall i :: 0 <= i < |r| ==> r[i].row == rows[i]
    ensures forall i :: 0 <= i < |r| ==>
              r[i].profile == if rows[i].userId in profiles then Some(profiles[rows[i].userId]) else None
  {
    seq(|rows|, i requires 0 <= i < |rows| =>
      FetchedRow(rows[i], if rows[i].userId in profiles then Some(profiles[rows[i].userId]) else None))
  }

  /** `listing.profiles?.name` and its two siblings. */
  function NameOf(p: Option<Profile>): Option<string> { if p.Some? then p.value.name else None }
  function UsernameOf(p: Option<Profile>): Option<string> { if p.Some? then p.value.username else None }
  function AvatarOf(p: Option<Profile>): Option<string> { if p.Some? then p.value.avatar else None }

  /** The columns of a client-side listing, without the joined seller. */
  function RowOf(l: Listing): ListingRow
  {
    ListingRow(l.id, l.title, l.description, l.price, l.category, l.condition, l.images,
               l.location, l.createdAt, l.expiresAt, l.userId)
  }

  /** The per-row transform of `fetchListings`: every column is kept, and the
      seller snapshot takes its id from `user_id` and its name, username and
      avatar from the joined profile, each falling back to a default when
      missing or empty. */
  function Normalise(f: FetchedRow): (l: Listing)
    ensures RowOf(l) == f.row
    ensures l.seller.id == f.row.userId
    ensures Present(NameOf(f.profile)) ==> l.seller.name == NameOf(f.profile).value
    ensures !Present(NameOf(f.profile)) ==> l.seller.name == DefaultName
    ensures Present(UsernameOf(f.profile)) ==> l.seller.username == UsernameOf(f.profile).value
    ensures !Present(UsernameOf(f.profile)) ==> l.seller.username == DefaultUsername
    ensures Present(AvatarOf(f.profile)) ==> l.seller.avatar == AvatarOf(f.profile).value
    ensures !Present(AvatarOf(f.profile)) ==> l.seller.avatar == DefaultAvatar
  {
    var r := f.row;
    Listing(r.id, r.title, r.description, r.price, r.category, r.condition, r.images, r.location,
            Seller(r.userId,
                   OrElse(NameOf(f.profile), DefaultName),
                   OrElse(UsernameOf(f.profile), DefaultUsername),
                   OrElse(AvatarOf(f.profile), DefaultAvatar)),
            r.createdAt, r.expiresAt, r.userId)
  }

  /** `data.map(...)`: one normalised listing per fetched row, in order. */
  function Transform(data: seq<FetchedRow>): (r: seq<Listing>)
    ensures |r| == |data|
    ensures forall i :: 0 <= i < |r| ==> r[i] == Normalise(data[i])
  {
    if data == [] then [] else [Normalise(data[0])] + Transform(data[1..])
  }

  /** What a successful fetch installs: one listing per table row, in table
      order, carrying that row's columns and owned by its `user_id`. */
  lemma FetchMirrorsTable(rows: seq<ListingRow>, profiles: map<UserId, Profile>)
    ensures var ls := Transform(SelectListings(rows, profiles));
            |ls| == |rows| &&
            forall i :: 0 <= i < |ls| ==> RowOf(ls[i]) == rows[i] && ls[i].seller.id == rows[i].userId
    ensures var ls := Transform(SelectListings(rows, profiles));
            forall i :: 0 <= i < |ls| && rows[i].userId !in profiles ==>
              ls[i].seller == Seller(rows[i].userId, DefaultName, DefaultUsername, DefaultAvatar)
    ensures var ls := Transform(SelectListings(rows, profiles));
            forall i :: 0 <= i < |ls| && rows[i].userId in profiles && Present(profiles[rows[i].userId].name) ==>
              ls[i].seller.name == profiles[rows[i].userId].name.value
  {
  }

  // ---------------------------------------------------------------------
  // Search
  // ---------------------------------------------------------------------

  /** The search test: the lower-cased title, description or category
      contains the lower-cased query. */
  predicate SearchMatches(l: Listing, query: string)
  {
    ContainsIgnoringCase(l.title, query) ||
    ContainsIgnoringCase(l.description, query) ||
    ContainsIgnoringCase(l.category, query)
  }

  function MatchesQuery(query: string): Listing -> bool
  {
    l => SearchMatches(l, query)
  }

  /** `filteredListings`: the order-preserving sub-list of the listings
      that match the query. */
  function Search(listings: seq<Listing>, query: string): (r: seq<Listing>)
    ensures IsSubsequence(r, listings)
    ensures forall l :: l in r <==> l in listings && SearchMatches(l, query)
  {
    FilterSelects(listings, MatchesQuery(query));
    Filter(listings, MatchesQuery(query))
  }

  /** An empty query keeps every listing. */
  lemma EmptySearchKeepsAll(listings: seq<Listing>)
    ensures Search(listings, "") == listings
  {
    forall i | 0 <= i < |listings| ensures MatchesQuery("")(listings[i]) {
      assert StartsWith(Lower(listings[i].title), Lower(""));
    }
    FilterKeepsAll(listings, MatchesQuery(""));
  }

  /** The case of the query does not matter. */
  lemma SearchIgnoresQueryCase(listings: seq<Listing>, query: string)
    ensures Search(listings, Lower(query)) == Search(listings, query)
  {
    LowerIdempotent(query);
    FilterAgreeing(listings, MatchesQuery(Lower(query)), MatchesQuery(query));
  }

  // ---------------------------------------------------------------------
  // Who may edit or delete
  // ---------------------------------------------------------------------

  /** The condition under which the listing modal receives `onEdit` and
      `onDelete`: admin mode, or a signed-in user who owns the selected
      listing. */
  predicate CanModify(isAdmin: bool, user: Option<UserId>, selected: Option<Listing>)
  {
    isAdmin || (user.Some? && selected.Some? && selected.value.userId == user.value)
  }

  /** Edit and delete are offered exactly when the update or delete query
      they trigger reaches the listing's row: a button is never shown that
      would silently change nothing, and the row is never reachable without
      it. */
  lemma CanModifyExactly(isAdmin: bool, user: Option<UserId>, l: Listing, rows: seq<ListingRow>, d: ListingDraft)
    ensures CanModify(isAdmin, user, Some(l)) <==> InScope(RowOf(l), l.id, isAdmin, user)
    ensures CanModify(isAdmin, user, Some(l)) <==> isAdmin || user == Some(l.userId)
    ensures CanModify(isAdmin, user, Some(l)) ==> RowOf(l) !in DeleteRows(rows, l.id, isAdmin, user)
    ensures !CanModify(isAdmin, user, Some(l)) && RowOf(l) in rows ==>
              RowOf(l) in DeleteRows(rows, l.id, isAdmin, user) &&
              RowOf(l) in UpdateRows(rows, l.id, isAdmin, user, d)
  {
    if !CanModify(isAdmin, user, Some(l)) && RowOf(l) in rows {
      var i :| 0 <= i < |rows| && rows[i] == RowOf(l);
      assert UpdateRows(rows, l.id, isAdmin, user, d)[i] == RowOf(l);
    }
  }

  // ---------------------------------------------------------------------
  // The effect of the handlers on the listings table
  // ---------------------------------------------------------------------

  /** The row `handleNewListing` inserts: the form fields with `user_id`
      set to the signed-in user; the id and timestamps are the backend's. */
  function NewRow(d: ListingDraft, id: string, owner: UserId, createdAt: int, expiresAt: int): (row: ListingRow)
    ensures row.userId == owner
  {
    ListingRow(id, d.title, d.description, d.price, d.category, d.condition, d.images,
               d.location, createdAt, expiresAt, owner)
  }

  /** Whether an update or delete query for `id` reaches `row`: the id filter,
      and unless in admin mode the owner filter, which with nobody signed in
      compares against `undefined` and matches no row. */
  predicate InScope(row: ListingRow, id: string, isAdmin: bool, user: Option<UserId>)
  {
    row.id == id && (isAdmin || (user.Some? && row.userId == user.value))
  }

  /** An update of `row` with the form fields: the seven edited columns are
      replaced, the identity, ownership and timestamps are kept. */
  function ApplyDraft(row: ListingRow, d: ListingDraft): (r: ListingRow)
    ensures DraftOfRow(r) == d
    ensures r.id == row.id && r.userId == row.userId
    ensures r.createdAt == row.createdAt && r.expiresAt == row.expiresAt
  {
    row.(title := d.title, description := d.description, price := d.price,
         category := d.category, condition := d.condition, images := d.images,
         location := d.location)
  }

  /** The table after `update(...).eq('id', id)` with the owner filter
      unless in admin mode. */
  function UpdateRows(rows: seq<ListingRow>, id: string, isAdmin: bool, user: Option<UserId>, d: ListingDraft): (r: seq<ListingRow>)
    ensures |r| == |rows|
    ensures forall i :: 0 <= i < |r| ==>
              r[i] == if InScope(rows[i], id, isAdmin, user) then ApplyDraft(rows[i], d) else rows[i]
  {
    if rows == [] then []
    else [if InScope(rows[0], id, isAdmin, user) then ApplyDraft(rows[0], d) else rows[0]]
         + UpdateRows(rows[1..], id, isAdmin, user, d)
  }

  function Survives(id: string, isAdmin: bool, user: Option<UserId>): ListingRow -> bool
  {
    row => !InScope(row, id, isAdmin, user)
  }

  /** The table after `delete().eq('id', id)` with the owner filter unless in
      admin mode: exactly the rows in scope are removed, and the others keep
      their order. */
  function DeleteRows(rows: seq<ListingRow>, id: string, isAdmin: bool, user: Option<UserId>): (r: seq<ListingRow>)
    ensures IsSubsequence(r, rows)
    ensures forall row :: row in r <==> row in rows && !InScope(row, id, isAdmin, user)
  {
    FilterSelects(rows, Survives(id, isAdmin, user));
    Filter(rows, Survives(id, isAdmin, user))
  }

  /** Outside admin mode, a user who owns no row with the given id (or
      nobody signed in) changes nothing by updating or deleting it. */
  lemma NonOwnerChangesNothing(rows: seq<ListingRow>, id: string, user: Option<UserId>, d: ListingDraft)
    requires forall i :: 0 <= i < |rows| && rows[i].id == id ==> !(user.Some? && rows[i].userId == user.value)
    ensures UpdateRows(rows, id, false, user, d) == rows
    ensures DeleteRows(rows, id, false, user) == rows
  {
    FilterKeepsAll(rows, Survives(id, false, user));
  }

  /** The owner, and in admin mode anyone, removes every row with the id
      that the query reaches; in admin mode that is every row with the id. */
  lemma OwnerOrAdminDeletes(rows: seq<ListingRow>, id: string, isAdmin: bool, user: Option<UserId>)
    ensures isAdmin ==> forall row :: row in DeleteRows(rows, id, isAdmin, user) ==> row.id != id
    ensures user.Some? ==> forall row :: row in DeleteRows(rows, id, isAdmin, user) ==>
              !(row.id == id && row.userId == user.value)
  {
  }

  /** A posted listing reads back with the submitted form fields, owned by
      the user who posted it. */
  lemma PostedListingReadsBack(d: ListingDraft, id: string, owner: UserId, createdAt: int, expiresAt: int, p: Option<Profile>)
    ensures var l := Normalise(FetchedRow(NewRow(d, id, owner, createdAt, expiresAt), p));
            DraftOf(l) == d && l.userId == owner && l.seller.id == owner
  {
  }

  /** Saving the edit form unchanged leaves the row as it was. */
  lemma UnchangedEditIsNoOp(f: FetchedRow)
    ensures ApplyDraft(f.row, DraftOf(Normalise(f))) == f.row
  {
  }

  /** Every row has the title, description and price the form requires. */
  predicate AllFilledIn(rows: seq<ListingRow>)
  {
    forall row :: row in rows ==> PostItemModal.FilledIn(DraftOfRow(row))
  }

  /** The rows a validated form writes have a title, a description and a
      price, and so a table whose rows all have them keeps that property
      through every create, update and delete the client issues. */
  lemma WritesKeepFilledIn(rows: seq<ListingRow>, editId: string, isAdmin: bool, user: Option<UserId>,
                           d: ListingDraft, newId: string, createdAt: int, expiresAt: int)
    requires PostItemModal.FilledIn(d)
    ensures user.Some? ==> PostItemModal.FilledIn(DraftOfRow(NewRow(d, newId, user.value, createdAt, expiresAt)))
    ensures forall i :: 0 <= i < |rows| && InScope(rows[i], editId, isAdmin, user) ==>
              PostItemModal.FilledIn(DraftOfRow(UpdateRows(rows, editId, isAdmin, user, d)[i]))
    ensures AllFilledIn(rows) ==> AllFilledIn(UpdateRows(rows, editId, isAdmin, user, d))
    ensures AllFilledIn(rows) && user.Some? ==>
              AllFilledIn(rows + [NewRow(d, newId, user.value, createdAt, expiresAt)])
    ensures AllFilledIn(rows) ==> AllFilledIn(DeleteRows(rows, editId, isAdmin, user))
  {
    var r := UpdateRows(rows, editId, isAdmin, user, d);
    if AllFilledIn(rows) {
      forall row | row in r ensures PostItemModal.FilledIn(DraftOfRow(row)) {
        var i :| 0 <= i < |r| && r[i] == row;
        assert rows[i] in rows;
      }
    }
  }

  // ---------------------------------------------------------------------
  // The view state and its handlers
  // ---------------------------------------------------------------------

  class Marketplace {
    var listings: seq<Listing>
    var selectedListing: Option<Listing>
    var editingListing: Option<Listing>
    var isPostModalOpen: bool
    var searchQuery: string

    constructor ()
      ensures listings == [] && selectedListing == None && editingListing == None
      ensures !isPostModalOpen && searchQuery == ""
    {
      listings := [];
      selectedListing := None;
      editingListing := None;
      isPostModalOpen := false;
      searchQuery := "";
    }

    /** `fetchListings`: on error the collection is left as it was. */
    method FetchListings(db: Database, call: Call)
      modifies this`listings
      ensures call == Fails ==> listings == old(listings)
      ensures call == Succeeds ==> listings == Transform(SelectListings(db.listings, db.profiles))
    {
      if call == Fails {
        return;
      }
      listings := Transform(SelectListings(db.listings, db.profiles));
    }

    /** `handleNewListing`: nothing happens while signed out; an insert
        error stops before the refetch and leaves the modal open. */
    method HandleNewListing(db: Database, user: Option<UserId>, draft: ListingDraft,
                            id: string, createdAt: int, expiresAt: int, insert: Call, refetch: Call)
      modifies this, db`listings
      ensures user.None? || insert == Fails ==> unchanged(this) && unchanged(db)
      ensures selectedListing == old(selectedListing) && editingListing == old(editingListing)
      ensures searchQuery == old(searchQuery)
      ensures user.Some? && insert == Succeeds ==>
                db.listings == old(db.listings) + [NewRow(draft, id, user.value, createdAt, expiresAt)] &&
                !isPostModalOpen &&
                listings == (if refetch == Succeeds then Transform(SelectListings(db.listings, db.profiles))
                             else old(listings))
    {
      if user.None? {
        return;
      }
      if insert == Fails {
        return;
      }
      db.listings := db.listings + [NewRow(draft, id, user.value, createdAt, expiresAt)];
      FetchListings(db, refetch);
      isPostModalOpen := false;
    }

    /** `handleEditListing`: updates the listing being edited, scoped to the
        owner unless in admin mode; on error the form stays open. */
    method HandleEditListing(db: Database, isAdmin: bool, user: Option<UserId>, draft: ListingDraft,
                             update: Call, refetch: Call)
      modifies this, db`listings
      ensures old(editingListing).None? || update == Fails ==> unchanged(this) && unchanged(db)
      ensures selectedListing == old(selectedListing) && searchQuery == old(searchQuery)
      ensures old(editingListing).Some? && update == Succeeds ==>
                db.listings == UpdateRows(old(db.listings), old(editingListing).value.id, isAdmin, user, draft) &&
                !isPostModalOpen && editingListing == None &&
                listings == (if refetch == Succeeds then Transform(SelectListings(db.listings, db.profiles))
                             else old(listings))
    {
      if editingListing.None? {
        return;
      }
      if update == Fails {
        return;
      }
      db.listings := UpdateRows(db.listings, editingListing.value.id, isAdmin, user, draft);
      FetchListings(db, refetch);
      isPostModalOpen := false;
      editingListing := None;
    }

    /** `handleDeleteListing`: removes the rows in scope, closes the detail
        view and refetches; on error nothing changes. */
    method HandleDeleteListing(db: Database, isAdmin: bool, user: Option<UserId>, id: string,
                               delete: Call, refetch: Call)
      modifies this, db`listings
      ensures delete == Fails ==> unchanged(this) && unchanged(db)
      ensures editingListing == old(editingListing) && isPostModalOpen == old(isPostModalOpen)
      ensures searchQuery == old(searchQuery)
      ensures delete == Succeeds ==>
                db.listings == DeleteRows(old(db.listings), id, isAdmin, user) &&
                selectedListing == None &&
                listings == (if refetch == Succeeds then Transform(SelectListings(db.listings, db.profiles))
                             else old(listings))
    {
      if delete == Fails {
        return;
      }
      db.listings := DeleteRows(db.listings, id, isAdmin, user);
      selectedListing := None;
      FetchListings(db, refetch);
    }

    /** `handleEditClick`: opens the form on the listing and closes the
        detail view. */
    method HandleEditClick(l: Listing)
      modifies this`editingListing, this`selectedListing, this`isPostModalOpen
      ensures editingListing == Some(l) && selectedListing == None && isPostModalOpen
    {
      editingListing := Some(l);
      selectedListing := None;
      isPostModalOpen := true;
    }

    /** The "Post Item" button: clears the listing being edited and opens
        the form; the form's fields are reset only when that changes the
        form's `editListing` prop. */
    method OpenPostForm()
      modifies this`editingListing, this`isPostModalOpen
      ensures editingListing == None && isPostModalOpen
    {
      editingListing := None;
      isPostModalOpen := true;
    }

    /** The form's `onClose`. */
    method ClosePostForm()
      modifies this`editingListing, this`isPostModalOpen
      ensures editingListing == None && !isPostModalOpen
    {
      isPostModalOpen := false;
      editingListing := None;
    }

    /** The form's `onSubmit`: an update while a listing is being edited,
        otherwise a create. The form's validation lets only a draft with a
        title, a description and a price through, so a table whose rows all
        have them keeps that property. */
    method SubmitPostForm(db: Database, isAdmin: bool, user: Option<UserId>, draft: ListingDraft,
                          id: string, createdAt: int, expiresAt: int, write: Call, refetch: Call)
      requires PostItemModal.FilledIn(draft)
      modifies this, db`listings
      ensures AllFilledIn(old(db.listings)) ==> AllFilledIn(db.listings)
      ensures db.listings ==
                if write == Fails then old(db.listings)
                else if old(editingListing).Some? then
                  UpdateRows(old(db.listings), old(editingListing).value.id, isAdmin, user, draft)
                else if user.Some? then
                  old(db.listings) + [NewRow(draft, id, user.value, createdAt, expiresAt)]
                else old(db.listings)
      ensures isPostModalOpen ==
                (old(isPostModalOpen) && !(write == Succeeds && (old(editingListing).Some? || user.Some?)))
      ensures editingListing == (if write == Succeeds then None else old(editingListing))
      ensures listings ==
                if write == Succeeds && (old(editingListing).Some? || user.Some?) && refetch == Succeeds
                then Transform(SelectListings(db.listings, db.profiles))
                else old(listings)
      ensures selectedListing == old(selectedListing) && searchQuery == old(searchQuery)
    {
      WritesKeepFilledIn(db.listings, if editingListing.Some? then editingListing.value.id else id,
                         isAdmin, user, draft, id, createdAt, expiresAt);
      if editingListing.Some? {
        HandleEditListing(db, isAdmin, user, draft, write, refetch);
      } else {
        HandleNewListing(db, user, draft, id, createdAt, expiresAt, write, refetch);
      }
    }

    /** A click on a card or a marker. */
    method SelectListing(l: Listing)
      modifies this`selectedListing
      ensures selectedListing == Some(l)
    {
      selectedListing := Some(l);
    }

    /** The detail view's `onClose`. */
    method CloseListing()
      modifies this`selectedListing
      ensures selectedListing == None
    {
      selectedListing := None;
    }

    /** Typing in the search box. */
    method SetSearchQuery(q: string)
      modifies this`searchQuery
      ensures searchQuery == q
    {
      searchQuery := q;
    }
  }
}
