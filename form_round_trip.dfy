/** What the post/edit form sends back to the `listings` table when it is
    opened on a listing and saved without changes. */
module FormRoundTrip {
  import opened Common
  import opened Types
  import opened Backend
  import opened App
  import PostItemModal

  /** Opening the form on a fetched listing and saving it untouched writes
      nothing: every row the update reaches already holds the listing's
      columns, and keeps them. */
  lemma UnchangedFormSavesNothing(rows: seq<ListingRow>, l: Listing, isAdmin: bool, user: Option<UserId>)
    requires forall i :: 0 <= i < |rows| && InScope(rows[i], l.id, isAdmin, user) ==> rows[i] == RowOf(l)
    ensures UpdateRows(rows, l.id, isAdmin, user, PostItemModal.ResetForm(Some(l))) == rows
  {
    var r := UpdateRows(rows, l.id, isAdmin, user, PostItemModal.ResetForm(Some(l)));
    assert forall i :: 0 <= i < |rows| ==> r[i] == rows[i];
  }
}
