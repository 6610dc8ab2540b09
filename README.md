# Campus marketplace client: a verified model of its rules

The marketplace client lets students browse geolocated listings on a map and
in a searchable sidebar, post, edit and delete their own listings (or anyone's
in admin mode), and message a seller in a conversation kept per listing,
buyer and seller. Storage, authentication, file storage and change
notification belong to a hosted backend. This project models the client's own
rules in Dafny and proves what they promise:

- `Common`, `Text`, `Types`, `Backend`: optional values, the outcome of a
  backend request (`Call`), an order-preserving `Filter` with its lemmas, the
  string operations the client uses, the `Listing` record, and the backend
  tables as a class (`Database`) holding `listings`, `profiles` and
  `conversations`.
- `ListingCard`: the remaining-time badge (shared by the detail view) and the
  image chosen for a card.
- `App`: the fetched collection and its seller fallbacks, the search filter,
  the edit/delete permission, and the create/update/delete handlers as methods
  of `Marketplace`, which change the view state and the `listings` table.
- `ListingModal`: the action buttons and the resolve-or-create step of the
  Message button, as a function over the conversation table, a method of
  `ListingModalView` tied to it, and lemmas about repeated use.
- `MapView`: coordinate validation, the filtered listings, one marker per
  valid listing, and the icon scale.
- `PostItemModal`: the form's initial contents and reset, the upload handlers
  (type guard, object path, image replacement), image removal, the location
  picker and submit, as methods of `PostForm`. `FormRoundTrip` relates the
  form to the update it submits.
- `AdminContext`, `AdminKeyModal`: the admin flag, its mirror in browser
  storage and in the user's metadata, and the key dialog.
- `ChatInbox`: the header of the inbox, which shows the other participant,
  and its back transition.

Each backend request is represented by its outcome, given as a parameter
(`Succeeds` or `Fails`); values the backend assigns (new ids, timestamps, the
public URL of an upload) and the random part of an upload's name are
parameters too. Timestamps are integers of milliseconds. Coordinates and the
zoom level are reals.

Where the code behaves in a way that is easy to misread, the model follows
the code:

- The card and the detail view show `images[0]` only when it is truthy, so a
  first image that is the empty string shows the placeholder. The map's
  `hasImage` only tests that the sequence is non-empty.
- The form's `useState` initialiser falls back with `||`, so an edited
  listing with an empty category starts as "Books". The effect that runs on
  mount copies the category exactly, so after mounting the form holds the
  listing's own fields.
- In `handleEditListing` and `handleDeleteListing` the result of
  `query.eq('user_id', user?.id)` is discarded. The query builder records the
  filter on itself, so the owner filter still applies. With nobody signed in
  it compares against `undefined` and reaches no row.

## Model

| member | source | states |
|---|---|---|
| `ListingCard.Remaining` | src/components/ListingCard.tsx:9-12 | hours are never negative; minutes lie in [0, 59]; both are 0 once `now >= expires_at`; before expiry hours·60 + minutes is the whole number of minutes left (the detail view computes the same expression) |
| `ListingCard.HoursAndMinutes` | src/components/ListingCard.tsx:11-12 | for a non-negative span, whole hours times 60 plus the JavaScript remainder of the whole minutes by 60 equals the whole minutes |
| `ListingCard.ClampHidesNegativeRemainder` | src/components/ListingCard.tsx:11-12 | for every expired listing the unclamped hours are negative and the unclamped JavaScript remainder of the minutes is never positive (one millisecond after expiry it is -1, where a floored remainder would be 59); the clamp shows 0h 0m |
| `ListingCard.FloorDiv` | src/components/ListingCard.tsx:11 | `Math.floor(a / b)` is the largest q with q·b ≤ a |
| `ListingCard.JsRem` | src/components/ListingCard.tsx:12 | the truncated remainder takes the sign of the dividend and has magnitude below the divisor |
| `ListingCard.CardIgnoresLaterImages` | src/components/ListingCard.tsx:17-43 | only the first image can reach the card: changing the images after it never changes what the card shows |
| `App.Normalise` | src/App.tsx:62-70 | every column of the row is kept; `seller.id` is the row's `user_id`; name, username and avatar are the profile's when present and non-empty, else 'Unknown User', 'unknown' and the default avatar URL |
| `App.Transform` | src/App.tsx:62-70 | one normalised listing per fetched row, same count, same order |
| `App.FetchMirrorsTable` | src/App.tsx:44-72 | after a successful fetch the collection has one listing per table row, in table order, with that row's columns and `seller.id = user_id`; a row whose owner has no profile gets the seller 'Unknown User', 'unknown' and the default avatar; a profile's non-empty name is the seller's name |
| `App.Search` | src/App.tsx:157-161 | the search result is a subsequence of the listings and holds exactly those whose lower-cased title, description or category contains the lower-cased query |
| `App.EmptySearchKeepsAll` | src/App.tsx:157-161 | an empty query keeps every listing |
| `Text.Lower` | src/App.tsx:157-161 | `toLowerCase` keeps the length and lower-cases each ASCII capital, leaving every other character |
| `Text.ContainsIffOccurs` | src/App.tsx:158-160 | `includes` holds exactly when the part occurs at some index of the string |
| `App.SearchIgnoresQueryCase` | src/App.tsx:157-161 | lower-casing the query does not change the result |
| `App.CanModifyExactly` | src/App.tsx:311-312 | Edit and Delete are offered exactly when the update or delete query they trigger reaches the listing's row (admin mode, or the signed-in owner); when offered, Delete removes that row; when not offered, neither update nor delete could change it |
| `App.CanModify` | src/App.tsx:311-312 | the condition under which the detail view receives `onEdit` and `onDelete`: admin mode, or a signed-in user who owns the selected listing |
| `App.NewRow` | src/App.tsx:78-87 | the inserted row carries `user_id` equal to the signed-in user |
| `App.ApplyDraft` | src/App.tsx:102-107 | an update writes exactly the seven form fields of the draft and keeps id, owner and timestamps |
| `App.UpdateRows` | src/App.tsx:102-114 | every row reached by the id filter (and the owner filter outside admin mode) is updated, every other row is left as it was |
| `App.DeleteRows` | src/App.tsx:129-139 | a delete removes exactly the rows in scope and keeps the others in order |
| `App.NonOwnerChangesNothing` | src/App.tsx:108-112 | outside admin mode, a user who owns no row with the id, or nobody signed in, changes no row by update or delete |
| `App.OwnerOrAdminDeletes` | src/App.tsx:129-137 | in admin mode no row with the id survives a delete; otherwise none of the user's own rows with the id survives |
| `App.PostedListingReadsBack` | src/App.tsx:78-87 | a posted listing reads back with the submitted form fields and is owned, also as seller, by the poster |
| `App.UnchangedEditIsNoOp` | src/App.tsx:102-107 | saving the edit form unchanged leaves the row as it was |
| `App.WritesKeepFilledIn` | src/App.tsx:75-149 | every row a validated form creates or updates has a non-empty title, description and price, and a table whose rows all have them keeps that through creates, updates and deletes |
| `App.Marketplace.FetchListings` | src/App.tsx:44-73 | a failed fetch leaves the collection unchanged; a successful one replaces it with the normalised query result |
| `App.Marketplace.HandleNewListing` | src/App.tsx:75-96 | signed out or on insert error nothing changes (no refetch, the form stays open); otherwise exactly one row owned by the user is appended, the collection is refetched and the form closes |
| `App.Marketplace.HandleEditListing` | src/App.tsx:98-125 | without a listing being edited or on error nothing changes; otherwise the scoped update is applied, the collection refetched, the form closed and the edit cleared |
| `App.Marketplace.HandleDeleteListing` | src/App.tsx:127-149 | on error nothing changes; otherwise the scoped delete is applied, the detail view closed and the collection refetched |
| `App.Marketplace.HandleEditClick` | src/App.tsx:151-155 | the listing becomes the one edited, the detail view closes and the form opens |
| `App.Marketplace.SubmitPostForm` | src/App.tsx:304 | the form, whose validation passes only a draft with a title, a description and a price, submits an update of the edited listing when there is one, otherwise a create; a table whose rows all have those fields keeps them; the table, the form's visibility, the edited listing and the collection change as the chosen handler says, and the selection and the query are kept |
| `App.Marketplace.OpenPostForm` | src/App.tsx:230-233 | the Post Item button clears the listing being edited and opens the form; it does not clear the form's fields (see `PostItemModal.PostForm.ReceiveEditListing`) |
| `App.Marketplace.ClosePostForm` | src/App.tsx:300-303 | closing the form clears the listing being edited |
| `App.Marketplace.SelectListing` | src/App.tsx:267-270 | a card or marker click selects its listing |
| `App.Marketplace.CloseListing` | src/App.tsx:310 | closing the detail view clears the selection |
| `App.Marketplace.SetSearchQuery` | src/App.tsx:184 | typing sets the query |
| `ListingModal.ActionButtons` | src/components/ListingModal.tsx:151-176 | Edit appears exactly with `onEdit`, Delete exactly with `onDelete`, Message exactly when neither is supplied |
| `ListingModal.MessageOfferedToNonOwners` | src/App.tsx:311-312 | as wired by the top-level view, Message is offered exactly to non-admin viewers who do not own the listing, so the owner never sees it |
| `ListingModal.MessageClick` | src/components/ListingModal.tsx:26-67 | signed out or messaging oneself: nothing queried or inserted and the chat stays closed; a lookup or insert error leaves the table as it was and the chat closed; the chat opens exactly when the guards pass, the lookup succeeds and a conversation exists or is inserted; the only change ever made is appending one row (listing.id, user.id, listing.user_id) |
| `ListingModal.ExistingConversationIsReused` | src/components/ListingModal.tsx:37-50 | when a conversation for the triple exists, nothing is inserted and a successful lookup opens the chat |
| `ListingModal.MissingConversationIsCreated` | src/components/ListingModal.tsx:50-66 | when none exists and both requests succeed, exactly one conversation for the triple is created and the chat opens |
| `ListingModal.ExistingAfterAppend` | src/components/ListingModal.tsx:37-43 | the lookup's count grows by one exactly when the appended row matches the triple |
| `ListingModal.ClickKeepsTripleUnique` | src/components/ListingModal.tsx:37-64 | one press never raises the number of conversations for its triple above one |
| `ListingModal.RepeatedClicksStayUnique` | src/components/ListingModal.tsx:37-64 | any sequence of presses for the same listing and user, whatever the backend answers, leaves at most one conversation for the triple |
| `ListingModal.ListingModalView.HandleMessageClick` | src/components/ListingModal.tsx:26-67 | the table changes and the outcome are those of `MessageClick`; the chat opens exactly on a `ChatOpened` outcome |
| `ListingModal.ListingModalView.CloseChat` | src/components/ListingModal.tsx:70 | closing the chat returns to the details |
| `MapView.ValidListingsSelectsValid` | src/components/Map.tsx:100-108 | the mapped listings are a subsequence of the input holding exactly those with valid coordinates; filtering again changes nothing |
| `MapView.IsValidCoordinate` | src/components/Map.tsx:27-38 | a latitude within [-90, 90] and a longitude within [-180, 180], bounds included |
| `MapView.MarkersOfValid` | src/components/Map.tsx:139-159 | over valid listings the re-check rejects none: one marker per listing, in order |
| `MapView.MarkerPerValidListing` | src/components/Map.tsx:100-159 | exactly one marker per valid listing, at its position, keyed by its id |
| `MapView.IconScale` | src/components/Map.tsx:45 | the scale lies in [0.5, 1], equals zoom/14 for zoom in [7, 14], and is clamped outside |
| `MapView.IconScaleMonotone` | src/components/Map.tsx:45 | zooming in never shrinks the icons |
| `MapView.MapAndCardDisagree` | src/components/Map.tsx:44 | the marker icon draws an image while the card shows the placeholder exactly when the first image is the empty string; whenever the card shows an image the icon shows the same one |
| `MapView.MapState.constructor` | src/components/Map.tsx:41 | the map starts at zoom 15, where icons are drawn at full scale |
| `MapView.MapState.OnZoomEnd` | src/components/Map.tsx:13-23 | the zoom handler records the new zoom |
| `MapView.MapState.CurrentScale` | src/components/Map.tsx:45 | the scale at the current zoom, within [0.5, 1] |
| `PostItemModal.InitialForm` | src/components/PostItemModal.tsx:36-44 | without a listing the defaults; with one its fields, except that an empty category becomes 'Books' |
| `FormRoundTrip.UnchangedFormSavesNothing` | src/components/PostItemModal.tsx:49-71 | the effect fills the form with the edited listing's own fields, so saving it untouched leaves every row the update reaches as it was |
| `PostItemModal.InitialAgreesWithReset` | src/components/PostItemModal.tsx:36-71 | the initialiser and the effect agree exactly when the listing's category is not empty |
| `PostItemModal.FileExtension` | src/components/PostItemModal.tsx:84 | the extension has no '.', is a suffix of the name, and is preceded by a '.' unless it is the whole name |
| `PostItemModal.IsImage` | src/components/PostItemModal.tsx:77-80 | the type guard: a file is uploaded only when its MIME type starts with 'image/' |
| `PostItemModal.ExtensionAfterDot` | src/components/PostItemModal.tsx:84-85 | the extension of `prefix + '.' + ext` is `ext` for a dot-free `ext` |
| `PostItemModal.UploadPath` | src/components/PostItemModal.tsx:84-86 | the object path `listings/<random>.<extension of the file name>` |
| `PostItemModal.UploadPathKeepsExtension` | src/components/PostItemModal.tsx:84-86 | the object path starts with 'listings/' and has the uploaded file's extension, whatever the random part |
| `PostItemModal.PostForm.constructor` | src/components/PostItemModal.tsx:36-71 | after mounting, the form holds the reset contents, no upload in progress and no drag highlight |
| `PostItemModal.PostForm.EditListingChanged` | src/components/PostItemModal.tsx:49-71 | the effect sets the form to the listing's fields or the defaults |
| `PostItemModal.PostForm.ReceiveEditListing` | src/components/PostItemModal.tsx:49-71 | the form stays mounted, and its fields are reset only when the `editListing` prop changes; a form reopened with the prop `null` both times keeps the earlier draft |
| `PostItemModal.PostForm.UploadImage` | src/components/PostItemModal.tsx:77-113 | a non-image file is not uploaded and changes nothing; an image is uploaded to the object path; success sets images to exactly [publicUrl] and nothing else; failure leaves the form; progress is null afterwards either way |
| `PostItemModal.PostForm.StoreUpload` | src/components/PostItemModal.tsx:88-113 | a successful upload sets images to exactly [publicUrl] and nothing else; a failed one leaves the form; the indicator is cleared afterwards either way |
| `PostItemModal.PostForm.HandleFileInput` | src/components/PostItemModal.tsx:73-114 | no file: nothing happens; a non-image first file changes nothing; otherwise the first file goes through the upload |
| `PostItemModal.PostForm.HandleDrop` | src/components/PostItemModal.tsx:133-179 | the highlight is cleared; an empty drop or a non-image first file changes nothing else; of several files only the first is considered; the edited listing is never touched |
| `PostItemModal.PostForm.HandleDragEnter` | src/components/PostItemModal.tsx:116-120 | dragging over the drop zone highlights it |
| `PostItemModal.PostForm.HandleDragLeave` | src/components/PostItemModal.tsx:122-126 | leaving it removes the highlight |
| `PostItemModal.PostForm.RemoveImage` | src/components/PostItemModal.tsx:316 | images become [] and nothing else changes |
| `PostItemModal.PostForm.PickLocation` | src/components/PostItemModal.tsx:362 | only the location changes |
| `PostItemModal.PostForm.EditTitle` | src/components/PostItemModal.tsx:210 | only the title changes |
| `PostItemModal.PostForm.EditDescription` | src/components/PostItemModal.tsx:223 | only the description changes |
| `PostItemModal.PostForm.EditPrice` | src/components/PostItemModal.tsx:240 | only the price changes |
| `PostItemModal.PostForm.EditCategory` | src/components/PostItemModal.tsx:253 | only the category changes |
| `PostItemModal.PostForm.EditCondition` | src/components/PostItemModal.tsx:271 | only the condition changes |
| `PostItemModal.PostForm.Submit` | src/components/PostItemModal.tsx:181-240 | a submit goes through exactly when the `required` title, description and price are non-empty, and then hands over the current form unchanged |
| `AdminContext.Mirror` | src/context/AdminContext.tsx:19-33 | the effect sets 'adminMode' to 'true' in admin mode and removes it otherwise, touching no other key |
| `AdminContext.MirrorRoundTrip` | src/context/AdminContext.tsx:15-33 | the initialiser turns admin mode on exactly when storage holds 'adminMode' = 'true', so what the effect stores restores the same flag in the next session |
| `AdminContext.AdminState.constructor` | src/context/AdminContext.tsx:15-33 | the flag is read from storage and storage then mirrors it |
| `AdminContext.AdminState.SyncEffect` | src/context/AdminContext.tsx:19-33 | storage mirrors the flag and the metadata receives it |
| `AdminContext.AdminState.SetIsAdmin` | src/context/AdminContext.tsx:44 | the effect re-runs only when the flag changes |
| `AdminContext.AdminState.SetAdminKey` | src/context/AdminContext.tsx:35-52 | a wrong key changes nothing and makes no metadata call; the right key with a successful update turns admin mode on; a failed update leaves the flag |
| `AdminContext.AdminState.ClearAdmin` | src/context/AdminContext.tsx:54-67 | a successful update turns admin mode off; a failed one leaves the flag |
| `AdminKeyModal.KeyDialog.Submit` | src/components/AdminKeyModal.tsx:14-21 | a closed dialog submits nothing; otherwise exactly the typed key is forwarded, the field is cleared and the dialog closes, whether or not the key was right; the admin state then is the one `setAdminKey` leaves: untouched for a wrong key, the metadata call recorded and storage and flag kept on failure, admin mode on and mirrored on success |
| `AdminKeyModal.KeyDialog.ChangeKey` | src/components/AdminKeyModal.tsx:45 | typing sets the key field |
| `AdminKeyModal.KeyDialog.Open` | src/App.tsx:220 | the shield button opens the dialog |
| `AdminKeyModal.KeyDialog.Close` | src/components/AdminKeyModal.tsx:31 | the close button closes it |
| `ChatInbox.HeaderFor` | src/components/ChatInbox.tsx:47-89 | with a selection the header's avatar, name and username come from one participant and the subtitle is the listing's title; without one it is the list header |
| `ChatInbox.HeaderShowsOtherParticipant` | src/components/ChatInbox.tsx:57-75 | in a conversation between two different users the buyer sees the seller and the seller sees the buyer; anyone else, and a signed-out viewer, sees the buyer; the subtitle is the listing's title |
| `ChatInbox.Inbox.Back` | src/components/ChatInbox.tsx:49-50 | the back button clears the selection, which shows the list header |

## Left out

- Backend behaviour: queries, inserts, updates, deletes, storage uploads and
  `auth.updateUser` are reduced to a success or failure outcome and an
  in-memory table. Row-level security and triggers are not modelled.
- The listings query's server-side ordering by `created_at` is not modelled:
  fetched rows come back in table order.
- Concurrency and asynchronous timing are not modelled. This covers two
  message presses racing between lookup and insert, the unawaited
  `setAdminKey` in the key dialog, and callbacks that resolve after their view
  has closed. Every property is about handlers run one after another.
- `AdminKeyModal.KeyDialog.Submit`: lets `setAdminKey` finish before the field
  is cleared and the dialog closed. In the source the metadata request is still
  pending at that point. The final state is the same.
- The metadata updates made by the admin effect are not awaited, so their
  outcome is not modelled. They are only recorded.
- Floating point is not modelled: `parseFloat` of string coordinates, the NaN
  and infinity tests, the upload progress percentage, pixel rounding and font
  sizes. Coordinates and zoom are exact reals. The countdown uses exact integer
  division, which agrees with JavaScript's floating-point division for
  realistic time spans.
- Date strings are not parsed and `toLocaleDateString` is not modelled:
  timestamps are integers of milliseconds.
- `Math.random` is not modelled: the random part of an upload's name is a
  parameter.
- Strings are sequences of Unicode characters, whereas JavaScript strings
  are UTF-16 code units: lengths differ for characters outside the Basic
  Multilingual Plane, and lone surrogates cannot be represented. Nothing
  modelled depends on a string's length.
- The upload progress indicator while an upload runs is not modelled; only
  its final cleared value is stated.
- `Text.Lower` lower-cases ASCII letters only, where `toLowerCase` follows
  Unicode case mapping.
- Rendering is not modelled: React, Leaflet, the HTML of marker icons, the
  sidebar and resize handling, the theme toggle and the sign-in dialog.
- `ListingCard.Remaining`: the current time is a parameter, since the source
  reads the clock.
- The inbox's message list, polling, realtime subscription and message sending
  are not modelled. `src/components/ChatInbox.tsx` holds only the header and
  refers to state it never declares (lines 41 and 93). The list view's back
  button reloads the page and is not modelled either.
- The user-facing notices are not modelled: the `alert`s and `console.error`
  logs after a failed fetch, insert, update, delete, upload or message action.
  Each handler's outcome is modelled instead, as unchanged state or a
  returned outcome value.
- Selecting a conversation in the inbox happens in the part of
  `src/components/ChatInbox.tsx` that the file does not contain, so the model
  has no selection operation. The header and the back button are modelled.
- `src/main.tsx` only composes context providers and is not part of this
  model.
- The admin key is a constant. Whether it is kept secret is not modelled.
