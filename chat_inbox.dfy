/** The header of the inbox: in the thread view it shows the other
    participant of the selected conversation and the listing's title, and
    its back button returns to the conversation list. */
module ChatInbox {
  import opened Common
  import opened Types

  /** A participant's profile snapshot. */
  datatype Participant = Participant(name: string, username: string, avatar: string)

  /** A conversation as the inbox holds it, joined with the listing's title
      and both participants' profiles. */
  datatype ConversationView = ConversationView(
    id: string,
    listingId: string,
    buyerId: UserId,
    sellerId: UserId,
    listingTitle: string,
    buyer: Participant,
    seller: Participant)

  /** What the header shows. */
  datatype Header =
    | ListHeader
    | ThreadHeader(avatar: string, name: string, username: string, subtitle: string)

  /** `user?.id === buyer_id ? seller : buyer`: the participant shown. */
  function Counterpart(user: Option<UserId>, c: ConversationView): (p: Participant)
    ensures user == Some(c.buyerId) ==> p == c.seller
    ensures user != Some(c.buyerId) ==> p == c.buyer
  {
    if user.Some? && user.value == c.buyerId then c.seller else c.buyer
  }

  /** The header for the current selection. */
  function HeaderFor(user: Option<UserId>, selected: Option<ConversationView>): (h: Header)
    ensures selected.None? <==> h == ListHeader
    ensures selected.Some? ==>
              h.subtitle == selected.value.listingTitle &&
              (Participant(h.name, h.username, h.avatar) == selected.value.seller ||
               Participant(h.name, h.username, h.avatar) == selected.value.buyer)
  {
    match selected
    case None => ListHeader
    case Some(c) =>
      var p := Counterpart(user, c);
      ThreadHeader(p.avatar, p.name, p.username, c.listingTitle)
  }

  /** A participant of a conversation between two different users sees the
      other one in the header: the buyer sees the seller, the seller sees
      the buyer. Anyone else, and a signed-out viewer, sees the buyer. */
  lemma HeaderShowsOtherParticipant(user: Option<UserId>, c: ConversationView)
    requires c.buyerId != c.sellerId
    ensures var h := HeaderFor(user, Some(c));
            user == Some(c.buyerId) ==> Participant(h.name, h.username, h.avatar) == c.seller
    ensures var h := HeaderFor(user, Some(c));
            user == Some(c.sellerId) ==> Participant(h.name, h.username, h.avatar) == c.buyer
    ensures var h := HeaderFor(user, Some(c));
            user != Some(c.buyerId) ==> Participant(h.name, h.username, h.avatar) == c.buyer
    ensures var h := HeaderFor(user, Some(c));
            h.subtitle == c.listingTitle
  {
  }

  /** The inbox's selection. */
  class Inbox {
    var selectedConversation: Option<ConversationView>

    constructor ()
      ensures selectedConversation == None
    {
      selectedConversation := None;
    }

    /** The back button of the thread view: clears the selection, which
        switches the header to the list. */
    method Back(user: Option<UserId>)
      modifies this
      ensures selectedConversation == None
      ensures HeaderFor(user, selectedConversation) == ListHeader
    {
      selectedConversation := None;
    }
  }
}
