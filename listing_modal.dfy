/** The listing detail view: which action buttons it offers, and the
    "Message" action, which finds or creates the conversation for
    (listing, buyer, seller) and opens the chat. Its remaining-time badge is
    computed by the card's expression, `ListingCard.Remaining`. */
module ListingModal {
  import opened Common
  import opened Types
  import opened Backend
  import App

  // ---------------------------------------------------------------------
  // Action buttons
  // ---------------------------------------------------------------------

  datatype Button = EditButton | DeleteButton | MessageButton

  /** The buttons rendered, in order: Edit when `onEdit` is supplied, Delete
      when `onDelete` is, and Message only when neither is. */
  function ActionButtons(hasEdit: bool, hasDelete: bool): (r: seq<Button>)
    ensures EditButton in r <==> hasEdit
    ensures DeleteButton in r <==> hasDelete
    ensures MessageButton in r <==> !hasEdit && !hasDelete
    ensures |r| == (if hasEdit || hasDelete then (if hasEdit then 1 else 0) + (if hasDelete then 1 else 0) else 1)
  {
    (if hasEdit then [EditButton] else []) +
    (if hasDelete then [DeleteButton] else []) +
    (if !hasEdit && !hasDelete then [MessageButton] else [])
  }

  /** As the top-level view wires it (both callbacks under the same
      condition), the Message button is offered exactly to viewers who may
      not edit the listing; so its owner never reaches the self-messaging
      guard through it. */
  lemma MessageOfferedToNonOwners(isAdmin: bool, user: Option<UserId>, l: Listing)
    ensures var can := App.CanModify(isAdmin, user, Some(l));
            MessageButton in ActionButtons(can, can) <==> !isAdmin && user != Some(l.userId)
    ensures user == Some(l.userId) ==>
              var can := App.CanModify(isAdmin, user, Some(l));
              MessageButton !in ActionButtons(can, can)
  {
  }

  // ---------------------------------------------------------------------
  // Resolve or create the conversation
  // ---------------------------------------------------------------------

  /** How one press of "Message" ends. */
  datatype MessageOutcome =
    | SignInRequired        // alert, nothing queried
    | CannotMessageSelf     // alert, nothing queried
    | LookupFailed          // logged, chat stays closed
    | CreateFailed          // logged, chat stays closed
    | ChatOpened(created: bool)

  /** The backend's answers to the requests one press may make, and the id
      the backend gives a new conversation. */
  datatype Replies = Replies(lookup: Call, insert: Call, newId: string)

  datatype ClickResult = ClickResult(outcome: MessageOutcome, conversations: seq<ConversationRow>)

  predicate IsFor(c: ConversationRow, listingId: string, buyerId: UserId, sellerId: UserId)
  {
    c.listingId == listingId && c.buyerId == buyerId && c.sellerId == sellerId
  }

  function ForTriple(listingId: string, buyerId: UserId, sellerId: UserId): ConversationRow -> bool
  {
    c => IsFor(c, listingId, buyerId, sellerId)
  }

  /** The lookup query: the conversations matching all three keys. */
  function Existing(convs: seq<ConversationRow>, listingId: string, buyerId: UserId, sellerId: UserId): seq<ConversationRow>
  {
    Filter(convs, ForTriple(listingId, buyerId, sellerId))
  }

  /** `handleMessageClick` against the `conversations` table. */
  function MessageClick(convs: seq<ConversationRow>, user: Option<UserId>, listing: Listing, rep: Replies): (r: ClickResult)
    ensures user.None? ==> r == ClickResult(SignInRequired, convs)
    ensures user.Some? && user.value == listing.userId ==> r == ClickResult(CannotMessageSelf, convs)
    ensures r.outcome == ChatOpened(true) <==> r.conversations != convs
    ensures r.conversations != convs ==>
              user.Some? && r.conversations == convs + [ConversationRow(rep.newId, listing.id, user.value, listing.userId)]
    ensures r.outcome.ChatOpened? ==> user.Some? && rep.lookup == Succeeds
    ensures rep.lookup == Fails && user.Some? && user.value != listing.userId ==> r == ClickResult(LookupFailed, convs)
    ensures rep.insert == Fails ==> r.conversations == convs
    ensures r.outcome.ChatOpened? <==>
              user.Some? && user.value != listing.userId && rep.lookup == Succeeds &&
              (|Existing(convs, listing.id, user.value, listing.userId)| > 0 || rep.insert == Succeeds)
  {
    if user.None? then ClickResult(SignInRequired, convs)
    else if user.value == listing.userId then ClickResult(CannotMessageSelf, convs)
    else if rep.lookup.Fails? then ClickResult(LookupFailed, convs)
    else if |Existing(convs, listing.id, user.value, listing.userId)| == 0 then
      if rep.insert.Fails? then ClickResult(CreateFailed, convs)
      else
        var c := ConversationRow(rep.newId, listing.id, user.value, listing.userId);
        assert |convs + [c]| != |convs|;
        ClickResult(ChatOpened(true), convs + [c])
    else ClickResult(ChatOpened(false), convs)
  }

  /** The number of conversations for the triple after appending one row. */
  lemma ExistingAfterAppend(convs: seq<ConversationRow>, c: ConversationRow, listingId: string, buyerId: UserId, sellerId: UserId)
    ensures |Existing(convs + [c], listingId, buyerId, sellerId)| ==
            |Existing(convs, listingId, buyerId, sellerId)| + (if IsFor(c, listingId, buyerId, sellerId) then 1 else 0)
  {
    FilterAppend(convs, [c], ForTriple(listingId, buyerId, sellerId));
  }

  /** With a conversation for the triple already present, a press inserts
      nothing and, when the lookup succeeds, opens the chat. */
  lemma ExistingConversationIsReused(convs: seq<ConversationRow>, buyer: UserId, listing: Listing, rep: Replies)
    requires buyer != listing.userId
    requires |Existing(convs, listing.id, buyer, listing.userId)| > 0
    ensures MessageClick(convs, Some(buyer), listing, rep).conversations == convs
    ensures rep.lookup == Succeeds ==> MessageClick(convs, Some(buyer), listing, rep).outcome == ChatOpened(false)
  {
  }

  /** With none present and both requests succeeding, exactly one
      conversation is created, keyed by the listing, the buyer and the
      listing's owner, and the chat opens. */
  lemma MissingConversationIsCreated(convs: seq<ConversationRow>, buyer: UserId, listing: Listing, rep: Replies)
    requires buyer != listing.userId
    requires |Existing(convs, listing.id, buyer, listing.userId)| == 0
    requires rep.lookup == Succeeds && rep.insert == Succeeds
    ensures var r := MessageClick(convs, Some(buyer), listing, rep);
            r.outcome == ChatOpened(true) &&
            r.conversations == convs + [ConversationRow(rep.newId, listing.id, buyer, listing.userId)] &&
            |Existing(r.conversations, listing.id, buyer, listing.userId)| == 1
  {
    ExistingAfterAppend(convs, ConversationRow(rep.newId, listing.id, buyer, listing.userId),
                        listing.id, buyer, listing.userId);
  }

  /** One press never brings a second conversation for its triple: a press
      by the listing's prospective buyer leaves at most one, if there was at
      most one before. */
  lemma ClickKeepsTripleUnique(convs: seq<ConversationRow>, user: Option<UserId>, listing: Listing, rep: Replies)
    requires user.Some?
    requires |Existing(convs, listing.id, user.value, listing.userId)| <= 1
    ensures |Existing(MessageClick(convs, user, listing, rep).conversations, listing.id, user.value, listing.userId)| <= 1
  {
    var r := MessageClick(convs, user, listing, rep);
    if r.conversations != convs {
      ExistingAfterAppend(convs, ConversationRow(rep.newId, listing.id, user.value, listing.userId),
                          listing.id, user.value, listing.userId);
    }
  }

  /** Presses made one after another, each with its own replies. */
  function ClickSeries(convs: seq<ConversationRow>, user: Option<UserId>, listing: Listing, replies: seq<Replies>): seq<ConversationRow>
    decreases |replies|
  {
    if replies == [] then convs
    else ClickSeries(MessageClick(convs, user, listing, replies[0]).conversations, user, listing, replies[1..])
  }

  /** Repeating the Message action sequentially for the same listing and
      user, whatever the backend answers, never yields a second conversation
      for that triple. */
  lemma {:induction false} RepeatedClicksStayUnique(convs: seq<ConversationRow>, user: Option<UserId>, listing: Listing, replies: seq<Replies>)
    requires user.Some?
    requires |Existing(convs, listing.id, user.value, listing.userId)| <= 1
    ensures |Existing(ClickSeries(convs, user, listing, replies), listing.id, user.value, listing.userId)| <= 1
    decreases |replies|
  {
    if replies != [] {
      ClickKeepsTripleUnique(convs, user, listing, replies[0]);
      RepeatedClicksStayUnique(MessageClick(convs, user, listing, replies[0]).conversations, user, listing, replies[1..]);
    }
  }

  /** The view's own state: whether the chat has replaced the details. */
  class ListingModalView {
    var showChat: bool

    constructor ()
      ensures !showChat
    {
      showChat := false;
    }

    /** `handleMessageClick`: guards, lookup, conditional insert, then
        `setShowChat(true)`. */
    method HandleMessageClick(db: Database, user: Option<UserId>, listing: Listing, rep: Replies)
      returns (outcome: MessageOutcome)
      modifies this, db`conversations
      ensures ClickResult(outcome, db.conversations) == MessageClick(old(db.conversations), user, listing, rep)
      ensures showChat == (old(showChat) || outcome.ChatOpened?)
    {
      if user.None? {
        return SignInRequired;
      }
      if user.value == listing.userId {
        return CannotMessageSelf;
      }
      if rep.lookup == Fails {
        return LookupFailed;
      }
      var existing := Existing(db.conversations, listing.id, user.value, listing.userId);
      var created := false;
      if |existing| == 0 {
        if rep.insert == Fails {
          return CreateFailed;
        }
        db.conversations := db.conversations + [ConversationRow(rep.newId, listing.id, user.value, listing.userId)];
        created := true;
      }
      showChat := true;
      outcome := ChatOpened(created);
    }

    /** The chat's `onClose`: back to the details. */
    method CloseChat()
      modifies this
      ensures !showChat
    {
      showChat := false;
    }
  }
}
