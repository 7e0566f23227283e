/**
 * The play-requests page: the received and sent lists fetched from the
 * `playRequests` collection, the accept / decline handler that writes the
 * answer back (and, on accept, a notification for the sender), and the rules
 * that decide what each request card shows.
 *
 * The status a request carries is kept as the string the store holds, because
 * the handler writes the action word ('accept' / 'decline') while the card
 * rules look for 'accepted' / 'declined'.
 */
module Requests {
  import opened Common

  datatype PlayRequest = PlayRequest(
    id: string,
    senderId: string,
    senderName: string,
    senderEmail: string,
    senderPhone: Option<string>,
    receiverId: string,
    receiverName: string,
    receiverEmail: string,
    receiverPhone: Option<string>,
    sport: string,
    status: string,
    createdAt: int,
    message: string,
    contactShared: Option<bool>,
    respondedAt: Option<int>)

  datatype Notification = Notification(
    userId: string,
    kind: string,
    title: string,
    message: string,
    read: bool,
    createdAt: int,
    requestId: string)

  datatype Action = Accept | Decline

  /** The word the handler is called with, and writes as the new status. */
  function ActionWord(action: Action): string
  {
    match action
    case Accept => "accept"
    case Decline => "decline"
  }

  // ---------------------------------------------------------------------
  // The two queries of `fetchRequests`

  /** `where('receiverId', '==', uid), where('status', '==', 'pending')` */
  function ReceivedQuery(requests: seq<PlayRequest>, uid: string): seq<PlayRequest>
  {
    Filter(requests, (r: PlayRequest) => r.receiverId == uid && r.status == "pending")
  }

  /** `where('senderId', '==', uid)`, whatever the status. */
  function SentQuery(requests: seq<PlayRequest>, uid: string): seq<PlayRequest>
  {
    Filter(requests, (r: PlayRequest) => r.senderId == uid)
  }

  /**
   * The received list is exactly the pending requests addressed to the user and
   * the sent list exactly the requests the user sent; both keep the store's order.
   */
  lemma QueriesSelectExactly(requests: seq<PlayRequest>, uid: string, r: PlayRequest)
    ensures r in ReceivedQuery(requests, uid) <==>
              r in requests && r.receiverId == uid && r.status == "pending"
    ensures r in SentQuery(requests, uid) <==> r in requests && r.senderId == uid
    ensures IsSubsequence(ReceivedQuery(requests, uid), requests)
    ensures IsSubsequence(SentQuery(requests, uid), requests)
  {
    FilterMembership(requests, (r: PlayRequest) => r.receiverId == uid && r.status == "pending", r);
    FilterMembership(requests, (r: PlayRequest) => r.senderId == uid, r);
    FilterIsSubsequence(requests, (r: PlayRequest) => r.receiverId == uid && r.status == "pending");
    FilterIsSubsequence(requests, (r: PlayRequest) => r.senderId == uid);
  }

  // ---------------------------------------------------------------------
  // The write of `handleRequest`

  /** `receivedRequests.find(req => req.id === requestId)`: the first match. */
  function FindById(list: seq<PlayRequest>, id: string): (found: Option<PlayRequest>)
    ensures found.None? <==> forall i :: 0 <= i < |list| ==> list[i].id != id
    ensures found.Some? ==> found.value in list && found.value.id == id
    ensures forall i :: 0 <= i < |list| && list[i].id == id && (forall j :: 0 <= j < i ==> list[j].id != id) ==>
              found == Some(list[i])
  {
    if list == [] then None
    else if list[0].id == id then Some(list[0])
    else FindById(list[1..], id)
  }

  predicate HasId(requests: seq<PlayRequest>, id: string)
  {
    exists i :: 0 <= i < |requests| && requests[i].id == id
  }

  /** The fields `updateDoc` merges into the answered request. */
  function Respond(r: PlayRequest, action: Action, user: AuthUser, now: int): (answered: PlayRequest)
    ensures answered.status == ActionWord(action)
    ensures answered.contactShared == Some(action == Accept)
    ensures answered.receiverName == OrElse(user.displayName, "Anonymous")
    ensures answered.receiverEmail == OrElse(user.email, "")
    ensures answered.receiverPhone == Some(OrElse(user.phoneNumber, ""))
    ensures answered.respondedAt == Some(now)
    ensures answered.(status := r.status, contactShared := r.contactShared,
                      receiverName := r.receiverName, receiverEmail := r.receiverEmail,
                      receiverPhone := r.receiverPhone, respondedAt := r.respondedAt) == r
  {
    r.(status := ActionWord(action),
       respondedAt := Some(now),
       contactShared := Some(action == Accept),
       receiverName := OrElse(user.displayName, "Anonymous"),
       receiverEmail := OrElse(user.email, ""),
       receiverPhone := Some(OrElse(user.phoneNumber, "")))
  }

  /** The collection after the update of the document with the given id. */
  function AnswerInStore(requests: seq<PlayRequest>, id: string, action: Action,
                         user: AuthUser, now: int): (updated: seq<PlayRequest>)
    ensures |updated| == |requests|
    ensures forall i :: 0 <= i < |requests| ==>
              updated[i] == if requests[i].id == id then Respond(requests[i], action, user, now)
                            else requests[i]
  {
    if requests == [] then []
    else [if requests[0].id == id then Respond(requests[0], action, user, now) else requests[0]] +
         AnswerInStore(requests[1..], id, action, user, now)
  }

  /** The notification written for the sender when a request is accepted. */
  function AcceptNotification(request: PlayRequest, user: AuthUser, now: int): (n: Notification)
    ensures n.userId == request.senderId && n.requestId == request.id && !n.read
    ensures n.kind == "request_accepted"
  {
    Notification(
      request.senderId,
      "request_accepted",
      "Play Request Accepted!",
      OrElse(user.displayName, "Someone") + " accepted your request to play " + request.sport,
      false,
      now,
      request.id)
  }

  /** `prev.filter(req => req.id !== requestId)` */
  function RemoveById(list: seq<PlayRequest>, id: string): (rest: seq<PlayRequest>)
    ensures forall i :: 0 <= i < |rest| ==> rest[i].id != id
  {
    Filter(list, (r: PlayRequest) => r.id != id)
  }

  /** Removing the answered request keeps every other entry, in order. */
  lemma RemoveByIdKeepsOthers(list: seq<PlayRequest>, id: string, r: PlayRequest)
    ensures r in RemoveById(list, id) <==> r in list && r.id != id
    ensures IsSubsequence(RemoveById(list, id), list)
    ensures multiset(RemoveById(list, id))[r] == if r.id != id then multiset(list)[r] else 0
  {
    FilterMembership(list, (q: PlayRequest) => q.id != id, r);
    FilterIsSubsequence(list, (q: PlayRequest) => q.id != id);
    FilterCounts(list, (q: PlayRequest) => q.id != id, r);
  }

  // ---------------------------------------------------------------------
  // What a request card shows

  datatype Side = ReceivedSide | SentSide

  datatype ContactInfo = ContactInfo(name: string, email: string, phone: Option<string>)

  /** `renderContactInfo`: the other party's contact block, or nothing. */
  function RenderContactInfo(r: PlayRequest, side: Side): (info: Option<ContactInfo>)
    ensures info.Some? <==> r.status == "accepted" && r.contactShared == Some(true)
    ensures info.Some? && side == ReceivedSide ==>
              info.value == ContactInfo(r.senderName, r.senderEmail, r.senderPhone)
    ensures info.Some? && side == SentSide ==>
              info.value == ContactInfo(r.receiverName, r.receiverEmail, r.receiverPhone)
  {
    if r.status != "accepted" || r.contactShared != Some(true) then None
    else match side
      case ReceivedSide => Some(ContactInfo(r.senderName, r.senderEmail, r.senderPhone))
      case SentSide => Some(ContactInfo(r.receiverName, r.receiverEmail, r.receiverPhone))
  }

  datatype ChipColor = SuccessColor | ErrorColor | DefaultColor

  /** The colour of the status chip on a sent card. */
  function StatusChipColor(status: string): (color: ChipColor)
    ensures color == SuccessColor <==> status == "accepted"
    ensures color == ErrorColor <==> status == "declined"
  {
    if status == "accepted" then SuccessColor
    else if status == "declined" then ErrorColor
    else DefaultColor
  }

  /** Accept and Decline appear only on received cards still pending. */
  predicate ShowsResponseButtons(r: PlayRequest, side: Side)
  {
    side == ReceivedSide && r.status == "pending"
  }

  /**
   * A request answered by the handler carries the action word as its status,
   * so neither side ever sees the contact block and the sent chip keeps the
   * default colour, for accept and decline alike.
   */
  lemma AnsweredRequestHidesContact(r: PlayRequest, action: Action, user: AuthUser,
                                    now: int, side: Side)
    ensures RenderContactInfo(Respond(r, action, user, now), side) == None
    ensures StatusChipColor(Respond(r, action, user, now).status) == DefaultColor
    ensures !ShowsResponseButtons(Respond(r, action, user, now), side)
  {
  }

  /** The status word the card rules expect. */
  function StatusAfter(action: Action): string
  {
    match action
    case Accept => "accepted"
    case Decline => "declined"
  }

  /** The write with the status the card rules expect. */
  function RespondCorrected(r: PlayRequest, action: Action, user: AuthUser, now: int)
    : (answered: PlayRequest)
    ensures answered.status == (if action == Accept then "accepted" else "declined")
    ensures answered.contactShared == Some(action == Accept)
    ensures answered == Respond(r, action, user, now).(status := answered.status)
  {
    Respond(r, action, user, now).(status := StatusAfter(action))
  }

  /**
   * With the corrected status, the sender's card for the request shows the
   * receiver's details exactly on accept, and the chip colour follows the
   * answer.
   */
  lemma CorrectedAnswerSharesContact(r: PlayRequest, action: Action, user: AuthUser, now: int)
    ensures var a := RespondCorrected(r, action, user, now);
            (RenderContactInfo(a, SentSide).Some? <==> action == Accept) &&
            (action == Accept ==>
               RenderContactInfo(a, SentSide) ==
                 Some(ContactInfo(OrElse(user.displayName, "Anonymous"), OrElse(user.email, ""),
                                  Some(OrElse(user.phoneNumber, ""))))) &&
            StatusChipColor(a.status) == (if action == Accept then SuccessColor else ErrorColor) &&
            (a.contactShared == Some(true) <==> a.status == "accepted")
  {
  }

  /**
   * A received card never shows contact details: the received list holds
   * pending requests only. So the receiver of a request never sees the
   * sender's details on this page, whatever status the answer writes.
   */
  lemma ReceivedCardsNeverShowContact(requests: seq<PlayRequest>, uid: string, r: PlayRequest)
    requires r in ReceivedQuery(requests, uid)
    ensures RenderContactInfo(r, ReceivedSide).None?
    ensures ShowsResponseButtons(r, ReceivedSide)
  {
    QueriesSelectExactly(requests, uid, r);
  }

  const AcceptedMessage: string := "Request accepted! You can now see each other's contact information."
  const DeclinedMessage: string := "Request declined"

  /**
   * The page's state together with an in-memory stand-in for the two store
   * collections it touches: `requests` is the `playRequests` collection in the
   * order its queries return documents, `notifications` the `notifications`
   * collection.
   */
  class RequestsPage {
    var requests: seq<PlayRequest>
    var notifications: seq<Notification>
    var received: seq<PlayRequest>
    var sent: seq<PlayRequest>
    var error: string
    var success: string

    constructor (requests: seq<PlayRequest>, notifications: seq<Notification>)
      ensures this.requests == requests && this.notifications == notifications
      ensures received == [] && sent == [] && error == "" && success == ""
    {
      this.requests := requests;
      this.notifications := notifications;
      received, sent := [], [];
      error, success := "", "";
    }

    /** `fetchRequests` for the signed-in user. */
    method FetchRequests(uid: string)
      modifies this
      ensures received == ReceivedQuery(requests, uid) && sent == SentQuery(requests, uid)
      ensures requests == old(requests) && notifications == old(notifications)
      ensures error == old(error) && success == old(success)
    {
      received := ReceivedQuery(requests, uid);
      sent := SentQuery(requests, uid);
    }

    /**
     * `handleRequest(requestId, action)` up to, not including, the trailing
     * `fetchRequests()` it starts without awaiting (call `FetchRequests` for that).
     */
    method HandleRequest(user: Option<AuthUser>, requestId: string, action: Action, now: int)
      modifies this
      // the id is not on the received list, or nobody is signed in: nothing happens
      ensures FindById(old(received), requestId).None? || user.None? ==>
                requests == old(requests) && notifications == old(notifications) &&
                received == old(received) && sent == old(sent) &&
                error == old(error) && success == old(success)
      // the document is gone from the store: the update throws and only the error is set
      ensures FindById(old(received), requestId).Some? && user.Some? && !HasId(old(requests), requestId) ==>
                requests == old(requests) && notifications == old(notifications) &&
                received == old(received) && sent == old(sent) &&
                error == "Failed to " + ActionWord(action) + " request" && success == old(success)
      // otherwise the answer is written, the sender notified on accept, the entry dropped
      ensures FindById(old(received), requestId).Some? && user.Some? && HasId(old(requests), requestId) ==>
                requests == AnswerInStore(old(requests), requestId, action, user.value, now) &&
                notifications == (if action == Accept
                                  then old(notifications) +
                                       [AcceptNotification(FindById(old(received), requestId).value,
                                                           user.value, now)]
                                  else old(notifications)) &&
                received == RemoveById(old(received), requestId) &&
                sent == old(sent) && error == old(error) &&
                success == (if action == Accept then AcceptedMessage else DeclinedMessage)
    {
      var request := FindById(received, requestId);
      if request.None? || user.None? {
        return;
      }
      if !HasId(requests, requestId) {
        error := "Failed to " + ActionWord(action) + " request";
        return;
      }
      WriteAnswer(request.value, action, user.value, now);
    }

    /** The successful path of `handleRequest`: write the answer, notify on accept, drop the entry. */
    method WriteAnswer(request: PlayRequest, action: Action, user: AuthUser, now: int)
      modifies this
      ensures requests == AnswerInStore(old(requests), request.id, action, user, now)
      ensures notifications == (if action == Accept
                                then old(notifications) + [AcceptNotification(request, user, now)]
                                else old(notifications))
      ensures received == RemoveById(old(received), request.id)
      ensures sent == old(sent) && error == old(error)
      ensures success == (if action == Accept then AcceptedMessage else DeclinedMessage)
    {
      requests := AnswerInStore(requests, request.id, action, user, now);
      if action == Accept {
        notifications := notifications + [AcceptNotification(request, user, now)];
      }
      received := RemoveById(received, request.id);
      success := if action == Accept then AcceptedMessage else DeclinedMessage;
    }
  }

  /**
   * After an answer is written, a refetch no longer lists the request as
   * received, since its status is no longer 'pending'.
   */
  lemma RefetchDropsAnswered(requests: seq<PlayRequest>, id: string, action: Action,
                             user: AuthUser, now: int, uid: string, r: PlayRequest)
    requires r in ReceivedQuery(AnswerInStore(requests, id, action, user, now), uid)
    ensures r.id != id
  {
    var updated := AnswerInStore(requests, id, action, user, now);
    QueriesSelectExactly(updated, uid, r);
    var i :| 0 <= i < |updated| && updated[i] == r;
  }
}
