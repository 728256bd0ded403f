/** The Go rewrite's domain layer (golang_app/internal/domain/request.go and
    authorization.go): request statuses and recipient types are strings with
    a `Valid` check, a new request starts pending, and the authorization
    context decides who may accept, complete or reject a request. Queue
    membership (`Queue.CanRespondToRequests`) and completion rights
    (`Request.CanBeCompletedBy`) are not part of this model and are taken
    as parameters. */
module GoDomain {
  import opened Wrappers

  type RequestStatus = string
  type RecipientType = string

  const Pending: RequestStatus := "pending"
  const Accepted: RequestStatus := "accepted"
  const RejectedStatus: RequestStatus := "rejected"
  const Completed: RequestStatus := "completed"

  const UserRecipient: RecipientType := "user"
  const GroupRecipient: RecipientType := "group"
  const QueueRecipient: RecipientType := "queue"
  /** Used throughout the adapters but declared in no file of this model. */
  const ChannelRecipient: RecipientType := "channel"

  /** `RequestStatus.Valid`: one of the four declared statuses. */
  predicate StatusValid(s: RequestStatus) {
    s == Pending || s == Accepted || s == RejectedStatus || s == Completed
  }

  /** `RequestRecipientType.Valid`: one of the three declared types. */
  predicate RecipientTypeValid(t: RecipientType) {
    t == UserRecipient || t == GroupRecipient || t == QueueRecipient
  }

  datatype Recipient = Recipient(id: string, recipientType: RecipientType)

  /** A request with every field the adapters read; times are instants. */
  datatype Request = Request(
    id: string, title: string, description: string, acceptedById: string,
    createdById: string, recipient: Recipient, status: RequestStatus,
    rejectionReason: string, createdAt: int, updatedAt: int)

  /** A queue with every field the adapters read; nil lists are None. */
  datatype Queue = Queue(
    id: string, channelId: string, name: string, description: string,
    createdById: string, adminIds: Option<seq<string>>, memberIds: Option<seq<string>>,
    createdAt: int, updatedAt: int)

  /** `NewRequest`: pending, with the id, title and creator given, both
      times the clock's, and every other field Go's zero value. */
  function NewRequest(requestId: string, title: string, createdById: string, now: int): (r: Request)
    ensures r.status == Pending && StatusValid(r.status)
    ensures r.id == requestId && r.title == title && r.createdById == createdById
    ensures r.description == "" && r.acceptedById == "" && r.rejectionReason == ""
    ensures r.recipient == Recipient("", "") && r.createdAt == now && r.updatedAt == now
  {
    Request(requestId, title, "", "", createdById, Recipient("", ""), Pending, "", now, now)
  }

  /** Exactly the four declared statuses are valid. */
  lemma ValidStatuses(s: RequestStatus)
    ensures StatusValid(s) <==> s in {"pending", "accepted", "rejected", "completed"}
  {
  }

  /** Exactly the three declared recipient types are valid; a channel recipient is not. */
  lemma ValidRecipientTypes(t: RecipientType)
    ensures RecipientTypeValid(t) <==> t in {"user", "group", "queue"}
    ensures !RecipientTypeValid(ChannelRecipient)
  {
  }

  /** The request, queue and actor an authorization question is about; nil pointers are None. */
  datatype AuthorizationContext = AuthorizationContext(request: Option<Request>, queue: Option<Queue>, actorId: string)

  /** `CanAccept`: never without a request or an actor, never the creator;
      a user recipient only themselves, a channel recipient anyone else, a
      queue recipient whoever the queue lets respond, any other type nobody. */
  function CanAccept(ctx: AuthorizationContext, canRespond: (Queue, string) -> bool): (b: bool)
    ensures ctx.request.None? || ctx.actorId == "" ==> !b
    ensures ctx.request.Some? && ctx.request.value.createdById == ctx.actorId ==> !b
    ensures b ==> ctx.request.Some? && ctx.actorId != "" && ctx.request.value.createdById != ctx.actorId
    ensures b && ctx.request.value.recipient.recipientType == UserRecipient ==> ctx.request.value.recipient.id == ctx.actorId
    ensures b && ctx.request.value.recipient.recipientType == QueueRecipient ==> ctx.queue.Some? && canRespond(ctx.queue.value, ctx.actorId)
    ensures b ==> ctx.request.value.recipient.recipientType in {UserRecipient, ChannelRecipient, QueueRecipient}
  {
    if ctx.request.None? || ctx.actorId == "" then false
    else if ctx.request.value.createdById == ctx.actorId then false
    else
      var recipient := ctx.request.value.recipient;
      if recipient.recipientType == UserRecipient then recipient.id == ctx.actorId
      else if recipient.recipientType == ChannelRecipient then true
      else if recipient.recipientType == QueueRecipient then
        if ctx.queue.None? then false else canRespond(ctx.queue.value, ctx.actorId)
      else false
  }

  /** `CanComplete`: needs a request and an actor; the request decides the rest. */
  function CanComplete(ctx: AuthorizationContext, canBeCompletedBy: (Request, string) -> bool): (b: bool)
    ensures b <==> ctx.request.Some? && ctx.actorId != "" && canBeCompletedBy(ctx.request.value, ctx.actorId)
  {
    if ctx.request.None? || ctx.actorId == "" then false
    else canBeCompletedBy(ctx.request.value, ctx.actorId)
  }

  /** `CanReject`: whoever may accept or complete the request. */
  function CanReject(ctx: AuthorizationContext, canRespond: (Queue, string) -> bool,
                     canBeCompletedBy: (Request, string) -> bool): (b: bool)
    ensures b <==> CanAccept(ctx, canRespond) || CanComplete(ctx, canBeCompletedBy)
  {
    CanAccept(ctx, canRespond) || CanComplete(ctx, canBeCompletedBy)
  }

  /** Among actors who did not create the request: a user recipient admits
      that user alone, a channel recipient admits every actor, and a queue
      recipient admits exactly whom the queue lets respond. */
  lemma AcceptByRecipient(ctx: AuthorizationContext, canRespond: (Queue, string) -> bool)
    requires ctx.request.Some? && ctx.actorId != "" && ctx.request.value.createdById != ctx.actorId
    ensures ctx.request.value.recipient.recipientType == UserRecipient ==>
      (CanAccept(ctx, canRespond) <==> ctx.request.value.recipient.id == ctx.actorId)
    ensures ctx.request.value.recipient.recipientType == ChannelRecipient ==> CanAccept(ctx, canRespond)
    ensures ctx.request.value.recipient.recipientType == QueueRecipient ==>
      (CanAccept(ctx, canRespond) <==> ctx.queue.Some? && canRespond(ctx.queue.value, ctx.actorId))
    ensures ctx.request.value.recipient.recipientType == GroupRecipient ==> !CanAccept(ctx, canRespond)
  {
  }

  /** The creator of a request may reject it only when the request lets them complete it. */
  lemma CreatorRejectsOnlyByCompleting(ctx: AuthorizationContext, canRespond: (Queue, string) -> bool,
                                       canBeCompletedBy: (Request, string) -> bool)
    requires ctx.request.Some? && ctx.request.value.createdById == ctx.actorId
    ensures CanReject(ctx, canRespond, canBeCompletedBy) <==> CanComplete(ctx, canBeCompletedBy)
  {
  }
}
