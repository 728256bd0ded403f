/** The Go rewrite's form-submission service
    (golang_app/internal/app/services/form_submission_service.go). The
    repositories, the messenger and the renderer are replaced by an
    in-memory store, a list of posted notifications and a log; what the
    outside world answers (a fresh id, the clock, whether building the
    request, a save, a direct message, a post or an `AddAdmin` fails) is an
    `Outcomes` value given to each call. */
module GoFormSubmission {
  import opened Wrappers
  import opened GoDomain
  import GoFormParser
  import opened GoMessageRenderer

  datatype Level = Info | Warn | Error

  datatype LogEntry = LogEntry(level: Level, message: string)

  /** A notification posted to a channel. */
  datatype Notification = Notification(channelId: string, blocks: seq<GoBlock>)

  /** What the collaborators answer during one call: `None` is success, a
      message is the error returned. `openDm` answers `SendDirectMessage`
      with the channel it opened or an error; `addAdminError` answers
      `AddAdmin` given the admins the queue already has and the id added. */
  datatype Outcomes = Outcomes(
    newId: string, now: int,
    newRequestError: Option<string>,
    saveError: Option<string>,
    openDm: Result<string>,
    postError: Option<string>,
    addAdminError: (seq<string>, string) -> Option<string>,
    ids: NotificationIds)

  /** The state the service's collaborators hold. */
  datatype Store = Store(
    requests: seq<Request>, queues: seq<Queue>,
    notifications: seq<Notification>, logs: seq<LogEntry>)

  const TitleRequired := "request title is required"
  const RecipientIdRequired := "recipient is required"
  const InvalidType := "invalid recipient type"
  const QueueNameRequired := "queue name is required"
  const QueueChannelRequired := "queue channel is required"
  const CreatorRequired := "creator ID is required"
  const CreateRequestFailed := "failed to create request: "

  /** The request a valid form describes: pending, with the form's fields. */
  function RequestFrom(form: GoFormParser.RequestFormData, out: Outcomes): (r: Request)
    ensures r.status == Pending && r.id == out.newId && r.createdById == form.createdById
    ensures r.title == form.title && r.description == form.description
    ensures r.recipient == Recipient(form.recipientId, form.recipientType)
  {
    NewRequest(out.newId, form.title, form.createdById, out.now)
      .(recipient := Recipient(form.recipientId, form.recipientType), description := form.description)
  }

  /** `sendNotification`: the channel the notification goes to, or the error. */
  function NotificationChannel(r: Request, out: Outcomes): (c: Result<string>)
    ensures c.Ok? && r.recipient.recipientType != UserRecipient ==> c.value == r.recipient.id
    ensures r.recipient.recipientType !in {UserRecipient, ChannelRecipient, QueueRecipient} ==> c.Err?
  {
    if r.recipient.recipientType == UserRecipient then
      match out.openDm
      case Ok(channel) => Ok(channel)
      case Err(e) => Err("failed to open DM channel: " + e)
    else if r.recipient.recipientType == ChannelRecipient || r.recipient.recipientType == QueueRecipient then
      Ok(r.recipient.id)
    else Err("unknown recipient type: " + r.recipient.recipientType)
  }

  /** The store after `sendNotification`, and its error. */
  function Notified(s: Store, r: Request, out: Outcomes): (Store, Option<string>) {
    match NotificationChannel(r, out)
    case Err(e) => (s, Some(e))
    case Ok(channel) =>
      if out.postError.Some? then
        (s, Some("failed to render notification: failed to post request notification: " + out.postError.value))
      else
        (s.(notifications := s.notifications + [Notification(channel, BuildRequestNotificationBlocks(out.ids, r))]), None)
  }

  /** `HandleRequestFormSubmission`: the new store and the error returned. */
  function RequestSubmitted(s: Store, form: GoFormParser.RequestFormData, out: Outcomes): (Store, Option<string>) {
    if form.title == "" then (s, Some(TitleRequired))
    else if form.recipientId == "" then (s, Some(RecipientIdRequired))
    else if !RecipientTypeValid(form.recipientType) then (s, Some(InvalidType))
    else if out.newRequestError.Some? then (s, Some(CreateRequestFailed + out.newRequestError.value))
    else
      var request := RequestFrom(form, out);
      if out.saveError.Some? then
        (s.(logs := s.logs + [LogEntry(Error, "Failed to save request")]),
         Some("failed to save request: " + out.saveError.value))
      else
        var saved := s.(requests := s.requests + [request], logs := s.logs + [LogEntry(Info, "Request created")]);
        var (notified, err) := Notified(saved, request, out);
        if err.Some? then (notified.(logs := notified.logs + [LogEntry(Error, "Failed to send notification")]), None)
        else (notified, None)
  }

  /** A form with an empty title, an empty recipient or an invalid recipient
      type is refused before anything is saved, posted or logged. */
  lemma InvalidRequestFormChangesNothing(s: Store, form: GoFormParser.RequestFormData, out: Outcomes)
    requires form.title == "" || form.recipientId == "" || !RecipientTypeValid(form.recipientType)
    ensures RequestSubmitted(s, form, out).0 == s && RequestSubmitted(s, form, out).1.Some?
  {
  }

  /** Once a valid request is saved, the submission succeeds whatever the
      direct message or the post answers; the saved request is the last one
      stored, and it is pending. */
  lemma NotificationFailureDoesNotFail(s: Store, form: GoFormParser.RequestFormData, out: Outcomes)
    requires form.title != "" && form.recipientId != "" && RecipientTypeValid(form.recipientType)
    requires out.newRequestError.None? && out.saveError.None?
    ensures var (after, err) := RequestSubmitted(s, form, out);
      err.None? && after.requests == s.requests + [RequestFrom(form, out)] &&
      after.requests[|s.requests|].status == Pending && after.queues == s.queues
  {
    var request := RequestFrom(form, out);
    var saved := s.(requests := s.requests + [request], logs := s.logs + [LogEntry(Info, "Request created")]);
    NotifiedKeepsStore(saved, request, out);
  }

  /** Sending a notification changes neither requests nor queues. */
  lemma NotifiedKeepsStore(s: Store, r: Request, out: Outcomes)
    ensures Notified(s, r, out).0.requests == s.requests && Notified(s, r, out).0.queues == s.queues
  {
  }

  /** A failed save is returned as the error, wrapped, and stores nothing. */
  lemma RequestSaveFailureReturned(s: Store, form: GoFormParser.RequestFormData, out: Outcomes)
    requires form.title != "" && form.recipientId != "" && RecipientTypeValid(form.recipientType)
    requires out.newRequestError.None? && out.saveError.Some?
    ensures var (after, err) := RequestSubmitted(s, form, out);
      err == Some("failed to save request: " + out.saveError.value) &&
      after.requests == s.requests && after.notifications == s.notifications
  {
  }

  /** A request the domain refuses to build is returned as the error,
      wrapped, before anything is saved, posted or logged. */
  lemma RequestCreationFailureReturned(s: Store, form: GoFormParser.RequestFormData, out: Outcomes)
    requires form.title != "" && form.recipientId != "" && RecipientTypeValid(form.recipientType)
    requires out.newRequestError.Some?
    ensures RequestSubmitted(s, form, out) == (s, Some(CreateRequestFailed + out.newRequestError.value))
  {
  }

  /** A request form the parser accepts with a channel recipient is refused
      by the service, since a channel is not a valid recipient type. */
  lemma ChannelRequestsAreRefused(values: GoFormParser.StateValues, userId: string, s: Store, out: Outcomes)
    requires GoFormParser.ParseRequestForm(values, userId).Ok?
    requires GoFormParser.ParseRequestForm(values, userId).value.recipientType == ChannelRecipient
    ensures RequestSubmitted(s, GoFormParser.ParseRequestForm(values, userId).value, out) == (s, Some(InvalidType))
  {
    ValidRecipientTypes(ChannelRecipient);
  }

  /** The admin list after `AddAdmin` was called for `ids` in order, skipping
      the creator, starting from `admins`: a call that fails leaves it as it was. */
  function AdminsAfter(admins: Option<seq<string>>, ids: seq<string>, creator: string,
                       addAdminError: (seq<string>, string) -> Option<string>): Option<seq<string>>
  {
    if ids == [] then admins
    else
      var before := AdminsAfter(admins, ids[..|ids| - 1], creator, addAdminError);
      var id := ids[|ids| - 1];
      if id != creator && addAdminError(before.GetOr([]), id).None? then Some(before.GetOr([]) + [id]) else before
  }

  /** The warnings logged for the same calls: one per failing `AddAdmin`. */
  function AdminWarnings(ids: seq<string>, creator: string, addAdminError: (seq<string>, string) -> Option<string>): seq<LogEntry>
  {
    if ids == [] then []
    else
      var id := ids[|ids| - 1];
      var before := AdminsAfter(None, ids[..|ids| - 1], creator, addAdminError);
      AdminWarnings(ids[..|ids| - 1], creator, addAdminError) +
      if id != creator && addAdminError(before.GetOr([]), id).Some? then [LogEntry(Warn, "Failed to add admin to queue")] else []
  }

  /** The call for the `k`-th listed id succeeded: the id is not the creator
      and `AddAdmin` accepted it given the admins added before it. */
  predicate AddedAt(ids: seq<string>, creator: string, addAdminError: (seq<string>, string) -> Option<string>, k: nat)
    requires k < |ids|
  {
    ids[k] != creator && addAdminError(AdminsAfter(None, ids[..k], creator, addAdminError).GetOr([]), ids[k]).None?
  }

  /** Starting from no admins, an id is an admin exactly when it is not the
      creator and one of its `AddAdmin` calls succeeded: the creator is never
      added. */
  lemma {:induction false} AdminsAreListedNonCreators(ids: seq<string>, creator: string,
                                                      addAdminError: (seq<string>, string) -> Option<string>, a: string)
    ensures var admins := AdminsAfter(None, ids, creator, addAdminError).GetOr([]);
      a in admins <==> a != creator && exists k :: 0 <= k < |ids| && ids[k] == a && AddedAt(ids, creator, addAdminError, k)
  {
    if ids != [] {
      var init := ids[..|ids| - 1];
      AdminsAreListedNonCreators(init, creator, addAdminError, a);
      assert forall k :: 0 <= k < |init| ==> ids[..k] == init[..k];
      assert forall k :: 0 <= k < |init| ==> (AddedAt(ids, creator, addAdminError, k) <==> AddedAt(init, creator, addAdminError, k));
      assert ids[..|init|] == init;
      var admins := AdminsAfter(None, ids, creator, addAdminError).GetOr([]);
      if a in admins {
        if a !in AdminsAfter(None, init, creator, addAdminError).GetOr([]) {
          assert AddedAt(ids, creator, addAdminError, |init|);
        }
      }
      if a != creator && exists k :: 0 <= k < |ids| && ids[k] == a && AddedAt(ids, creator, addAdminError, k) {
        var k :| 0 <= k < |ids| && ids[k] == a && AddedAt(ids, creator, addAdminError, k);
        if k < |init| {
          assert init[k] == a && AddedAt(init, creator, addAdminError, k);
        }
      }
    }
  }

  /** When `AddAdmin` refuses nothing, the admins are exactly the listed ids
      other than the creator. */
  lemma AdminsWhenNothingRefused(ids: seq<string>, creator: string,
                                 addAdminError: (seq<string>, string) -> Option<string>, a: string)
    requires forall admins, id :: addAdminError(admins, id).None?
    ensures a in AdminsAfter(None, ids, creator, addAdminError).GetOr([]) <==> a in ids && a != creator
  {
    AdminsAreListedNonCreators(ids, creator, addAdminError, a);
    if a in ids && a != creator {
      var k :| 0 <= k < |ids| && ids[k] == a;
      assert AddedAt(ids, creator, addAdminError, k);
    }
  }

  /** The queue a valid form describes, before any admin is added. */
  function QueueFrom(form: GoFormParser.QueueFormData, out: Outcomes): (q: Queue)
    ensures q.id == out.newId && q.name == form.name && q.createdById == form.createdById
    ensures q.channelId == form.channelId && q.description == form.description && q.adminIds.None?
  {
    Queue(out.newId, form.channelId, form.name, form.description, form.createdById, None, None, out.now, out.now)
  }

  /** `HandleQueueFormSubmission`: the new store and the error returned. */
  function QueueSubmitted(s: Store, form: GoFormParser.QueueFormData, out: Outcomes): (Store, Option<string>) {
    if form.name == "" then (s, Some(QueueNameRequired))
    else if form.channelId == "" then (s, Some(QueueChannelRequired))
    else if form.createdById == "" then (s, Some(CreatorRequired))
    else
      var ids := form.adminIds.GetOr([]);
      var queue := QueueFrom(form, out).(adminIds := AdminsAfter(None, ids, form.createdById, out.addAdminError));
      var warned := s.logs + AdminWarnings(ids, form.createdById, out.addAdminError);
      if out.saveError.Some? then
        (s.(logs := warned + [LogEntry(Error, "Failed to save queue")]),
         Some("failed to save queue: " + out.saveError.value))
      else
        (s.(queues := s.queues + [queue], logs := warned + [LogEntry(Info, "Queue created")]), None)
  }

  /** A queue form with an empty name, channel or creator is refused before
      anything is saved or logged. */
  lemma InvalidQueueFormChangesNothing(s: Store, form: GoFormParser.QueueFormData, out: Outcomes)
    requires form.name == "" || form.channelId == "" || form.createdById == ""
    ensures QueueSubmitted(s, form, out).0 == s && QueueSubmitted(s, form, out).1.Some?
  {
  }

  /** A stored queue never lists its creator among its admins. */
  lemma StoredQueueOmitsCreator(s: Store, form: GoFormParser.QueueFormData, out: Outcomes)
    requires QueueSubmitted(s, form, out).1.None?
    ensures var after := QueueSubmitted(s, form, out).0;
      |after.queues| == |s.queues| + 1 &&
      after.queues[|s.queues|].createdById == form.createdById &&
      form.createdById !in after.queues[|s.queues|].adminIds.GetOr([])
  {
    AdminsAreListedNonCreators(form.adminIds.GetOr([]), form.createdById, out.addAdminError, form.createdById);
  }

  /** A failed queue save is returned as the error, wrapped, and stores nothing. */
  lemma QueueSaveFailureReturned(s: Store, form: GoFormParser.QueueFormData, out: Outcomes)
    requires form.name != "" && form.channelId != "" && form.createdById != ""
    requires out.saveError.Some?
    ensures QueueSubmitted(s, form, out).1 == Some("failed to save queue: " + out.saveError.value)
    ensures QueueSubmitted(s, form, out).0.queues == s.queues
  {
  }

  /** The service with the state of its collaborators. */
  class FormSubmissionService {
    var requests: seq<Request>
    var queues: seq<Queue>
    var notifications: seq<Notification>
    var logs: seq<LogEntry>

    function Value(): Store
      reads this
    {
      Store(requests, queues, notifications, logs)
    }

    constructor(initial: Store)
      ensures Value() == initial
    {
      requests := initial.requests;
      queues := initial.queues;
      notifications := initial.notifications;
      logs := initial.logs;
    }

    /** `sendNotification`. */
    method SendNotification(request: Request, out: Outcomes) returns (err: Option<string>)
      modifies this
      ensures (Value(), err) == Notified(old(Value()), request, out)
    {
      var channelId: string;
      if request.recipient.recipientType == UserRecipient {
        if out.openDm.Err? {
          return Some("failed to open DM channel: " + out.openDm.msg);
        }
        channelId := out.openDm.value;
      } else if request.recipient.recipientType == ChannelRecipient || request.recipient.recipientType == QueueRecipient {
        channelId := request.recipient.id;
      } else {
        return Some("unknown recipient type: " + request.recipient.recipientType);
      }
      if out.postError.Some? {
        return Some("failed to render notification: failed to post request notification: " + out.postError.value);
      }
      notifications := notifications + [Notification(channelId, BuildRequestNotificationBlocks(out.ids, request))];
      err := None;
    }

    /** `HandleRequestFormSubmission`. */
    method HandleRequestFormSubmission(form: GoFormParser.RequestFormData, out: Outcomes) returns (err: Option<string>)
      modifies this
      ensures (Value(), err) == RequestSubmitted(old(Value()), form, out)
    {
      if form.title == "" {
        return Some(TitleRequired);
      }
      if form.recipientId == "" {
        return Some(RecipientIdRequired);
      }
      if !RecipientTypeValid(form.recipientType) {
        return Some(InvalidType);
      }
      if out.newRequestError.Some? {
        return Some(CreateRequestFailed + out.newRequestError.value);
      }
      var request := RequestFrom(form, out);
      if out.saveError.Some? {
        logs := logs + [LogEntry(Error, "Failed to save request")];
        return Some("failed to save request: " + out.saveError.value);
      }
      requests := requests + [request];
      logs := logs + [LogEntry(Info, "Request created")];
      var notifyErr := SendNotification(request, out);
      if notifyErr.Some? {
        logs := logs + [LogEntry(Error, "Failed to send notification")];
      }
      err := None;
    }

    /** `HandleQueueFormSubmission`, with the admin loop as written. */
    method HandleQueueFormSubmission(form: GoFormParser.QueueFormData, out: Outcomes) returns (err: Option<string>)
      modifies this
      ensures (Value(), err) == QueueSubmitted(old(Value()), form, out)
    {
      if form.name == "" {
        return Some(QueueNameRequired);
      }
      if form.channelId == "" {
        return Some(QueueChannelRequired);
      }
      if form.createdById == "" {
        return Some(CreatorRequired);
      }
      var queue := QueueFrom(form, out);
      var ids := form.adminIds.GetOr([]);
      ghost var logs0 := logs;
      for i := 0 to |ids|
        invariant queue == QueueFrom(form, out).(adminIds := AdminsAfter(None, ids[..i], form.createdById, out.addAdminError))
        invariant logs == logs0 + AdminWarnings(ids[..i], form.createdById, out.addAdminError)
        invariant requests == old(requests) && queues == old(queues) && notifications == old(notifications)
      {
        var adminId := ids[i];
        assert ids[..i + 1][..i] == ids[..i];
        if adminId != form.createdById {
          var addErr := out.addAdminError(queue.adminIds.GetOr([]), adminId);
          if addErr.Some? {
            logs := logs + [LogEntry(Warn, "Failed to add admin to queue")];
          } else {
            queue := queue.(adminIds := Some(queue.adminIds.GetOr([]) + [adminId]));
          }
        }
      }
      assert ids[..|ids|] == ids;
      if out.saveError.Some? {
        logs := logs + [LogEntry(Error, "Failed to save queue")];
        return Some("failed to save queue: " + out.saveError.value);
      }
      queues := queues + [queue];
      logs := logs + [LogEntry(Info, "Queue created")];
      err := None;
    }
  }
}
