/** The interaction dispatcher (nodejs_app/src/api/interactions/interactions.controller.ts):
    the id of the first action chooses a handler; the handlers read the
    interaction, change the queue and request repositories and post replies.
    The repositories are an in-memory store (`queues`, `requests`), replies
    and direct messages go to an outbox, and warnings and errors to a log.
    `randomUUID`, `new Date()`, `JSON.parse`/`JSON.stringify` of button
    values, `truncateString` and the exclamation emoji are parameters
    (`Env`). Every `World` function below is the effect of one handler; the
    class methods do the same step by step and are proved against them. */
module InteractionsController {
  import opened Wrappers
  import opened Json
  import opened TextObjects
  import opened Elements
  import opened Blocks
  import opened MessagePayloads
  import opened InteractionPayloads
  import opened CreateQueueForms

  // Action identifiers (nodejs_app/src/common/identifiers.ts); the cancel
  // and submit-new-queue ids are the form's.
  const DeleteQueue: string := "delete-queue"
  const GenerateRequestForm: string := "add-request"
  const NewRequestSubmitted: string := "submit-request"
  const ViewRequests: string := "view-requests"
  const AcceptRequest: string := "accept-request"
  const RejectRequest: string := "reject-request"

  // Block and selection identifiers.
  const DefaultQueueInputId: string := "default-queue-input"
  const CustomQueueInputId: string := "custom-queue-input"
  const NewRequestInput: string := "new-request-input"
  const RequestInputField: string := "request-input-field"

  const MultipleActionsWarning: string := "Interaction payloads with multiple primary actions are not yet supported"
  const MissingActionError: string := "Action content is missing in payload"
  const FormRenderError: string := "Failed to render CreateQueueForm"
  const NeedToSelect: string := " *You need to select a queue type to proceed*"
  const OnlyOne: string := " *You can only select one queue type*"
  const SubmittedMessage: string := "Successfully submitted your request to queue"
  const TitleExcerptLength: nat := 50

  datatype QueueType = UserQueue | ChannelQueue | DefaultQueue

  /** A stored queue (nodejs_app/src/models/Queue.ts). */
  datatype QueueRecord = QueueRecord(
    id: string, name: string, queueType: QueueType, createdAt: int,
    owner: Option<string>, channel: Option<string>)

  datatype RequestStatus = Idle | InProgress | Rejected

  /** A stored request; the creator is whatever the queue's owner field held. */
  datatype RequestRecord = RequestRecord(
    id: string, queueId: string, name: string, description: string,
    createdBy: Option<string>, status: RequestStatus)

  /** The queue a view-requests or submit-request button carries, once parsed. */
  datatype QueueRef = QueueRef(id: string, owner: Option<string>)

  /** What a pick-up or reject button carries, once parsed; the reject button
      leaves out the title and the description. */
  datatype Decision = Decision(
    requestId: string, userId: string, requestTitle: Option<string>,
    requestDescription: Option<string>, requestOwner: Option<string>)

  datatype HandOff = DeleteQueueHandler | RequestFormHandler

  /** What leaves the process: a reply to the interaction's response URL, a
      direct message, or an action passed to a handler outside this model. */
  datatype Outgoing =
    | Reply(url: string, body: Json)
    | DirectMessage(channel: Option<string>, blocks: seq<Block>)
    | HandedOff(handler: HandOff, action: Action)

  datatype Level = Warn | Error

  datatype LogEntry = LogEntry(level: Level, message: string)

  /** The outside world a handler sees: a fresh id, the clock, the ids drawn
      for blocks in construction order, the JSON codec for button values,
      `truncateString` and the exclamation emoji. A decoder returns None
      where `JSON.parse` throws. */
  datatype Env = Env(
    uuid: string, now: int, blockIds: nat -> string,
    decodeQueue: string -> Option<QueueRef>,
    decodeDecision: string -> Option<Decision>,
    encodeDecision: Decision -> string,
    truncate: (Option<string>, nat) -> string,
    exclamation: string)

  datatype World = World(
    queues: seq<QueueRecord>, requests: seq<RequestRecord>,
    outbox: seq<Outgoing>, logs: seq<LogEntry>)

  /** The world after a handler, and whether its promise rejected. */
  datatype Execution = Execution(world: World, threw: bool)

  function Unsupported(actionId: Option<string>): string {
    "Interaction payload with actionId \"" + actionId.GetOr("undefined") + "\" is not currently supported"
  }

  function Known(): set<string> {
    {CancelInteraction, SubmitNewQueue, DeleteQueue, GenerateRequestForm,
     NewRequestSubmitted, ViewRequests, AcceptRequest, RejectRequest}
  }

  /** The cases of the `switch` in `execute`. */
  datatype Case =
    | OnCancel | OnSubmitNewQueue | OnDeleteQueue | OnGenerateRequestForm
    | OnNewRequestSubmitted | OnViewRequests | OnAcceptRequest | OnRejectRequest | OnUnsupported

  /** The case an action id selects; ids are compared in the order of the `switch`. */
  function CaseOf(id: Option<string>): (c: Case)
    ensures c == OnUnsupported <==> id.None? || id.value !in Known()
  {
    if id == Some(CancelInteraction) then OnCancel
    else if id == Some(SubmitNewQueue) then OnSubmitNewQueue
    else if id == Some(DeleteQueue) then OnDeleteQueue
    else if id == Some(GenerateRequestForm) then OnGenerateRequestForm
    else if id == Some(NewRequestSubmitted) then OnNewRequestSubmitted
    else if id == Some(ViewRequests) then OnViewRequests
    else if id == Some(AcceptRequest) then OnAcceptRequest
    else if id == Some(RejectRequest) then OnRejectRequest
    else OnUnsupported
  }

  /** Each of the eight ids selects its own case. */
  lemma CasesOfKnownIds()
    ensures CaseOf(Some(CancelInteraction)) == OnCancel
    ensures CaseOf(Some(SubmitNewQueue)) == OnSubmitNewQueue
    ensures CaseOf(Some(DeleteQueue)) == OnDeleteQueue
    ensures CaseOf(Some(GenerateRequestForm)) == OnGenerateRequestForm
    ensures CaseOf(Some(NewRequestSubmitted)) == OnNewRequestSubmitted
    ensures CaseOf(Some(ViewRequests)) == OnViewRequests
    ensures CaseOf(Some(AcceptRequest)) == OnAcceptRequest
    ensures CaseOf(Some(RejectRequest)) == OnRejectRequest
  {
  }

  // ---- Queue submission ----

  /** What the two form fields say. */
  datatype Selection = NothingSelected | BothSelected | Selected(name: string)

  /** Both empty, both set, or exactly one set, which names the queue. */
  function Choose(d: SubmissionData): (s: Selection)
    ensures s.NothingSelected? <==> d.defaultQueueValue == "" && d.customQueueValue == ""
    ensures s.BothSelected? <==> d.defaultQueueValue != "" && d.customQueueValue != ""
    ensures s.Selected? ==> s.name != "" && (s.name == d.defaultQueueValue || s.name == d.customQueueValue)
    ensures s.Selected? && d.defaultQueueValue == "" ==> s.name == d.customQueueValue
    ensures s.Selected? && d.customQueueValue == "" ==> s.name == d.defaultQueueValue
  {
    if d.defaultQueueValue == "" && d.customQueueValue == "" then NothingSelected
    else if d.defaultQueueValue != "" && d.customQueueValue != "" then BothSelected
    else Selected(if d.defaultQueueValue != "" then d.defaultQueueValue else d.customQueueValue)
  }

  /** The stored default queues, in store order. */
  function DefaultQueueRecords(queues: seq<QueueRecord>): (r: seq<QueueRecord>)
    ensures |r| <= |queues|
  {
    if queues == [] then []
    else (if queues[0].queueType == DefaultQueue then [queues[0]] else []) + DefaultQueueRecords(queues[1..])
  }

  /** The queues as the form shows them. */
  function FormQueues(queues: seq<QueueRecord>): (r: seq<Queue>)
    ensures |r| == |queues|
    ensures forall i :: 0 <= i < |queues| ==> r[i] == Queue(queues[i].id, queues[i].name)
  {
    seq(|queues|, i requires 0 <= i < |queues| => Queue(queues[i].id, queues[i].name))
  }

  /** The form's block ids: its inputs are fixed, the others drawn. */
  function FormIds(env: Env): FormBlockIds {
    FormBlockIds(env.blockIds(0), DefaultQueueInputId, CustomQueueInputId, env.blockIds(1))
  }

  /** A channel queue named `name`, owned by the interacting user. */
  function ChannelQueueFor(ip: InteractionPayload, env: Env, name: string): QueueRecord {
    QueueRecord(env.uuid, name, ChannelQueue, env.now, Some(ip.userId), Some(ip.channelId.GetOr("")))
  }

  function CreatedMessage(name: string): string {
    "Successfully created the new queue \"" + name + "\""
  }

  /** The confirmation: the message alone, replacing the original, ephemeral. */
  function CreatedPayload(name: string): Payload {
    NewPayload(Some(CreatedMessage(name)), []).(replaceOriginal := Some(true), responseType := Some(Ephemeral))
  }

  /** The form again with an alert on top; nothing is sent when it fails to render. */
  function AlertForm(w: World, ip: InteractionPayload, env: Env, alert: Text): World {
    var queues := FormQueues(DefaultQueueRecords(w.queues));
    if |queues| > MaxOptions then w.(logs := w.logs + [LogEntry(Error, FormRenderError)])
    else w.(outbox := w.outbox + [Reply(ip.responseUrl, FormPayload(FormIds(env), queues, Some(alert)).Render())])
  }

  function QueueSubmitted(w: World, ip: InteractionPayload, env: Env): World {
    match Choose(GetData(ip, FormIds(env)))
    case NothingSelected => AlertForm(w, ip, env, Mrkdwn(env.exclamation + NeedToSelect))
    case BothSelected => AlertForm(w, ip, env, Mrkdwn(env.exclamation + OnlyOne))
    case Selected(name) =>
      w.(queues := w.queues + [ChannelQueueFor(ip, env, name)],
         outbox := w.outbox + [Reply(ip.responseUrl, CreatedPayload(name).Render())])
  }

  // ---- Requests ----

  /** The value of the first action with the id, if there is one and it has a value. */
  function ActionValue(ip: InteractionPayload, actionId: string): Option<string> {
    var a := GetActionById(ip, actionId);
    if a.None? then None else a.value.value
  }

  function SubmittedPayload(env: Env): Payload {
    NewPayload(None, [Section(env.blockIds(0), Plain(SubmittedMessage))])
  }

  /** A new request in the queue the button names, created by that queue's
      owner, idle; the text typed into the request field is its description. */
  function SubmitRequest(w: World, ip: InteractionPayload, env: Env): Execution {
    var value := ActionValue(ip, NewRequestSubmitted);
    if value.None? || env.decodeQueue(value.value).None? then Execution(w, true)
    else
      var queue := env.decodeQueue(value.value).value;
      var request := RequestRecord(env.uuid, queue.id, "name", GetBlockStateValue(ip, NewRequestInput, RequestInputField),
                                   queue.owner, Idle);
      Execution(w.(requests := w.requests + [request],
                   outbox := w.outbox + [Reply(ip.responseUrl, SubmittedPayload(env).Render())]), false)
  }

  /** The requests of one queue, in store order. */
  function RequestsOfQueue(requests: seq<RequestRecord>, queueId: string): (r: seq<RequestRecord>)
    ensures |r| <= |requests|
  {
    if requests == [] then []
    else (if requests[0].queueId == queueId then [requests[0]] else []) + RequestsOfQueue(requests[1..], queueId)
  }

  /** `<@creator>: description`; an undefined creator reads "undefined". */
  function Summary(r: RequestRecord): string {
    "<@" + r.createdBy.GetOr("undefined") + ">: " + r.description
  }

  function PickUpButton(r: RequestRecord, userId: string, env: Env): Button {
    SetValue(NewButton(Plain("Pick up request"), Some(Primary), AcceptRequest),
             env.encodeDecision(Decision(r.id, userId, Some(r.name), Some(r.description), r.createdBy)))
  }

  function RejectButton(r: RequestRecord, userId: string, env: Env): Button {
    SetValue(NewButton(Plain("Reject"), None, RejectRequest),
             env.encodeDecision(Decision(r.id, userId, None, None, r.createdBy)))
  }

  /** The three blocks listed for the `k`-th request: its summary, its two
      buttons, a divider; their ids are the draws 3k, 3k+1 and 3k+2. */
  function RequestBlocks(r: RequestRecord, k: nat, userId: string, env: Env): seq<Block> {
    [Section(env.blockIds(3 * k), Mrkdwn(Summary(r))),
     Actions(env.blockIds(3 * k + 1), [ButtonElement(PickUpButton(r, userId, env)), ButtonElement(RejectButton(r, userId, env))]),
     Divider(env.blockIds(3 * k + 2))]
  }

  /** The blocks the listing loop builds, request after request. */
  function ListingBlocks(requests: seq<RequestRecord>, userId: string, env: Env): seq<Block> {
    if requests == [] then []
    else ListingBlocks(requests[..|requests| - 1], userId, env) + RequestBlocks(requests[|requests| - 1], |requests| - 1, userId, env)
  }

  /** The listing: a header, the listed blocks, and a cancel button. */
  function ListingPayload(requests: seq<RequestRecord>, userId: string, env: Env): Payload {
    var n := |requests|;
    NewPayload(None, [Header(env.blockIds(3 * n), Plain("Requests"))] + ListingBlocks(requests, userId, env)
                     + [Actions(env.blockIds(3 * n + 1), [ButtonElement(CancelButton())])])
  }

  function ListRequests(w: World, ip: InteractionPayload, env: Env): Execution {
    var value := ActionValue(ip, ViewRequests);
    if value.None? || env.decodeQueue(value.value).None? then Execution(w, true)
    else
      var listed := RequestsOfQueue(w.requests, env.decodeQueue(value.value).value.id);
      Execution(w.(outbox := w.outbox + [Reply(ip.responseUrl, ListingPayload(listed, ip.userId, env).Render())]), false)
  }

  /** Every request with the id gets the status, whatever it had before. */
  function SetStatus(requests: seq<RequestRecord>, id: string, status: RequestStatus): (r: seq<RequestRecord>)
    ensures |r| == |requests|
    ensures forall i :: 0 <= i < |requests| ==> r[i].id == requests[i].id && r[i].queueId == requests[i].queueId
    ensures forall i :: 0 <= i < |requests| ==>
      r[i].status == (if requests[i].id == id then status else requests[i].status)
    ensures forall i :: 0 <= i < |requests| ==> r[i] == requests[i].(status := r[i].status)
  {
    seq(|requests|, i requires 0 <= i < |requests| =>
      if requests[i].id == id then requests[i].(status := status) else requests[i])
  }

  /** The request's title, or the start of its description when the title is empty. */
  function Subject(d: Decision, env: Env): string {
    if d.requestTitle.Some? && d.requestTitle.value != "" then d.requestTitle.value
    else env.truncate(d.requestDescription, TitleExcerptLength)
  }

  function Notice(d: Decision, verb: string, env: Env): seq<Block> {
    [Section(env.blockIds(0), Mrkdwn("<@" + d.userId + "> " + verb + " your request \"" + Subject(d, env) + "\""))]
  }

  /** Accept or reject: set the status, tell the request's owner, reply. */
  function Decide(w: World, ip: InteractionPayload, env: Env, actionId: string, status: RequestStatus,
                  verb: string, reply: string): Execution
  {
    var value := ActionValue(ip, actionId);
    if value.None? || env.decodeDecision(value.value).None? then Execution(w, true)
    else
      var d := env.decodeDecision(value.value).value;
      Execution(w.(requests := SetStatus(w.requests, d.requestId, status),
                   outbox := w.outbox + [DirectMessage(d.requestOwner, Notice(d, verb, env)),
                                         Reply(ip.responseUrl, NewPayload(Some(reply), []).Render())]), false)
  }

  function AcceptRequestOf(w: World, ip: InteractionPayload, env: Env): Execution {
    Decide(w, ip, env, AcceptRequest, InProgress, "has picked up", "Request accepted")
  }

  function RejectRequestOf(w: World, ip: InteractionPayload, env: Env): Execution {
    Decide(w, ip, env, RejectRequest, Rejected, "has rejected", "Request rejected")
  }

  // ---- Dispatch ----

  /** The cancel reply: delete the original message. */
  function CancelPayload(): Payload {
    NewPayload(None, []).(deleteOriginal := Some(true))
  }

  /** Hands the action to its handler, or logs an error when it is absent. */
  function HandOffOrLogged(w: World, ip: InteractionPayload, actionId: string, handler: HandOff): World {
    var a := GetActionById(ip, actionId);
    if a.None? then w.(logs := w.logs + [LogEntry(Error, MissingActionError)])
    else w.(outbox := w.outbox + [HandedOff(handler, a.value)])
  }

  /** The warning `execute` logs first when the interaction carries several actions. */
  function Warned(w: World, ip: InteractionPayload): World {
    if ip.hasMultipleActions then w.(logs := w.logs + [LogEntry(Warn, MultipleActionsWarning)]) else w
  }

  /** `execute`: a warning for several actions, then the handler of the first action's id. */
  function Dispatch(w: World, ip: InteractionPayload, env: Env): Execution {
    var w := Warned(w, ip);
    match CaseOf(GetActionId(ip))
    case OnCancel => Execution(w.(outbox := w.outbox + [Reply(ip.responseUrl, CancelPayload().Render())]), false)
    case OnSubmitNewQueue => Execution(QueueSubmitted(w, ip, env), false)
    case OnDeleteQueue => Execution(HandOffOrLogged(w, ip, DeleteQueue, DeleteQueueHandler), false)
    case OnGenerateRequestForm => Execution(HandOffOrLogged(w, ip, GenerateRequestForm, RequestFormHandler), false)
    case OnNewRequestSubmitted => SubmitRequest(w, ip, env)
    case OnViewRequests => ListRequests(w, ip, env)
    case OnAcceptRequest => AcceptRequestOf(w, ip, env)
    case OnRejectRequest => RejectRequestOf(w, ip, env)
    case OnUnsupported => Execution(w.(logs := w.logs + [LogEntry(Warn, Unsupported(GetActionId(ip)))]), false)
  }

  /** A queue submission is handed to `handleQueueSubmitted`. */
  lemma RoutesSubmission(w: World, ip: InteractionPayload, env: Env)
    requires GetActionId(ip) == Some(SubmitNewQueue)
    ensures Dispatch(w, ip, env) == Execution(QueueSubmitted(Warned(w, ip), ip, env), false)
  {
    CasesOfKnownIds();
  }

  /** An accept or reject button is handed to the matching decision. */
  lemma RoutesDecision(w: World, ip: InteractionPayload, env: Env)
    requires GetActionId(ip) == Some(AcceptRequest) || GetActionId(ip) == Some(RejectRequest)
    ensures Dispatch(w, ip, env) ==
      if GetActionId(ip) == Some(AcceptRequest) then AcceptRequestOf(Warned(w, ip), ip, env)
      else RejectRequestOf(Warned(w, ip), ip, env)
  {
    CasesOfKnownIds();
  }

  // ---- Properties ----

  /** An unknown (or missing) action id only logs a warning: no reply, no change to the store. */
  lemma UnknownActionOnlyWarns(w: World, ip: InteractionPayload, env: Env)
    requires GetActionId(ip).None? || GetActionId(ip).value !in Known()
    ensures var e := Dispatch(w, ip, env);
      !e.threw && e.world.queues == w.queues && e.world.requests == w.requests && e.world.outbox == w.outbox &&
      |e.world.logs| > 0 && e.world.logs[|e.world.logs| - 1] == LogEntry(Warn, Unsupported(GetActionId(ip)))
  {
  }

  /** The id dispatched on is the first action's, so looking it up again always
      finds an action: `execute` never reaches the missing-action branch. */
  lemma DispatchedActionIsFound(p: SlackInteraction, actionId: string)
    requires GetActionId(NewInteractionPayload(p)) == Some(actionId)
    ensures GetActionById(NewInteractionPayload(p), actionId) == Some(p.actions[0])
  {
    var ip := NewInteractionPayload(p);
    var r := GetActionById(ip, actionId);
    assert p.actions[0].actionId == actionId;
    assert r.Some?;
    var k :| 0 <= k < |p.actions| && p.actions[k] == r.value && r.value.actionId == actionId &&
             forall i :: 0 <= i < k ==> p.actions[i].actionId != actionId;
    assert k == 0;
  }

  /** A missing delete-queue or add-request action logs an error and sends nothing. */
  lemma MissingActionSendsNothing(w: World, ip: InteractionPayload, actionId: string, handler: HandOff)
    requires GetActionById(ip, actionId).None?
    ensures HandOffOrLogged(w, ip, actionId, handler) == w.(logs := w.logs + [LogEntry(Error, MissingActionError)])
  {
  }

  /** With neither field filled in, or both, the form comes back with an alert
      (when it renders) and no queue is created. */
  lemma UnclearSelectionCreatesNoQueue(w: World, ip: InteractionPayload, env: Env)
    requires GetActionId(ip) == Some(SubmitNewQueue)
    requires var d := GetData(ip, FormIds(env)); (d.defaultQueueValue == "") == (d.customQueueValue == "")
    ensures var e := Dispatch(w, ip, env);
      var d := GetData(ip, FormIds(env));
      var queues := FormQueues(DefaultQueueRecords(w.queues));
      var alert := Mrkdwn(env.exclamation + (if d.defaultQueueValue == "" then NeedToSelect else OnlyOne));
      !e.threw && e.world.queues == w.queues && e.world.requests == w.requests &&
      e.world.outbox == w.outbox + (if |queues| <= MaxOptions then [Reply(ip.responseUrl, FormPayload(FormIds(env), queues, Some(alert)).Render())] else [])
  {
    RoutesSubmission(w, ip, env);
    UnclearSelectionAlerts(Warned(w, ip), ip, env);
    var d := GetData(ip, FormIds(env));
    AlertFormKeepsStore(Warned(w, ip), ip, env, Mrkdwn(env.exclamation + (if d.defaultQueueValue == "" then NeedToSelect else OnlyOne)));
  }

  /** `handleQueueSubmitted` with neither field or both filled in. */
  lemma UnclearSelectionAlerts(w: World, ip: InteractionPayload, env: Env)
    requires var d := GetData(ip, FormIds(env)); (d.defaultQueueValue == "") == (d.customQueueValue == "")
    ensures var d := GetData(ip, FormIds(env));
      var alert := Mrkdwn(env.exclamation + (if d.defaultQueueValue == "" then NeedToSelect else OnlyOne));
      QueueSubmitted(w, ip, env) == AlertForm(w, ip, env, alert)
  {
  }

  /** The alert form touches neither store and posts at most the form. */
  lemma AlertFormKeepsStore(w: World, ip: InteractionPayload, env: Env, alert: Text)
    ensures var v := AlertForm(w, ip, env, alert);
      var queues := FormQueues(DefaultQueueRecords(w.queues));
      v.queues == w.queues && v.requests == w.requests &&
      v.outbox == w.outbox + (if |queues| <= MaxOptions then [Reply(ip.responseUrl, FormPayload(FormIds(env), queues, Some(alert)).Render())] else [])
  {
  }

  /** With exactly one field filled in, one channel queue named by it and owned
      by the user is created, and the confirmation replaces the form. */
  lemma OneSelectionCreatesQueue(w: World, ip: InteractionPayload, env: Env)
    requires GetActionId(ip) == Some(SubmitNewQueue)
    requires var d := GetData(ip, FormIds(env)); (d.defaultQueueValue == "") != (d.customQueueValue == "")
    ensures var e := Dispatch(w, ip, env);
      var d := GetData(ip, FormIds(env));
      var name := d.defaultQueueValue + d.customQueueValue;
      !e.threw && |e.world.queues| == |w.queues| + 1 && e.world.queues[..|w.queues|] == w.queues &&
      var q := e.world.queues[|w.queues|];
      q.name == name && q.queueType == ChannelQueue && q.owner == Some(ip.userId) &&
      q.channel == Some(ip.channelId.GetOr("")) && q.id == env.uuid &&
      e.world.requests == w.requests && |e.world.outbox| == |w.outbox| + 1 &&
      var reply := e.world.outbox[|w.outbox|];
      reply.Reply? && reply.url == ip.responseUrl &&
      Get(reply.body, "text") == Some(JStr(CreatedMessage(name))) &&
      Get(reply.body, "replace_original") == Some(JStr("true"))
  {
    RoutesSubmission(w, ip, env);
    SelectionCreatesQueue(Warned(w, ip), ip, env);
  }

  /** `handleQueueSubmitted` with exactly one field filled in. */
  lemma SelectionCreatesQueue(w: World, ip: InteractionPayload, env: Env)
    requires var d := GetData(ip, FormIds(env)); (d.defaultQueueValue == "") != (d.customQueueValue == "")
    ensures var v := QueueSubmitted(w, ip, env);
      var d := GetData(ip, FormIds(env));
      var name := d.defaultQueueValue + d.customQueueValue;
      v.queues == w.queues + [ChannelQueueFor(ip, env, name)] && v.requests == w.requests &&
      v.outbox == w.outbox + [Reply(ip.responseUrl, CreatedPayload(name).Render())]
  {
    var d := GetData(ip, FormIds(env));
    assert d.defaultQueueValue == "" ==> d.defaultQueueValue + d.customQueueValue == d.customQueueValue;
    assert d.customQueueValue == "" ==> d.defaultQueueValue + d.customQueueValue == d.defaultQueueValue;
  }

  /** A submitted request is stored idle in the queue its button names, created
      by that queue's owner; an absent or unparsable value rejects and changes nothing. */
  lemma SubmittedRequestIsIdle(w: World, ip: InteractionPayload, env: Env)
    requires GetActionId(ip) == Some(NewRequestSubmitted)
    ensures var e := Dispatch(w, ip, env);
      var value := ActionValue(ip, NewRequestSubmitted);
      (e.threw <==> value.None? || env.decodeQueue(value.value).None?) &&
      (e.threw ==> e.world == w.(logs := e.world.logs) && e.world.logs == Dispatch(w, ip, env).world.logs) &&
      (!e.threw ==>
        var queue := env.decodeQueue(value.value).value;
        e.world.queues == w.queues && |e.world.requests| == |w.requests| + 1 &&
        e.world.requests[..|w.requests|] == w.requests &&
        var r := e.world.requests[|w.requests|];
        r.status == Idle && r.queueId == queue.id && r.createdBy == queue.owner && r.id == env.uuid)
  {
    CasesOfKnownIds();
  }

  /** Accepting sets the request in progress and rejecting sets it rejected,
      whatever its status was; the owner is told and the interaction answered. */
  lemma DecisionIgnoresPriorStatus(w: World, ip: InteractionPayload, env: Env)
    requires GetActionId(ip) == Some(AcceptRequest) || GetActionId(ip) == Some(RejectRequest)
    requires ActionValue(ip, GetActionId(ip).value).Some?
    requires env.decodeDecision(ActionValue(ip, GetActionId(ip).value).value).Some?
    ensures var e := Dispatch(w, ip, env);
      var d := env.decodeDecision(ActionValue(ip, GetActionId(ip).value).value).value;
      var status := if GetActionId(ip) == Some(AcceptRequest) then InProgress else Rejected;
      !e.threw && e.world.queues == w.queues && |e.world.requests| == |w.requests| &&
      (forall i :: 0 <= i < |w.requests| ==>
        e.world.requests[i].status == (if w.requests[i].id == d.requestId then status else w.requests[i].status)) &&
      |e.world.outbox| == |w.outbox| + 2 && e.world.outbox[..|w.outbox|] == w.outbox &&
      e.world.outbox[|w.outbox|] == DirectMessage(d.requestOwner, Notice(d, if status == InProgress then "has picked up" else "has rejected", env))
  {
    RoutesDecision(w, ip, env);
    if GetActionId(ip) == Some(AcceptRequest) {
      DecideSetsStatus(Warned(w, ip), ip, env, AcceptRequest, InProgress, "has picked up", "Request accepted");
    } else {
      DecideSetsStatus(Warned(w, ip), ip, env, RejectRequest, Rejected, "has rejected", "Request rejected");
    }
  }

  /** One decision: only the decided request's status changes, the owner is
      told first and the interaction is answered. */
  lemma DecideSetsStatus(w: World, ip: InteractionPayload, env: Env, actionId: string, status: RequestStatus,
                         verb: string, reply: string)
    requires ActionValue(ip, actionId).Some? && env.decodeDecision(ActionValue(ip, actionId).value).Some?
    ensures var e := Decide(w, ip, env, actionId, status, verb, reply);
      var d := env.decodeDecision(ActionValue(ip, actionId).value).value;
      !e.threw && e.world.queues == w.queues && e.world.logs == w.logs && |e.world.requests| == |w.requests| &&
      (forall i :: 0 <= i < |w.requests| ==>
        e.world.requests[i].status == (if w.requests[i].id == d.requestId then status else w.requests[i].status)) &&
      |e.world.outbox| == |w.outbox| + 2 && e.world.outbox[..|w.outbox|] == w.outbox &&
      e.world.outbox[|w.outbox|] == DirectMessage(d.requestOwner, Notice(d, verb, env))
  {
  }

  /** The form offers exactly the stored queues of the default type. */
  lemma {:induction false} DefaultQueuesAreTheStoredDefaults(queues: seq<QueueRecord>, q: QueueRecord)
    ensures q in DefaultQueueRecords(queues) <==> q in queues && q.queueType == DefaultQueue
  {
    if queues != [] {
      assert queues == [queues[0]] + queues[1..];
      DefaultQueuesAreTheStoredDefaults(queues[1..], q);
    }
  }

  /** The listing shows exactly the stored requests of the queue. */
  lemma {:induction false} ListedRequestsAreTheQueues(requests: seq<RequestRecord>, queueId: string, r: RequestRecord)
    ensures r in RequestsOfQueue(requests, queueId) <==> r in requests && r.queueId == queueId
  {
    if requests != [] {
      assert requests == [requests[0]] + requests[1..];
      ListedRequestsAreTheQueues(requests[1..], queueId, r);
    }
  }

  /** The listing holds three blocks per request, in order: the summary, the
      pick-up and reject buttons carrying the request, and a divider. */
  lemma {:induction false} ListingShape(requests: seq<RequestRecord>, userId: string, env: Env)
    ensures |ListingBlocks(requests, userId, env)| == 3 * |requests|
    ensures forall k :: 0 <= k < |requests| ==>
      ListingBlocks(requests, userId, env)[3 * k] == Section(env.blockIds(3 * k), Mrkdwn(Summary(requests[k])))
    ensures forall k :: 0 <= k < |requests| ==>
      ListingBlocks(requests, userId, env)[3 * k + 1].Actions? &&
      ListingBlocks(requests, userId, env)[3 * k + 1].elements ==
        [ButtonElement(PickUpButton(requests[k], userId, env)), ButtonElement(RejectButton(requests[k], userId, env))]
    ensures forall k :: 0 <= k < |requests| ==> ListingBlocks(requests, userId, env)[3 * k + 2].Divider?
  {
    if requests != [] {
      var n := |requests|;
      var prev := requests[..n - 1];
      ListingShape(prev, userId, env);
      var bs := ListingBlocks(requests, userId, env);
      assert bs == ListingBlocks(prev, userId, env) + RequestBlocks(requests[n - 1], n - 1, userId, env);
      forall k | 0 <= k < n
        ensures bs[3 * k] == Section(env.blockIds(3 * k), Mrkdwn(Summary(requests[k])))
        ensures bs[3 * k + 1].Actions? && bs[3 * k + 1].elements ==
          [ButtonElement(PickUpButton(requests[k], userId, env)), ButtonElement(RejectButton(requests[k], userId, env))]
        ensures bs[3 * k + 2].Divider?
      {
        if k < n - 1 {
          assert requests[k] == prev[k];
        }
      }
    }
  }

  /** The pick-up button of a listed request carries everything the accept
      handler reads back: the request, the user, its title, description and creator. */
  lemma PickUpCarriesRequest(r: RequestRecord, userId: string, env: Env)
    ensures PickUpButton(r, userId, env).actionId == AcceptRequest
    ensures PickUpButton(r, userId, env).value == Some(env.encodeDecision(Decision(r.id, userId, Some(r.name), Some(r.description), r.createdBy)))
    ensures RejectButton(r, userId, env).actionId == RejectRequest && RejectButton(r, userId, env).style.None?
  {
  }

  /** The interaction handlers over the store, the outbox and the log. */
  class Controller {
    const ip: InteractionPayload
    const env: Env
    var queues: seq<QueueRecord>
    var requests: seq<RequestRecord>
    var outbox: seq<Outgoing>
    var logs: seq<LogEntry>

    function Value(): World
      reads this
    {
      World(queues, requests, outbox, logs)
    }

    constructor(ip: InteractionPayload, env: Env, queues: seq<QueueRecord>, requests: seq<RequestRecord>)
      ensures this.ip == ip && this.queues == queues && this.requests == requests
      ensures outbox == [] && logs == []
    {
      this.ip := ip;
      this.env := env;
      this.queues := queues;
      this.requests := requests;
      outbox := [];
      logs := [];
    }

    method Execute() returns (threw: bool)
      modifies this
      ensures Execution(Value(), threw) == Dispatch(old(Value()), ip, env)
    {
      if ip.hasMultipleActions {
        logs := logs + [LogEntry(Warn, MultipleActionsWarning)];
      }
      var actionId := GetActionId(ip);
      threw := false;
      match CaseOf(actionId)
      case OnCancel =>
        outbox := outbox + [Reply(ip.responseUrl, CancelPayload().Render())];
      case OnSubmitNewQueue =>
        HandleQueueSubmitted();
      case OnDeleteQueue =>
        HandOffOrLog(DeleteQueue, DeleteQueueHandler);
      case OnGenerateRequestForm =>
        HandOffOrLog(GenerateRequestForm, RequestFormHandler);
      case OnNewRequestSubmitted =>
        threw := HandleSubmitRequest();
      case OnViewRequests =>
        threw := HandleListRequests();
      case OnAcceptRequest =>
        threw := HandleDecision(AcceptRequest, InProgress, "has picked up", "Request accepted");
      case OnRejectRequest =>
        threw := HandleDecision(RejectRequest, Rejected, "has rejected", "Request rejected");
      case OnUnsupported =>
        logs := logs + [LogEntry(Warn, Unsupported(actionId))];
    }

    method HandOffOrLog(actionId: string, handler: HandOff)
      modifies this
      ensures Value() == HandOffOrLogged(old(Value()), ip, actionId, handler)
    {
      var action := GetActionById(ip, actionId);
      if action.None? {
        logs := logs + [LogEntry(Error, MissingActionError)];
        return;
      }
      outbox := outbox + [HandedOff(handler, action.value)];
    }

    method HandleQueueSubmitted()
      modifies this
      ensures Value() == QueueSubmitted(old(Value()), ip, env)
    {
      var data := GetData(ip, FormIds(env));
      if data.defaultQueueValue == "" && data.customQueueValue == "" {
        RenderAlertForm(Mrkdwn(env.exclamation + NeedToSelect));
        return;
      } else if data.defaultQueueValue != "" && data.customQueueValue != "" {
        RenderAlertForm(Mrkdwn(env.exclamation + OnlyOne));
        return;
      }
      var queueName := if data.defaultQueueValue != "" then data.defaultQueueValue else data.customQueueValue;
      CreateQueueForInteractingUser(queueName);
      var payload := new MessagePayload(Some(CreatedMessage(queueName)), []);
      payload := payload.ShouldReplaceOriginal(true);
      payload := payload.SetResponseType(Ephemeral);
      outbox := outbox + [Reply(ip.responseUrl, payload.Render())];
    }

    /** Builds the form over the stored default queues with the alert and posts it. */
    method RenderAlertForm(alert: Text)
      modifies this
      ensures Value() == AlertForm(old(Value()), ip, env, alert)
    {
      var offered := FormQueues(DefaultQueueRecords(queues));
      var rendered := RenderFormWithAlert(offered, alert, FormIds(env));
      var posted, logged := outbox, logs;
      if rendered.Err? {
        logged := logged + [LogEntry(Error, FormRenderError)];
      } else {
        posted := posted + [Reply(ip.responseUrl, rendered.value)];
      }
      outbox, logs := posted, logged;
    }

    method CreateQueueForInteractingUser(name: string)
      modifies this
      ensures queues == old(queues) + [ChannelQueueFor(ip, env, name)]
      ensures requests == old(requests) && outbox == old(outbox) && logs == old(logs)
    {
      var queue := QueueRecord(env.uuid, name, ChannelQueue, env.now, Some(ip.userId), Some(ip.channelId.GetOr("")));
      queues := queues + [queue];
    }

    method HandleSubmitRequest() returns (threw: bool)
      modifies this
      ensures Execution(Value(), threw) == SubmitRequest(old(Value()), ip, env)
    {
      var action := GetActionById(ip, NewRequestSubmitted);
      var inputValue := GetBlockStateValue(ip, NewRequestInput, RequestInputField);
      if action.None? || action.value.value.None? {
        return true;
      }
      var queue := env.decodeQueue(action.value.value.value);
      if queue.None? {
        return true;
      }
      var request := RequestRecord(env.uuid, queue.value.id, "name", inputValue, queue.value.owner, Idle);
      requests := requests + [request];
      var payload := new MessagePayload(None, [Section(env.blockIds(0), Plain(SubmittedMessage))]);
      outbox := outbox + [Reply(ip.responseUrl, payload.Render())];
      return false;
    }

    method HandleListRequests() returns (threw: bool)
      modifies this
      ensures Execution(Value(), threw) == ListRequests(old(Value()), ip, env)
    {
      var action := GetActionById(ip, ViewRequests);
      if action.None? || action.value.value.None? {
        return true;
      }
      var queue := env.decodeQueue(action.value.value.value);
      if queue.None? {
        return true;
      }
      var listed := RequestsOfQueue(requests, queue.value.id);
      var body := RenderListing(listed);
      outbox := outbox + [Reply(ip.responseUrl, body)];
      return false;
    }

    /** The listing message: a header, the requests' blocks and a cancel button. */
    method RenderListing(listed: seq<RequestRecord>) returns (body: Json)
      ensures body == ListingPayload(listed, ip.userId, env).Render()
    {
      var blocks := ListRequestBlocks(listed);
      var n := |listed|;
      var payload := new MessagePayload(None, [Header(env.blockIds(3 * n), Plain("Requests"))] + blocks
                                              + [Actions(env.blockIds(3 * n + 1), [ButtonElement(CancelButton())])]);
      assert payload.Value() == ListingPayload(listed, ip.userId, env);
      body := payload.Render();
    }

    /** The `forEach` over the listed requests, pushing three blocks for each. */
    method ListRequestBlocks(listed: seq<RequestRecord>) returns (blocks: seq<Block>)
      ensures blocks == ListingBlocks(listed, ip.userId, env)
    {
      blocks := [];
      for k := 0 to |listed|
        invariant blocks == ListingBlocks(listed[..k], ip.userId, env)
      {
        var r := listed[k];
        var before := blocks;
        blocks := blocks + [Section(env.blockIds(3 * k), Mrkdwn(Summary(r)))];
        var pickUp := PickUpButton(r, ip.userId, env);
        var reject := RejectButton(r, ip.userId, env);
        blocks := blocks + [Actions(env.blockIds(3 * k + 1), [ButtonElement(pickUp), ButtonElement(reject)])];
        blocks := blocks + [Divider(env.blockIds(3 * k + 2))];
        assert listed[..k + 1][..k] == listed[..k];
        AppendThree(before, RequestBlocks(r, k, ip.userId, env));
      }
      assert listed[..|listed|] == listed;
    }

    method HandleDecision(actionId: string, status: RequestStatus, verb: string, reply: string) returns (threw: bool)
      modifies this
      ensures Execution(Value(), threw) == Decide(old(Value()), ip, env, actionId, status, verb, reply)
    {
      var action := GetActionById(ip, actionId);
      if action.None? || action.value.value.None? {
        return true;
      }
      var decision := env.decodeDecision(action.value.value.value);
      if decision.None? {
        return true;
      }
      var d := decision.value;
      requests := SetStatus(requests, d.requestId, status);
      var payload := new MessagePayload(Some(reply), []);
      outbox := outbox + [DirectMessage(d.requestOwner, Notice(d, verb, env))];
      outbox := outbox + [Reply(ip.responseUrl, payload.Render())];
      return false;
    }
  }

  lemma AppendThree<T>(s: seq<T>, t: seq<T>)
    requires |t| == 3
    ensures s + [t[0]] + [t[1]] + [t[2]] == s + t
  {
  }
}
