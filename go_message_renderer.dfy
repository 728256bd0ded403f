/** The blocks of the Go rewrite's request notification
    (golang_app/internal/adapters/secondaryadapters/slackadapter/message_renderer.go,
    `buildRequestNotificationBlocks`, with the builder helpers of
    block_builder.go). Four blocks describe the request; what follows
    depends on its status. The block and action ids the renderer uses are
    declared in no file of this model and are a parameter. */
module GoMessageRenderer {
  import opened GoDomain

  const StylePrimary := "primary"
  const StyleDanger := "danger"

  /** A button: action id, label, value and style ("" for none). */
  datatype GoButton = GoButton(actionId: string, text: string, value: string, style: string)

  /** A section holds markdown text. */
  datatype GoBlock =
    | SectionBlock(text: string)
    | DividerBlock
    | ActionsBlock(blockId: string, buttons: seq<GoButton>)

  datatype NotificationIds = NotificationIds(
    requestActions: string, acceptRequest: string, rejectRequest: string, completeRequest: string)

  function TitleText(r: Request): string {
    "*" + r.title + "*"
  }

  function CreatedByText(r: Request): string {
    "_Created by <@" + r.createdById + ">_"
  }

  /** The four blocks every notification starts with. */
  function BaseBlocks(r: Request): seq<GoBlock> {
    [SectionBlock(TitleText(r)), SectionBlock(r.description), DividerBlock, SectionBlock(CreatedByText(r))]
  }

  function RejectionText(reason: string): string {
    "*Status:* ❌ Rejected" + if reason != "" then "\n_Reason: " + reason + "_" else ""
  }

  /** The two buttons offered for an open request; each carries the request id. */
  function OpenActions(ids: NotificationIds, r: Request, primaryAction: string, primaryText: string): GoBlock {
    ActionsBlock(ids.requestActions, [
      GoButton(primaryAction, primaryText, r.id, StylePrimary),
      GoButton(ids.rejectRequest, "Reject", r.id, StyleDanger)])
  }

  /** Whether any block of the notification offers buttons. */
  predicate HasActions(blocks: seq<GoBlock>) {
    exists i :: 0 <= i < |blocks| && blocks[i].ActionsBlock?
  }

  /** `buildRequestNotificationBlocks`. */
  function BuildRequestNotificationBlocks(ids: NotificationIds, r: Request): (blocks: seq<GoBlock>)
    ensures |blocks| >= 4 && blocks[..4] == BaseBlocks(r)
    ensures r.status == Pending ==>
      blocks == BaseBlocks(r) + [DividerBlock, OpenActions(ids, r, ids.acceptRequest, "Accept")]
    ensures r.status == Accepted ==>
      |blocks| == 7 && blocks[4] == DividerBlock &&
      blocks[5] == SectionBlock("*Status:* Accepted by <@" + r.acceptedById + ">") &&
      blocks[6] == OpenActions(ids, r, ids.completeRequest, "Complete")
    ensures r.status == Completed ==>
      blocks == BaseBlocks(r) + [DividerBlock, SectionBlock("*Status:* ✅ Completed by <@" + r.acceptedById + ">")]
    ensures r.status == RejectedStatus ==> |blocks| == 6 && blocks[5].SectionBlock?
    ensures !StatusValid(r.status) ==> blocks == BaseBlocks(r)
    ensures HasActions(blocks) <==> r.status == Pending || r.status == Accepted
    ensures forall i, j :: 0 <= i < |blocks| && blocks[i].ActionsBlock? && 0 <= j < |blocks[i].buttons| ==>
      blocks[i].buttons[j].value == r.id
  {
    var base := BaseBlocks(r);
    var blocks :=
      if r.status == Pending then
        base + [DividerBlock, OpenActions(ids, r, ids.acceptRequest, "Accept")]
      else if r.status == Accepted then
        base + [DividerBlock, SectionBlock("*Status:* Accepted by <@" + r.acceptedById + ">"),
                OpenActions(ids, r, ids.completeRequest, "Complete")]
      else if r.status == Completed then
        base + [DividerBlock, SectionBlock("*Status:* ✅ Completed by <@" + r.acceptedById + ">")]
      else if r.status == RejectedStatus then
        base + [DividerBlock, SectionBlock(RejectionText(r.rejectionReason))]
      else base;
    assert blocks[..4] == base;
    assert !HasActions(base) by {
      forall i | 0 <= i < 4 ensures !base[i].ActionsBlock? {}
    }
    assert r.status == Pending ==> blocks[5].ActionsBlock?;
    assert r.status == Accepted ==> blocks[6].ActionsBlock?;
    blocks
  }

  /** A rejected request's status line names the reason exactly when there is one. */
  lemma RejectionReasonShownWhenGiven(ids: NotificationIds, r: Request)
    requires r.status == RejectedStatus
    ensures var status := BuildRequestNotificationBlocks(ids, r)[5].text;
      (r.rejectionReason == "" ==> status == "*Status:* ❌ Rejected") &&
      (r.rejectionReason != "" ==> status == "*Status:* ❌ Rejected\n_Reason: " + r.rejectionReason + "_")
  {
  }
}
