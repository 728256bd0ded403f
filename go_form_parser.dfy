/** The Go rewrite's modal-form parser
    (golang_app/internal/adapters/primaryadapters/slack_api_adapter/form_parser.go).
    A submitted view's state is a map from block id to a map from action id
    to the action's state; the parser reads the request and queue forms out
    of it, checking required fields in a fixed order. A Go slice that may be
    nil is an `Option`, `None` being nil. */
module GoFormParser {
  import opened Wrappers
  import opened GoDomain

  /** The fields of `slack.BlockAction` the parser reads; an absent string is "". */
  datatype BlockAction = BlockAction(
    value: string, selectedOptionValue: string, selectedUser: string,
    selectedChannel: string, selectedUsers: Option<seq<string>>)

  type StateValues = map<string, map<string, BlockAction>>

  datatype RequestFormData = RequestFormData(
    title: string, description: string, recipientId: string,
    recipientType: RecipientType, createdById: string)

  datatype QueueFormData = QueueFormData(
    name: string, description: string, adminIds: Option<seq<string>>,
    channelId: string, createdById: string)

  predicate Present(values: StateValues, blockId: string, actionId: string) {
    blockId in values && actionId in values[blockId]
  }

  /** `extractValue`: the typed value, else the selected option's value, else "". */
  function ExtractValue(values: StateValues, blockId: string, actionId: string): (r: string)
    ensures !Present(values, blockId, actionId) ==> r == ""
    ensures Present(values, blockId, actionId) && values[blockId][actionId].value != "" ==>
      r == values[blockId][actionId].value
    ensures Present(values, blockId, actionId) && values[blockId][actionId].value == "" ==>
      r == values[blockId][actionId].selectedOptionValue
  {
    if blockId in values && actionId in values[blockId] then
      var action := values[blockId][actionId];
      if action.value != "" then action.value
      else if action.selectedOptionValue != "" then action.selectedOptionValue
      else ""
    else ""
  }

  /** `extractSelectedUser`: the selected user, or "" when the block or action is absent. */
  function ExtractSelectedUser(values: StateValues, blockId: string, actionId: string): (r: string)
    ensures r == (if Present(values, blockId, actionId) then values[blockId][actionId].selectedUser else "")
  {
    if blockId in values && actionId in values[blockId] then
      var action := values[blockId][actionId];
      if action.selectedUser != "" then action.selectedUser else ""
    else ""
  }

  /** `extractSelectedChannel`: the selected channel, or "" when absent. */
  function ExtractSelectedChannel(values: StateValues, blockId: string, actionId: string): (r: string)
    ensures r == (if Present(values, blockId, actionId) then values[blockId][actionId].selectedChannel else "")
  {
    if blockId in values && actionId in values[blockId] then
      var action := values[blockId][actionId];
      if action.selectedChannel != "" then action.selectedChannel else ""
    else ""
  }

  /** `extractSelectedUsers`: the selected users when there are any, else an
      empty list that is not nil. */
  function ExtractSelectedUsers(values: StateValues, blockId: string, actionId: string): (r: Option<seq<string>>)
    ensures r.Some?
    ensures Present(values, blockId, actionId) && values[blockId][actionId].selectedUsers.Some? ==>
      r.value == values[blockId][actionId].selectedUsers.value
    ensures !(Present(values, blockId, actionId) && values[blockId][actionId].selectedUsers.Some?) ==> r == Some([])
  {
    if blockId in values && actionId in values[blockId] then
      var action := values[blockId][actionId];
      if action.selectedUsers.Some? && |action.selectedUsers.value| > 0 then action.selectedUsers
      else Some([])
    else Some([])
  }

  const RecipientTypeRequired := "recipient type is required"
  const TitleRequired := "title is required"
  const RecipientRequired := "recipient is required"
  const QueueNameRequired := "queue name is required"
  const ChannelRequired := "channel is required"

  function InvalidRecipientType(t: string): string {
    "invalid recipient type: " + t
  }

  function ChosenType(values: StateValues): string {
    ExtractValue(values, "recipient_type_action", "recipient_type_select")
  }

  function Title(values: StateValues): string {
    ExtractValue(values, "request_title_block", "request_title_input")
  }

  /** The recipient read from the selector that matches the type. */
  function RecipientIdFor(values: StateValues, recipientType: string): string
    requires recipientType in {UserRecipient, ChannelRecipient, QueueRecipient}
  {
    if recipientType == UserRecipient then ExtractSelectedUser(values, "user_select_block", "user_select")
    else if recipientType == ChannelRecipient then ExtractSelectedChannel(values, "channel_select_block", "channel_select")
    else ExtractValue(values, "queue_select_block", "queue_select")
  }

  /** `ParseRequestForm` for the view state and the interacting user. */
  function ParseRequestForm(values: StateValues, userId: string): (r: Result<RequestFormData>)
    ensures r.Ok? <==>
      ChosenType(values) != "" && Title(values) != "" &&
      ChosenType(values) in {UserRecipient, ChannelRecipient, QueueRecipient} &&
      RecipientIdFor(values, ChosenType(values)) != ""
    ensures r.Ok? ==>
      && r.value.createdById == userId
      && r.value.title == Title(values)
      && r.value.recipientType == ChosenType(values)
      && r.value.recipientId == RecipientIdFor(values, ChosenType(values))
      && r.value.description == ExtractValue(values, "request_description_block", "request_description_input")
  {
    var recipientType := ChosenType(values);
    if recipientType == "" then Err(RecipientTypeRequired)
    else
      var title := Title(values);
      if title == "" then Err(TitleRequired)
      else
        var description := ExtractValue(values, "request_description_block", "request_description_input");
        if recipientType !in {UserRecipient, ChannelRecipient, QueueRecipient} then Err(InvalidRecipientType(recipientType))
        else
          var recipientId := RecipientIdFor(values, recipientType);
          if recipientId == "" then Err(RecipientRequired)
          else Ok(RequestFormData(title, description, recipientId, recipientType, userId))
  }

  /** The request form's checks come in a fixed order: a missing type is
      reported before a missing title, which is reported before an unknown
      type, which is reported before a missing recipient. */
  lemma RequestFormCheckOrder(values: StateValues, userId: string)
    ensures ChosenType(values) == "" ==> ParseRequestForm(values, userId) == Err(RecipientTypeRequired)
    ensures ChosenType(values) != "" && Title(values) == "" ==>
      ParseRequestForm(values, userId) == Err(TitleRequired)
    ensures (ChosenType(values) != "" && Title(values) != "" &&
             ChosenType(values) !in {UserRecipient, ChannelRecipient, QueueRecipient}) ==>
      ParseRequestForm(values, userId) == Err(InvalidRecipientType(ChosenType(values)))
    ensures (ChosenType(values) in {UserRecipient, ChannelRecipient, QueueRecipient} && Title(values) != "" &&
             RecipientIdFor(values, ChosenType(values)) == "") ==>
      ParseRequestForm(values, userId) == Err(RecipientRequired)
  {
  }

  /** A user recipient is read from the user selector, a channel recipient from
      the channel selector and a queue recipient from the queue selector. */
  lemma RecipientFromMatchingSelector(values: StateValues, userId: string)
    requires ParseRequestForm(values, userId).Ok?
    ensures var d := ParseRequestForm(values, userId).value;
      (d.recipientType == UserRecipient ==>
        d.recipientId == values["user_select_block"]["user_select"].selectedUser) &&
      (d.recipientType == ChannelRecipient ==>
        d.recipientId == values["channel_select_block"]["channel_select"].selectedChannel) &&
      (d.recipientType == QueueRecipient ==>
        Present(values, "queue_select_block", "queue_select"))
  {
  }

  /** `ParseQueueForm` for the view state and the interacting user. */
  function ParseQueueForm(values: StateValues, userId: string): (r: Result<QueueFormData>)
    ensures r.Ok? <==>
      ExtractValue(values, "queue_name_block", "queue_name_input") != "" &&
      ExtractSelectedChannel(values, "queue_channel_block", "queue_channel_select") != ""
    ensures ExtractValue(values, "queue_name_block", "queue_name_input") == "" ==> r == Err(QueueNameRequired)
    ensures (ExtractValue(values, "queue_name_block", "queue_name_input") != "" &&
             ExtractSelectedChannel(values, "queue_channel_block", "queue_channel_select") == "") ==>
      r == Err(ChannelRequired)
    ensures r.Ok? ==>
      && r.value.createdById == userId
      && r.value.adminIds.Some?
      && r.value.name == ExtractValue(values, "queue_name_block", "queue_name_input")
      && r.value.channelId == ExtractSelectedChannel(values, "queue_channel_block", "queue_channel_select")
      && r.value.description == ExtractValue(values, "queue_description_block", "queue_description_input")
  {
    var name := ExtractValue(values, "queue_name_block", "queue_name_input");
    if name == "" then Err(QueueNameRequired)
    else
      var description := ExtractValue(values, "queue_description_block", "queue_description_input");
      var channelId := ExtractSelectedChannel(values, "queue_channel_block", "queue_channel_select");
      if channelId == "" then Err(ChannelRequired)
      else
        var adminIds := ExtractSelectedUsers(values, "queue_admins_block", "queue_admins_select");
        Ok(QueueFormData(name, description, adminIds, channelId, userId))
  }

  /** The description is optional: whatever the description input holds,
      the queue form parses the same way apart from the description. */
  lemma QueueDescriptionOptional(values: StateValues, userId: string, described: BlockAction)
    requires ParseQueueForm(values, userId).Ok?
    ensures var other := values["queue_description_block" := map["queue_description_input" := described]];
      ParseQueueForm(other, userId).Ok? &&
      ParseQueueForm(other, userId).value.(description := "") ==
      ParseQueueForm(values, userId).value.(description := "")
  {
    var other := values["queue_description_block" := map["queue_description_input" := described]];
    assert other["queue_name_block"] == values["queue_name_block"] by {
      assert "queue_name_block" in values;
    }
    if Present(values, "queue_channel_block", "queue_channel_select") {
      assert other["queue_channel_block"] == values["queue_channel_block"];
    }
    if "queue_admins_block" in values {
      assert other["queue_admins_block"] == values["queue_admins_block"];
    }
  }
}
