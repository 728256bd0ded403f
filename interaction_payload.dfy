/** The decoded body of an interaction callback
    (src/lib/slack/messagePayloads/InteractionPayload.ts): the constructor's
    projections, the action accessors, and the guarded reads of the form
    state `state.values`, which is free-form JSON. */
module InteractionPayloads {
  import opened Wrappers
  import opened Json

  datatype Action = Action(blockId: string, actionId: string, value: Option<string>)

  /** The fields of the callback body that are read. */
  datatype SlackInteraction = SlackInteraction(
    userId: string, channelId: Option<string>, actions: seq<Action>,
    stateValues: Json, messageTs: string, responseUrl: string)

  datatype InteractionPayload = InteractionPayload(
    payload: SlackInteraction,
    userId: string, channelId: Option<string>, timestamp: string,
    primaryActions: seq<Action>, hasMultipleActions: bool, responseUrl: string)

  /** The constructor: the user, channel, message timestamp, actions and
      response URL are projected out, and more than one action is flagged. */
  function NewInteractionPayload(p: SlackInteraction): (ip: InteractionPayload)
    ensures ip.payload == p && ip.primaryActions == p.actions
    ensures ip.userId == p.userId && ip.channelId == p.channelId
    ensures ip.timestamp == p.messageTs && ip.responseUrl == p.responseUrl
    ensures ip.hasMultipleActions <==> |p.actions| > 1
  {
    InteractionPayload(p, p.userId, p.channelId, p.messageTs, p.actions, |p.actions| > 1, p.responseUrl)
  }

  /** The id of the first action; undefined when there is none. */
  function GetActionId(ip: InteractionPayload): (r: Option<string>)
    ensures r.None? <==> |ip.primaryActions| == 0
    ensures r.Some? ==> r.value == ip.primaryActions[0].actionId
  {
    if |ip.primaryActions| == 0 then None else Some(ip.primaryActions[0].actionId)
  }

  /** Every action's id, in action order. */
  function GetActionIds(ip: InteractionPayload): (r: seq<string>)
    ensures |r| == |ip.primaryActions|
    ensures forall i :: 0 <= i < |r| ==> r[i] == ip.primaryActions[i].actionId
  {
    seq(|ip.primaryActions|, i requires 0 <= i < |ip.primaryActions| => ip.primaryActions[i].actionId)
  }

  /** The position of the first action with the id, as `Array.find` scans. */
  function FindAction(actions: seq<Action>, actionId: string): (r: Option<nat>)
    ensures r.None? <==> forall i :: 0 <= i < |actions| ==> actions[i].actionId != actionId
    ensures r.Some? ==> r.value < |actions| && actions[r.value].actionId == actionId
    ensures r.Some? ==> forall i :: 0 <= i < r.value ==> actions[i].actionId != actionId
  {
    if |actions| == 0 then None
    else if actions[0].actionId == actionId then Some(0)
    else
      var r := FindAction(actions[1..], actionId);
      assert forall i :: 1 <= i < |actions| ==> actions[i] == actions[1..][i - 1];
      if r.None? then None else Some(r.value + 1)
  }

  /** The first action with the id, or undefined when none has it. */
  function GetActionById(ip: InteractionPayload, actionId: string): (r: Option<Action>)
    ensures r.None? <==> forall i :: 0 <= i < |ip.payload.actions| ==> ip.payload.actions[i].actionId != actionId
    ensures r.Some? ==> (exists k :: 0 <= k < |ip.payload.actions| && ip.payload.actions[k] == r.value &&
                                     r.value.actionId == actionId &&
                                     forall i :: 0 <= i < k ==> ip.payload.actions[i].actionId != actionId)
  {
    var k := FindAction(ip.payload.actions, actionId);
    if k.None? then None else Some(ip.payload.actions[k.value])
  }

  /** `state.values[blockId]` when it is a truthy non-array object. */
  function GetBlockState(ip: InteractionPayload, blockId: string): (r: Option<Json>)
    ensures r.Some? <==> Get(ip.payload.stateValues, blockId).Some? && Get(ip.payload.stateValues, blockId).value.JObj?
    ensures r.Some? ==> r == Get(ip.payload.stateValues, blockId)
  {
    var blockState := Get(ip.payload.stateValues, blockId);
    if blockState.None? || !Truthy(blockState.value) then None
    else if !blockState.value.JObj? then None
    else blockState
  }

  /** A radio-button state: an object whose type is "radio_buttons". */
  predicate IsRadioButtonState(j: Json) {
    j.JObj? && Get(j, "type") == Some(JStr("radio_buttons"))
  }

  /** The radio-button state under the two ids; undefined when the block or
      the element is missing, is not an object, or is not a radio-button state. */
  function GetRadioButtonState(ip: InteractionPayload, actionBlockId: string, radioMenuBlockId: string): (r: Option<Json>)
    ensures r.Some? <==> (GetBlockState(ip, actionBlockId).Some? &&
                          Get(GetBlockState(ip, actionBlockId).value, radioMenuBlockId).Some? &&
                          IsRadioButtonState(Get(GetBlockState(ip, actionBlockId).value, radioMenuBlockId).value))
    ensures r.Some? ==> r == Get(GetBlockState(ip, actionBlockId).value, radioMenuBlockId) && IsRadioButtonState(r.value)
  {
    var actionBlockState := GetBlockState(ip, actionBlockId);
    if actionBlockState.None? then None
    else
      var radioButtonState := Get(actionBlockState.value, radioMenuBlockId);
      if radioButtonState.None? || !Truthy(radioButtonState.value) then None
      else if !radioButtonState.value.JObj? then None
      else if Get(radioButtonState.value, "type") != Some(JStr("radio_buttons")) then None
      else radioButtonState
  }

  /** A string member, or "" when it is missing or not a string. */
  function StringOrEmpty(j: Option<Json>): string {
    if j.Some? && j.value.JStr? then j.value.str else ""
  }

  /** The element state `state.values[blockId][actionId]`, when present. */
  function ElementState(ip: InteractionPayload, blockId: string, actionId: string): Option<Json> {
    var block := Get(ip.payload.stateValues, blockId);
    if block.None? then None else Get(block.value, actionId)
  }

  /** The element is a radio-button group whose selected option has the value `v`. */
  predicate SelectedRadioValue(ip: InteractionPayload, blockId: string, actionId: string, v: string) {
    var st := ElementState(ip, blockId, actionId);
    st.Some? && Get(st.value, "type") == Some(JStr("radio_buttons")) &&
    Get(st.value, "selected_option").Some? && Get(Get(st.value, "selected_option").value, "value") == Some(JStr(v))
  }

  /** The element is a plain-text input holding the typed value `v`. */
  predicate TypedValue(ip: InteractionPayload, blockId: string, actionId: string, v: string) {
    var st := ElementState(ip, blockId, actionId);
    st.Some? && Get(st.value, "type") == Some(JStr("plain_text_input")) && Get(st.value, "value") == Some(JStr(v))
  }

  /** The submitted value of an input: the selected option's value for radio
      buttons, the typed value for a plain-text input, and "" for any other
      element or when anything on the way is missing. */
  function GetBlockStateValue(ip: InteractionPayload, blockId: string, actionId: string): (r: string)
    ensures forall v :: SelectedRadioValue(ip, blockId, actionId, v) ==> r == v
    ensures forall v :: TypedValue(ip, blockId, actionId, v) ==> r == v
    ensures r != "" ==> SelectedRadioValue(ip, blockId, actionId, r) || TypedValue(ip, blockId, actionId, r)
  {
    var st := ElementState(ip, blockId, actionId);
    if st.None? then ""
    else if Get(st.value, "type") == Some(JStr("radio_buttons")) then
      var selected := Get(st.value, "selected_option");
      if selected.None? then "" else StringOrEmpty(Get(selected.value, "value"))
    else if Get(st.value, "type") == Some(JStr("plain_text_input")) then
      StringOrEmpty(Get(st.value, "value"))
    else ""
  }

  /** A state that is absent reads as the empty string. */
  lemma MissingStateReadsEmpty(ip: InteractionPayload, blockId: string, actionId: string)
    requires Get(ip.payload.stateValues, blockId).None? ||
      Get(Get(ip.payload.stateValues, blockId).value, actionId).None?
    ensures GetBlockStateValue(ip, blockId, actionId) == ""
  {
  }
}
