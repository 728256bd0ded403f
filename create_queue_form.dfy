/** The form that asks which queue to create (src/ui/forms/CreateQueueForm.ts):
    a prompt (or an alert), one radio option per default queue, a free-text
    input for a custom queue, and Create/Cancel buttons. Rendering fails
    with the radio button's message when there are more than ten default
    queues. Block identifiers that the form takes from elsewhere or
    generates are parameters. */
module CreateQueueForms {
  import opened Wrappers
  import opened Json
  import opened TextObjects
  import opened Elements
  import opened Blocks
  import opened MessagePayloads
  import opened InteractionPayloads

  /** The fields of a queue record the form reads. */
  datatype Queue = Queue(id: string, name: string)

  /** The block ids of the four blocks: the two input ids are fixed
      identifiers, the section and action ids are generated. */
  datatype FormBlockIds = FormBlockIds(section: string, defaultQueueInput: string, customQueueInput: string, actions: string)

  const DefaultQueueRadioOption: string := "default-queue-selection"
  const CustomQueueInput: string := "custom-queue-input"
  const SubmitNewQueue: string := "submit-new-queue"
  const CancelInteraction: string := "cancel-interaction"
  const Prompt: string := "*What type of requests should be managed by this queue?*"
  const CustomQueueMaxLength: nat := 256
  const TooManyOptions: string := "Cannot add more than 10 options to Radio Button"

  datatype SubmissionData = SubmissionData(defaultQueueValue: string, customQueueValue: string)

  /** The submitted radio selection and custom text; "" for whatever was not submitted. */
  function GetData(ip: InteractionPayload, ids: FormBlockIds): (d: SubmissionData)
    // a selected default queue is read from the radio buttons
    ensures forall v :: SelectedRadioValue(ip, ids.defaultQueueInput, DefaultQueueRadioOption, v) ==> d.defaultQueueValue == v
    ensures d.defaultQueueValue != "" ==>
      SelectedRadioValue(ip, ids.defaultQueueInput, DefaultQueueRadioOption, d.defaultQueueValue) ||
      TypedValue(ip, ids.defaultQueueInput, DefaultQueueRadioOption, d.defaultQueueValue)
    // a typed custom queue is read from the text input
    ensures forall v :: TypedValue(ip, ids.customQueueInput, CustomQueueInput, v) ==> d.customQueueValue == v
    ensures d.customQueueValue != "" ==>
      SelectedRadioValue(ip, ids.customQueueInput, CustomQueueInput, d.customQueueValue) ||
      TypedValue(ip, ids.customQueueInput, CustomQueueInput, d.customQueueValue)
  {
    SubmissionData(GetBlockStateValue(ip, ids.defaultQueueInput, DefaultQueueRadioOption),
                   GetBlockStateValue(ip, ids.customQueueInput, CustomQueueInput))
  }

  /** A queue offered as a radio option: its name shown, its id sent back. */
  function QueueOption(q: Queue): (o: OptionObject)
    ensures o.text == Plain(q.name) && o.value == q.id
  {
    NewOption(Plain(q.name), q.id)
  }

  /** One option per queue, in the queues' order. */
  function QueueOptions(queues: seq<Queue>): (r: seq<OptionObject>)
    ensures |r| == |queues|
    ensures forall i :: 0 <= i < |queues| ==> r[i].text == Plain(queues[i].name) && r[i].value == queues[i].id
  {
    seq(|queues|, i requires 0 <= i < |queues| => QueueOption(queues[i]))
  }

  /** The input block holding the default-queue radio buttons. */
  function DefaultQueueInput(blockId: string, queues: seq<Queue>): Block {
    Input(blockId, Plain("Default Queues:"),
          RadioElement(RadioButtons(DefaultQueueRadioOption, QueueOptions(queues), None, None, None)),
          false, None, false)
  }

  /** The input block holding the custom-queue text field. */
  function CustomQueueInputBlock(blockId: string): Block {
    Input(blockId, Plain("Custom:"),
          TextInputElement(SetMaxLength(NewPlainTextInput(CustomQueueInput), CustomQueueMaxLength)),
          false, None, false)
  }

  function CreateButton(): Button {
    NewButton(Plain("Create"), Some(Primary), SubmitNewQueue)
  }

  function CancelButton(): Button {
    NewButton(Plain("Cancel"), Some(Danger), CancelInteraction)
  }

  /** The four blocks of the form, in order. */
  function FormBlocks(ids: FormBlockIds, queues: seq<Queue>, alert: Option<Text>): (bs: seq<Block>)
    ensures |bs| == 4
    ensures bs[0].Section? && bs[0].text == (if alert.Some? then alert.value else Mrkdwn(Prompt))
    ensures bs[1].Input? && bs[1].element.RadioElement? && bs[1].element.radio.options == QueueOptions(queues)
    ensures bs[2].Input? && bs[2].element.TextInputElement? && bs[2].element.input.maxLength == Some(CustomQueueMaxLength)
    ensures bs[3].Actions? && bs[3].elements == [ButtonElement(CreateButton()), ButtonElement(CancelButton())]
    ensures forall i :: 0 <= i < 4 ==> bs[i].WellFormed()
  {
    [Section(ids.section, alert.GetOr(Mrkdwn(Prompt))),
     DefaultQueueInput(ids.defaultQueueInput, queues),
     CustomQueueInputBlock(ids.customQueueInput),
     Actions(ids.actions, [ButtonElement(CreateButton()), ButtonElement(CancelButton())])]
  }

  /** The payload the form renders: its blocks, ephemeral, replacing the original. */
  function FormPayload(ids: FormBlockIds, queues: seq<Queue>, alert: Option<Text>): Payload {
    NewPayload(None, FormBlocks(ids, queues, alert)).(responseType := Some(Ephemeral), replaceOriginal := Some(true))
  }

  class CreateQueueForm {
    const defaultQueues: seq<Queue>
    var alert: Option<Text>

    constructor(defaultQueues: seq<Queue>)
      ensures this.defaultQueues == defaultQueues && alert == None
    {
      this.defaultQueues := defaultQueues;
      alert := None;
    }

    /** Replaces the prompt of the form's first section. */
    method SetAlert(markdown: Text)
      modifies this
      ensures alert == Some(markdown)
    {
      alert := Some(markdown);
    }

    /** Adds the queues to a fresh radio button one by one; the eleventh is refused. */
    method GenerateDefaultQueueInput(blockId: string) returns (r: Result<Block>)
      ensures r.Err? <==> |defaultQueues| > MaxOptions
      ensures r.Err? ==> r.msg == TooManyOptions
      ensures r.Ok? ==> r.value == DefaultQueueInput(blockId, defaultQueues)
    {
      var radio := new RadioButton(Some(DefaultQueueRadioOption), "");
      for i := 0 to |defaultQueues|
        invariant radio.Valid()
        invariant i <= MaxOptions
        invariant radio.actionId == DefaultQueueRadioOption
        invariant radio.options == QueueOptions(defaultQueues[..i])
        invariant radio.initialOption == None && radio.confirm == None && radio.focusOnLoad == None
      {
        var added := radio.AddOption(QueueOption(defaultQueues[i]));
        if added.Err? {
          return Err(added.msg);
        }
        assert QueueOptions(defaultQueues[..i + 1]) == QueueOptions(defaultQueues[..i]) + [QueueOption(defaultQueues[i])];
      }
      assert defaultQueues[..|defaultQueues|] == defaultQueues;
      return Ok(Input(blockId, Plain("Default Queues:"), RadioElement(radio.Value()), false, None, false));
    }

    method GenerateCustomQueueInput(blockId: string) returns (b: Block)
      ensures b == CustomQueueInputBlock(blockId)
    {
      var field := NewPlainTextInput(CustomQueueInput);
      field := SetMaxLength(field, CustomQueueMaxLength);
      return Input(blockId, Plain("Custom:"), TextInputElement(field), false, None, false);
    }

    /** The rendered form, or the radio button's error when there are too many default queues. */
    method Render(ids: FormBlockIds) returns (r: Result<Json>)
      ensures r.Err? <==> |defaultQueues| > MaxOptions
      ensures r.Err? ==> r.msg == TooManyOptions
      ensures r.Ok? ==> r.value == FormPayload(ids, defaultQueues, alert).Render()
    {
      var defaultQueueInput := GenerateDefaultQueueInput(ids.defaultQueueInput);
      if defaultQueueInput.Err? {
        return Err(defaultQueueInput.msg);
      }
      var customQueueInput := GenerateCustomQueueInput(ids.customQueueInput);
      var headerSection := Section(ids.section, if alert.Some? then alert.value else Mrkdwn(Prompt));
      var actionBlock := NewActionBlock(ids.actions, [ButtonElement(CreateButton()), ButtonElement(CancelButton())]);
      var messageBlocks := [headerSection, defaultQueueInput.value, customQueueInput, actionBlock.value];
      var payload := new MessagePayload(None, messageBlocks);
      var p1 := payload.SetResponseType(Ephemeral);
      var p2 := p1.ShouldReplaceOriginal(true);
      return Ok(p2.Render());
    }
  }

  /** A form over the queues, its prompt replaced by the alert, rendered. */
  method RenderFormWithAlert(queues: seq<Queue>, alert: Text, ids: FormBlockIds) returns (r: Result<Json>)
    ensures r.Err? <==> |queues| > MaxOptions
    ensures r.Ok? ==> r.value == FormPayload(ids, queues, Some(alert)).Render()
  {
    var form := new CreateQueueForm(queues);
    form.SetAlert(alert);
    r := form.Render(ids);
  }

  /** The document the form renders: four blocks in order, replace_original
      as the string 'true', no text and no response type. */
  lemma FormDocument(ids: FormBlockIds, queues: seq<Queue>, alert: Option<Text>)
    ensures var j := FormPayload(ids, queues, alert).Render();
      Get(j, "text") == None && Get(j, "response_type") == None &&
      Get(j, "replace_original") == Some(JStr("true")) &&
      Get(j, "blocks").Some? && Get(j, "blocks").value.JArr? && |Get(j, "blocks").value.items| == 4
  {
  }
}

/** The document the create-queue form renders, written out member by
    member, for the case of no default queues and no alert. */
module CreateQueueFormDocument {
  import opened Wrappers
  import opened Json
  import opened TextObjects
  import opened Elements
  import opened Blocks
  import opened MessagePayloads
  import opened CreateQueueForms

  /** The plain text object as written inside a block, with no emoji flag. */
  function PlainJson(text: string): Json {
    JObj([Field("type", JStr("plain_text")), Field("text", JStr(text))])
  }

  function ButtonJson(text: string, style: string, actionId: string): Json {
    JObj([Field("type", JStr("button")), Field("text", PlainJson(text)), Field("style", JStr(style)),
          Field("action_id", JStr(actionId))])
  }

  lemma PlainJsonIsRender(text: string)
    ensures Plain(text).Render() == PlainJson(text)
  {
    Defined4(("type", Some(JStr(TypeName(PlainTextType)))), ("text", Some(JStr(text))), ("emoji", OptBool(None)), ("verbatim", OptBool(None)));
  }

  function PromptJson(): Json {
    JObj([Field("type", JStr("mrkdwn")), Field("text", JStr(Prompt)), Field("verbatim", JBool(false))])
  }

  lemma PromptJsonIsRender()
    ensures Mrkdwn(Prompt).Render() == PromptJson()
  {
    Defined4(("type", Some(JStr(TypeName(MarkdownType)))), ("text", Some(JStr(Prompt))), ("emoji", OptBool(None)), ("verbatim", OptBool(Some(false))));
  }

  lemma ButtonJsonIsRender(text: string, style: ButtonStyle, actionId: string)
    ensures NewButton(Plain(text), Some(style), actionId).Render() == ButtonJson(text, StyleName(style), actionId)
  {
    PlainJsonIsRender(text);
    Defined5(("type", Some(JStr("button"))), ("text", Some(Plain(text).Render())), ("style", Some(JStr(StyleName(style)))),
             ("action_id", Some(JStr(actionId))), ("value", OptStr(None)));
  }

  function EmptyRadioJson(): Json {
    JObj([Field("type", JStr("radio_buttons")), Field("action_id", JStr(DefaultQueueRadioOption)), Field("options", JArr([]))])
  }

  lemma EmptyRadioJsonIsRender()
    ensures RadioButtons(DefaultQueueRadioOption, QueueOptions([]), None, None, None).Render() == EmptyRadioJson()
  {
    assert RenderOptions(QueueOptions([])) == JArr([]);
    Defined6(("type", Some(JStr("radio_buttons"))), ("action_id", Some(JStr(DefaultQueueRadioOption))),
             ("options", Some(RenderOptions(QueueOptions([])))), ("initial_option", RenderInitial(None)),
             ("confirm", RenderConfirm(None)), ("focus_on_load", OptBool(None)));
  }

  function CustomFieldJson(): Json {
    JObj([Field("type", JStr("plain_text_input")), Field("action_id", JStr(CustomQueueInput)),
          Field("multiline", JBool(false)), Field("max_length", JNum(256)), Field("focus_on_load", JBool(false))])
  }

  lemma CustomFieldJsonIsRender()
    ensures SetMaxLength(NewPlainTextInput(CustomQueueInput), CustomQueueMaxLength).Render() == CustomFieldJson()
  {
    Defined8(("type", Some(JStr("plain_text_input"))), ("action_id", Some(JStr(CustomQueueInput))),
             ("initialValue", OptStr(None)), ("multiline", Some(JBool(false))),
             ("min_length", None), ("max_length", Some(JNum(CustomQueueMaxLength))),
             ("focus_on_load", Some(JBool(false))), ("placeholder", None));
    var f := CustomFieldJson().fields;
    assert Member(("focus_on_load", Some(JBool(false)))) + Member(("placeholder", None)) == f[4..];
    assert Member(("max_length", Some(JNum(CustomQueueMaxLength)))) + f[4..] == f[3..];
    assert Member(("min_length", None)) + f[3..] == f[3..];
    assert Member(("multiline", Some(JBool(false)))) + f[3..] == f[2..];
    assert Member(("initialValue", OptStr(None))) + f[2..] == f[2..];
    assert Member(("action_id", Some(JStr(CustomQueueInput)))) + f[2..] == f[1..];
    assert Member(("type", Some(JStr("plain_text_input")))) + f[1..] == f;
  }

  function InputJson(blockId: string, caption: string, element: Json): Json {
    JObj([Field("block_id", JStr(blockId)), Field("type", JStr("input")), Field("label", PlainJson(caption)),
          Field("element", element), Field("dispatch_action", JBool(false)), Field("optional", JBool(false))])
  }

  lemma InputBlockIsRenderInput(blockId: string, caption: Text, element: Element)
    ensures Input(blockId, caption, element, false, None, false).Render() ==
      RenderInput(blockId, caption.Render(), element.Render(), false, None, false)
  {
  }

  lemma RenderInputJson(blockId: string, caption: string, element: Json)
    ensures RenderInput(blockId, PlainJson(caption), element, false, None, false) == InputJson(blockId, caption, element)
  {
    Defined7(("block_id", Some(JStr(blockId))), ("type", Some(JStr("input"))), ("label", Some(PlainJson(caption))),
             ("element", Some(element)), ("dispatch_action", Some(JBool(false))), ("hint", None),
             ("optional", Some(JBool(false))));
    var f := InputJson(blockId, caption, element).fields;
    assert Member(("hint", None)) + Member(("optional", Some(JBool(false)))) == f[5..];
    assert Member(("dispatch_action", Some(JBool(false)))) + f[5..] == f[4..];
    assert Member(("element", Some(element))) + f[4..] == f[3..];
    assert Member(("label", Some(PlainJson(caption)))) + f[3..] == f[2..];
    assert Member(("type", Some(JStr("input")))) + f[2..] == f[1..];
    assert Member(("block_id", Some(JStr(blockId)))) + f[1..] == f;
  }

  lemma InputJsonIsRender(blockId: string, caption: string, element: Element)
    ensures Input(blockId, Plain(caption), element, false, None, false).Render() == InputJson(blockId, caption, element.Render())
  {
    InputBlockIsRenderInput(blockId, Plain(caption), element);
    PlainJsonIsRender(caption);
    RenderInputJson(blockId, caption, element.Render());
  }

  function ActionsJson(blockId: string): Json {
    JObj([Field("type", JStr("actions")), Field("block_id", JStr(blockId)),
          Field("elements", JArr([ButtonJson("Create", "primary", SubmitNewQueue), ButtonJson("Cancel", "danger", CancelInteraction)]))])
  }

  lemma TwoButtonsJson(b1: Button, b2: Button)
    ensures RenderElements([ButtonElement(b1), ButtonElement(b2)]) == JArr([b1.Render(), b2.Render()])
  {
    var els := [ButtonElement(b1), ButtonElement(b2)];
    var j := RenderElements(els);
    assert j.items[0] == els[0].Render() == b1.Render();
    assert j.items[1] == els[1].Render() == b2.Render();
    SeqOfTwo(j.items, b1.Render(), b2.Render());
  }

  lemma ActionsRender(blockId: string, els: seq<Element>)
    ensures Actions(blockId, els).Render() ==
      JObj([Field("type", JStr("actions")), Field("block_id", JStr(blockId)), Field("elements", RenderElements(els))])
  {
    Defined3(("type", Some(JStr("actions"))), ("block_id", Some(JStr(blockId))), ("elements", Some(RenderElements(els))));
  }

  lemma ActionsWithTwoButtons(blockId: string, b1: Button, b2: Button, j1: Json, j2: Json)
    requires b1.Render() == j1 && b2.Render() == j2
    ensures Actions(blockId, [ButtonElement(b1), ButtonElement(b2)]).Render() ==
      JObj([Field("type", JStr("actions")), Field("block_id", JStr(blockId)), Field("elements", JArr([j1, j2]))])
  {
    TwoButtonsJson(b1, b2);
    ActionsRender(blockId, [ButtonElement(b1), ButtonElement(b2)]);
  }

  lemma ActionsJsonIsRender(blockId: string)
    ensures Actions(blockId, [ButtonElement(CreateButton()), ButtonElement(CancelButton())]).Render() == ActionsJson(blockId)
  {
    ButtonJsonIsRender("Create", Primary, SubmitNewQueue);
    ButtonJsonIsRender("Cancel", Danger, CancelInteraction);
    ActionsWithTwoButtons(blockId, CreateButton(), CancelButton(),
                          ButtonJson("Create", "primary", SubmitNewQueue), ButtonJson("Cancel", "danger", CancelInteraction));
  }

  function SectionJson(blockId: string): Json {
    JObj([Field("type", JStr("section")), Field("block_id", JStr(blockId)), Field("text", PromptJson())])
  }

  lemma SectionIsTextBlock(blockId: string, text: Text)
    ensures Section(blockId, text).Render() == RenderTextBlock("section", blockId, text)
  {
  }

  lemma PromptSectionJson(blockId: string)
    ensures RenderTextBlock("section", blockId, Mrkdwn(Prompt)) == SectionJson(blockId)
  {
    PromptJsonIsRender();
    Defined3(("type", Some(JStr("section"))), ("block_id", Some(JStr(blockId))), ("text", Some(PromptJson())));
  }

  lemma FourBlocksJson(bs: seq<Block>, j0: Json, j1: Json, j2: Json, j3: Json)
    requires |bs| == 4
    requires bs[0].Render() == j0 && bs[1].Render() == j1 && bs[2].Render() == j2 && bs[3].Render() == j3
    ensures RenderBlocks(bs) == JArr([j0, j1, j2, j3])
  {
    SeqOfFour(RenderBlocks(bs).items, j0, j1, j2, j3);
  }

  lemma SeqOfTwo<T>(s: seq<T>, a: T, b: T)
    requires |s| == 2 && s[0] == a && s[1] == b
    ensures s == [a, b]
  {
  }

  lemma SeqOfFour<T>(s: seq<T>, a: T, b: T, c: T, d: T)
    requires |s| == 4 && s[0] == a && s[1] == b && s[2] == c && s[3] == d
    ensures s == [a, b, c, d]
  {
  }

  lemma EphemeralReplacingJson(bs: seq<Block>, blocks: Json)
    requires RenderBlocks(bs) == blocks
    ensures NewPayload(None, bs).(responseType := Some(Ephemeral), replaceOriginal := Some(true)).Render() ==
      JObj([Field("blocks", blocks), Field("replace_original", JStr("true"))])
  {
    Defined4(("text", OptStr(None)), ("blocks", Some(blocks)), ("delete_original", OptBool(None)), ("replace_original", OptStr(Some("true"))));
  }

  lemma DefaultInputJson(blockId: string)
    ensures DefaultQueueInput(blockId, []).Render() == InputJson(blockId, "Default Queues:", EmptyRadioJson())
  {
    var radio := RadioButtons(DefaultQueueRadioOption, QueueOptions([]), None, None, None);
    EmptyRadioJsonIsRender();
    assert RadioElement(radio).Render() == EmptyRadioJson();
    InputJsonIsRender(blockId, "Default Queues:", RadioElement(radio));
  }

  lemma CustomInputJson(blockId: string)
    ensures CustomQueueInputBlock(blockId).Render() == InputJson(blockId, "Custom:", CustomFieldJson())
  {
    var field := SetMaxLength(NewPlainTextInput(CustomQueueInput), CustomQueueMaxLength);
    CustomFieldJsonIsRender();
    assert TextInputElement(field).Render() == CustomFieldJson();
    InputJsonIsRender(blockId, "Custom:", TextInputElement(field));
  }

  /** With no default queues and no alert, the document is exactly the one
      the command's acceptance scenario expects (in the render's key order;
      the block ids are whatever was generated). */
  lemma ZeroQueuesDocument(ids: FormBlockIds)
    ensures FormPayload(ids, [], None).Render() == JObj([
      Field("blocks", JArr([
        SectionJson(ids.section),
        InputJson(ids.defaultQueueInput, "Default Queues:", EmptyRadioJson()),
        InputJson(ids.customQueueInput, "Custom:", CustomFieldJson()),
        ActionsJson(ids.actions)])),
      Field("replace_original", JStr("true"))])
  {
    var bs := FormBlocks(ids, [], None);
    assert bs[0] == Section(ids.section, Mrkdwn(Prompt));
    SectionIsTextBlock(ids.section, Mrkdwn(Prompt));
    PromptSectionJson(ids.section);
    DefaultInputJson(ids.defaultQueueInput);
    CustomInputJson(ids.customQueueInput);
    ActionsJsonIsRender(ids.actions);
    FourBlocksJson(bs, SectionJson(ids.section), InputJson(ids.defaultQueueInput, "Default Queues:", EmptyRadioJson()),
                   InputJson(ids.customQueueInput, "Custom:", CustomFieldJson()), ActionsJson(ids.actions));
    EphemeralReplacingJson(bs, RenderBlocks(bs));
  }
}
