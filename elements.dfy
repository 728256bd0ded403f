/** Interactive block elements: buttons, plain-text inputs and radio buttons
    (src/lib/slack/elements/RadioButton.ts; the button and the plain-text
    input as the later builder in nodejs_app/src/lib/slack/blocks/blockElements
    renders them). Radio buttons are a class, since options are pushed onto
    it; `RadioButtons` is its state at render time. */
module Elements {
  import opened Wrappers
  import opened Json
  import opened TextObjects

  datatype ButtonStyle = Primary | Danger

  function StyleName(s: ButtonStyle): string {
    match s
    case Primary => "primary"
    case Danger => "danger"
  }

  datatype Button = Button(text: Text, actionId: string, style: Option<ButtonStyle>, value: Option<string>) {
    function Render(): (j: Json)
      ensures Get(j, "type") == Some(JStr("button"))
      ensures Get(j, "text") == Some(text.Render())
      ensures Get(j, "action_id") == Some(JStr(actionId))
      ensures Get(j, "value") == OptStr(value)
    {
      var entries := [("type", Some(JStr("button"))), ("text", Some(text.Render())),
                      ("style", if style.Some? then Some(JStr(StyleName(style.value))) else None),
                      ("action_id", Some(JStr(actionId))), ("value", OptStr(value))];
      GetObjAt(entries, 0);
      GetObjAt(entries, 1);
      GetObjAt(entries, 3);
      GetObjAt(entries, 4);
      Obj(entries)
    }
  }

  /** A button with a style (none for 'none') and the given action id. */
  function NewButton(text: Text, style: Option<ButtonStyle>, actionId: string): Button {
    Button(text, actionId, style, None)
  }

  function SetValue(b: Button, value: string): Button {
    b.(value := Some(value))
  }

  datatype PlainTextInput = PlainTextInput(
    actionId: string, initialValue: Option<string>, multiline: bool,
    minLength: Option<nat>, maxLength: Option<nat>, focusOnLoad: bool, placeholder: Option<Text>)
  {
    function Render(): (j: Json)
      ensures Get(j, "type") == Some(JStr("plain_text_input"))
      ensures Get(j, "action_id") == Some(JStr(actionId))
      ensures Get(j, "multiline") == Some(JBool(multiline))
      ensures Get(j, "max_length") == if maxLength.Some? then Some(JNum(maxLength.value)) else None
      ensures Get(j, "focus_on_load") == Some(JBool(focusOnLoad))
    {
      var entries := [("type", Some(JStr("plain_text_input"))), ("action_id", Some(JStr(actionId))),
                      ("initialValue", OptStr(initialValue)), ("multiline", Some(JBool(multiline))),
                      ("min_length", if minLength.Some? then Some(JNum(minLength.value)) else None),
                      ("max_length", if maxLength.Some? then Some(JNum(maxLength.value)) else None),
                      ("focus_on_load", Some(JBool(focusOnLoad))),
                      ("placeholder", if placeholder.Some? then Some(placeholder.value.Render()) else None)];
      GetObjAt(entries, 0);
      GetObjAt(entries, 1);
      GetObjAt(entries, 3);
      GetObjAt(entries, 5);
      GetObjAt(entries, 6);
      Obj(entries)
    }
  }

  function NewPlainTextInput(actionId: string): PlainTextInput {
    PlainTextInput(actionId, None, false, None, None, false, None)
  }

  function SetMaxLength(input: PlainTextInput, maxLength: nat): PlainTextInput {
    input.(maxLength := Some(maxLength))
  }

  function SetMultiline(input: PlainTextInput, multiline: bool): PlainTextInput {
    input.(multiline := multiline)
  }

  const MaxOptions: nat := 10

  /** The options rendered one node per option, in order. */
  function RenderOptions(options: seq<OptionObject>): (j: Json)
    ensures j.JArr? && |j.items| == |options|
    ensures forall i :: 0 <= i < |options| ==> j.items[i] == options[i].Render()
  {
    JArr(seq(|options|, i requires 0 <= i < |options| => options[i].Render()))
  }

  /** The initial option is written as the option object itself. */
  function RenderInitial(option: Option<OptionObject>): (r: Option<Json>)
    ensures r.Some? <==> option.Some?
  {
    if option.Some? then Some(option.value.Render()) else None
  }

  function RenderConfirm(confirm: Option<ConfirmationDialogue>): Option<Json> {
    if confirm.Some? then Some(confirm.value.Render()) else None
  }

  datatype RadioButtons = RadioButtons(
    actionId: string, options: seq<OptionObject>, initialOption: Option<OptionObject>,
    confirm: Option<ConfirmationDialogue>, focusOnLoad: Option<bool>)
  {
    function Render(): (j: Json)
      ensures Get(j, "type") == Some(JStr("radio_buttons"))
      ensures Get(j, "action_id") == Some(JStr(actionId))
      ensures Get(j, "options") == Some(RenderOptions(options))
      ensures Get(j, "initial_option") == RenderInitial(initialOption)
    {
      var entries := [("type", Some(JStr("radio_buttons"))), ("action_id", Some(JStr(actionId))),
                      ("options", Some(RenderOptions(options))), ("initial_option", RenderInitial(initialOption)),
                      ("confirm", RenderConfirm(confirm)), ("focus_on_load", OptBool(focusOnLoad))];
      GetObjAt(entries, 0);
      GetObjAt(entries, 1);
      GetObjAt(entries, 2);
      GetObjAt(entries, 3);
      Obj(entries)
    }
  }

  class RadioButton {
    const actionId: string
    var options: seq<OptionObject>
    var initialOption: Option<OptionObject>
    var confirm: Option<ConfirmationDialogue>
    var focusOnLoad: Option<bool>

    /** At most ten options, and the initial option is one of them. */
    predicate Valid()
      reads this
    {
      |options| <= MaxOptions && (initialOption.Some? ==> initialOption.value in options)
    }

    /** `generatedId` stands for the random UUID used when no id is given. */
    constructor(actionId: Option<string>, generatedId: string)
      ensures Valid()
      ensures this.actionId == (if actionId.Some? then actionId.value else generatedId)
      ensures options == [] && initialOption == None && confirm == None && focusOnLoad == None
    {
      this.actionId := if actionId.Some? then actionId.value else generatedId;
      options := [];
      initialOption := None;
      confirm := None;
      focusOnLoad := None;
    }

    /** Appends an option, or fails with nothing changed when ten are already there. */
    method AddOption(option: OptionObject) returns (r: Result<RadioButton>)
      requires Valid()
      modifies this
      ensures Valid()
      ensures r.Err? <==> |old(options)| >= MaxOptions
      ensures r.Err? ==> r.msg == "Cannot add more than 10 options to Radio Button" && options == old(options)
      ensures r.Ok? ==> r.value == this && options == old(options) + [option]
      ensures initialOption == old(initialOption) && confirm == old(confirm) && focusOnLoad == old(focusOnLoad)
    {
      if |options| >= MaxOptions {
        return Err("Cannot add more than 10 options to Radio Button");
      }
      options := options + [option];
      return Ok(this);
    }

    method AddConfirmationDialogue(dialogue: ConfirmationDialogue) returns (self: RadioButton)
      requires Valid()
      modifies this
      ensures Valid() && self == this
      ensures confirm == Some(dialogue)
      ensures options == old(options) && initialOption == old(initialOption) && focusOnLoad == old(focusOnLoad)
    {
      confirm := Some(dialogue);
      return this;
    }

    /** Selects an option that has already been added; any other is refused.
        Only the initial option changes. */
    method SetInitialOption(option: OptionObject) returns (r: Result<RadioButton>)
      requires Valid()
      modifies this
      ensures Valid()
      ensures r.Ok? <==> option in options
      ensures r.Err? ==> r.msg == "Initial option must exist in the assigned options" && initialOption == old(initialOption)
      ensures r.Ok? ==> r.value == this && initialOption == Some(option)
      ensures options == old(options) && confirm == old(confirm) && focusOnLoad == old(focusOnLoad)
    {
      if option !in options {
        return Err("Initial option must exist in the assigned options");
      }
      initialOption := Some(option);
      return Ok(this);
    }

    function Value(): RadioButtons
      reads this
    {
      RadioButtons(actionId, options, initialOption, confirm, focusOnLoad)
    }

    /** type radio_buttons, the action id, and one option node per option, in order. */
    function Render(): (j: Json)
      reads this
      ensures Get(j, "type") == Some(JStr("radio_buttons"))
      ensures Get(j, "action_id") == Some(JStr(actionId))
      ensures Get(j, "options").Some? && Get(j, "options").value.JArr?
      ensures |Get(j, "options").value.items| == |options|
      ensures forall i :: 0 <= i < |options| ==> Get(j, "options").value.items[i] == options[i].Render()
    {
      Value().Render()
    }
  }

  /** The elements a block can hold. */
  datatype Element =
    | ButtonElement(button: Button)
    | RadioElement(radio: RadioButtons)
    | TextInputElement(input: PlainTextInput)
  {
    function Render(): Json {
      match this
      case ButtonElement(b) => b.Render()
      case RadioElement(r) => r.Render()
      case TextInputElement(t) => t.Render()
    }
  }
}
