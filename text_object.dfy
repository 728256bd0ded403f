/** Text and option composition objects
    (src/lib/slack/compositionObjects/TextObject.ts, OptionObject.ts).
    `Text` is the value a text object holds when it is rendered; the classes
    `TextObject` and `MarkdownTextObject` are the mutable builders. */
module TextObjects {
  import opened Wrappers
  import opened Json

  datatype TextType = PlainTextType | MarkdownType

  function TypeName(t: TextType): string {
    match t
    case PlainTextType => "plain_text"
    case MarkdownType => "mrkdwn"
  }

  /** A text object's fields; `verbatim` is only ever set on markdown text. */
  datatype Text = Text(textType: TextType, text: string, emoji: Option<bool>, verbatim: Option<bool>) {
    function Render(): (j: Json)
      ensures Get(j, "type") == Some(JStr(TypeName(textType)))
      ensures Get(j, "text") == Some(JStr(text))
      ensures Get(j, "emoji") == OptBool(emoji)
      ensures Get(j, "verbatim") == OptBool(verbatim)
    {
      var entries := [("type", Some(JStr(TypeName(textType)))), ("text", Some(JStr(text))),
                      ("emoji", OptBool(emoji)), ("verbatim", OptBool(verbatim))];
      GetObjAt(entries, 0);
      GetObjAt(entries, 1);
      GetObjAt(entries, 2);
      GetObjAt(entries, 3);
      Obj(entries)
    }
  }

  /** A new plain-text object and a new markdown object, as their constructors leave them. */
  function Plain(text: string): Text {
    Text(PlainTextType, text, None, None)
  }

  function Mrkdwn(text: string): Text {
    Text(MarkdownType, text, None, Some(false))
  }

  class TextObject {
    var text: string
    var emoji: Option<bool>

    constructor(text: string)
      ensures this.text == text && emoji == None
      ensures Value() == Plain(text)
    {
      this.text := text;
      emoji := None;
    }

    /** Sets the emoji flag and nothing else. */
    method SupportEmojis(flag: bool)
      modifies this
      ensures emoji == Some(flag) && text == old(text)
    {
      emoji := Some(flag);
    }

    function Value(): Text
      reads this
    {
      Text(PlainTextType, text, emoji, None)
    }

    /** type plain_text, the text, and the emoji flag when one was set. */
    function Render(): (j: Json)
      reads this
      ensures Get(j, "type") == Some(JStr("plain_text"))
      ensures Get(j, "text") == Some(JStr(text))
      ensures Get(j, "emoji") == OptBool(emoji)
      ensures Get(j, "verbatim") == None
    {
      Value().Render()
    }
  }

  class MarkdownTextObject {
    var text: string
    var emoji: Option<bool>
    var verbatim: bool

    constructor(text: string)
      ensures this.text == text && emoji == None && !verbatim
      ensures Value() == Mrkdwn(text)
    {
      this.text := text;
      emoji := None;
      verbatim := false;
    }

    method SupportEmojis(flag: bool)
      modifies this
      ensures emoji == Some(flag) && text == old(text) && verbatim == old(verbatim)
    {
      emoji := Some(flag);
    }

    /** Turns off the platform's link and mention processing, and nothing else. */
    method DisableMsgProcessing()
      modifies this
      ensures verbatim && text == old(text) && emoji == old(emoji)
    {
      verbatim := true;
    }

    function Value(): Text
      reads this
    {
      Text(MarkdownType, text, emoji, Some(verbatim))
    }

    /** type mrkdwn, the text, the emoji flag when set, and always verbatim. */
    function Render(): (j: Json)
      reads this
      ensures Get(j, "type") == Some(JStr("mrkdwn"))
      ensures Get(j, "text") == Some(JStr(text))
      ensures Get(j, "emoji") == OptBool(emoji)
      ensures Get(j, "verbatim") == Some(JBool(verbatim))
    {
      Value().Render()
    }
  }

  /** An option of a selection element: the label shown and the value sent back. */
  datatype OptionObject = OptionObject(text: Text, value: string, description: Option<Text>, url: Option<string>) {
    function Render(): (j: Json)
      ensures Get(j, "text") == Some(text.Render())
      ensures Get(j, "value") == Some(JStr(value))
      ensures Get(j, "url") == OptStr(url)
    {
      var entries := [("text", Some(text.Render())), ("value", Some(JStr(value))),
                      ("description", if description.Some? then Some(description.value.Render()) else None),
                      ("url", OptStr(url))];
      GetObjAt(entries, 0);
      GetObjAt(entries, 1);
      GetObjAt(entries, 3);
      Obj(entries)
    }
  }

  function NewOption(text: Text, value: string): OptionObject {
    OptionObject(text, value, None, None)
  }

  /** A confirmation dialogue; its style defaults to "primary". */
  datatype ConfirmationDialogue = ConfirmationDialogue(title: Text, text: Text, confirm: Text, deny: Text, style: string) {
    function Render(): Json {
      Obj([("title", Some(title.Render())), ("text", Some(text.Render())), ("confirm", Some(confirm.Render())),
           ("deny", Some(deny.Render())), ("style", Some(JStr(style)))])
    }
  }
}
