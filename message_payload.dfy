/** The reply document (src/lib/slack/messagePayloads/MessagePayload.ts): the
    fluent setters of `MessagePayload` change one field each and return the
    payload itself; `Payload` is its state, and `Payload.Render` the document
    written for it. The text is optional because later callers build a
    payload from blocks alone. */
module MessagePayloads {
  import opened Wrappers
  import opened Json
  import opened Blocks

  datatype ResponseType = InChannel | Ephemeral

  function ResponseTypeName(t: ResponseType): string {
    match t
    case InChannel => "in_channel"
    case Ephemeral => "ephemeral"
  }

  /** 'true' or 'false', as a string. */
  function BoolString(b: bool): string {
    if b then "true" else "false"
  }

  datatype Payload = Payload(
    noContent: bool, text: Option<string>, blocks: seq<Block>,
    replaceOriginal: Option<bool>, responseType: Option<ResponseType>, deleteOriginal: Option<bool>)
  {
    /** The text is dropped exactly when there is no content (or no text);
        the blocks are kept in order; the response type is never written. */
    function Render(): (j: Json)
      ensures Get(j, "text") == if noContent then None else OptStr(text)
      ensures Get(j, "blocks") == Some(RenderBlocks(blocks))
      ensures Get(j, "delete_original") == OptBool(deleteOriginal)
      ensures Get(j, "replace_original") == if replaceOriginal.Some? then Some(JStr(BoolString(replaceOriginal.value))) else None
      ensures Get(j, "response_type") == None
    {
      RenderPayload(if noContent then None else text, RenderBlocks(blocks), deleteOriginal,
                    if replaceOriginal.Some? then Some(BoolString(replaceOriginal.value)) else None)
    }
  }

  function RenderPayload(text: Option<string>, blocks: Json, deleteOriginal: Option<bool>, replaceOriginal: Option<string>): (j: Json)
    ensures Get(j, "text") == OptStr(text)
    ensures Get(j, "blocks") == Some(blocks)
    ensures Get(j, "delete_original") == OptBool(deleteOriginal)
    ensures Get(j, "replace_original") == OptStr(replaceOriginal)
    ensures Get(j, "response_type") == None
  {
    var entries := [("text", OptStr(text)), ("blocks", Some(blocks)),
                    ("delete_original", OptBool(deleteOriginal)), ("replace_original", OptStr(replaceOriginal))];
    GetObjAt(entries, 0);
    GetObjAt(entries, 1);
    GetObjAt(entries, 2);
    GetObjAt(entries, 3);
    GetObjAbsent(entries, "response_type");
    Obj(entries)
  }

  /** A payload as its constructor leaves it. */
  function NewPayload(text: Option<string>, blocks: seq<Block>): Payload {
    Payload(false, text, blocks, None, None, None)
  }

  class MessagePayload {
    var noContent: bool
    var text: Option<string>
    var blocks: seq<Block>
    var replaceOriginal: Option<bool>
    var responseType: Option<ResponseType>
    var deleteOriginal: Option<bool>

    constructor(text: Option<string>, blocks: seq<Block>)
      ensures Value() == NewPayload(text, blocks)
    {
      noContent := false;
      this.text := text;
      this.blocks := blocks;
      replaceOriginal := None;
      responseType := None;
      deleteOriginal := None;
    }

    function Value(): Payload
      reads this
    {
      Payload(noContent, text, blocks, replaceOriginal, responseType, deleteOriginal)
    }

    method SetNoContent() returns (self: MessagePayload)
      modifies this
      ensures self == this
      ensures Value() == old(Value()).(noContent := true)
    {
      noContent := true;
      return this;
    }

    method ShouldReplaceOriginal(option: bool) returns (self: MessagePayload)
      modifies this
      ensures self == this
      ensures Value() == old(Value()).(replaceOriginal := Some(option))
    {
      replaceOriginal := Some(option);
      return this;
    }

    method ShouldDeleteOriginal(option: bool) returns (self: MessagePayload)
      modifies this
      ensures self == this
      ensures Value() == old(Value()).(deleteOriginal := Some(option))
    {
      deleteOriginal := Some(option);
      return this;
    }

    method SetResponseType(responseType: ResponseType) returns (self: MessagePayload)
      modifies this
      ensures self == this
      ensures Value() == old(Value()).(responseType := Some(responseType))
    {
      this.responseType := Some(responseType);
      return this;
    }

    /** A function of the fields: rendering changes nothing, and two renders agree. */
    function Render(): (j: Json)
      reads this
      ensures Get(j, "text").None? <==> noContent || text.None?
      ensures Get(j, "blocks") == Some(RenderBlocks(blocks))
      ensures Get(j, "response_type") == None
    {
      Value().Render()
    }
  }

  /** Setting the response type has no effect on the document written. */
  lemma ResponseTypeNotRendered(p: Payload, t: ResponseType)
    ensures p.(responseType := Some(t)).Render() == p.Render()
  {
  }

  /** `setNoContent` removes the text and nothing else from the document. */
  lemma NoContentDropsOnlyText(p: Payload)
    requires p.text.Some? && !p.noContent
    ensures Get(p.Render(), "text") == Some(JStr(p.text.value))
    ensures Get(p.(noContent := true).Render(), "text") == None
    ensures Get(p.(noContent := true).Render(), "blocks") == Get(p.Render(), "blocks")
  {
  }
}
