/** Layout blocks (src/lib/slack/blocks/ActionBlock.ts, SectionBlock.ts,
    InputBlock.ts, src/common/blocks/HeaderBlock.ts, and the divider block of
    nodejs_app/src/lib/slack/blocks/DividerBlock.ts). A block is a value; the
    action and header blocks are built through `NewActionBlock` and
    `NewHeaderBlock`, which refuse what their constructors throw on. A block
    keeps the id it is given, as the base class in
    nodejs_app/src/lib/slack/blocks/Block.ts does; the base class next to
    ActionBlock.ts ignores it (`NewActionBlockAsWritten`). */
module Blocks {
  import opened Wrappers
  import opened Json
  import opened TextObjects
  import opened Elements

  const MaxElements: nat := 25
  const MaxHeaderTextLength: nat := 100

  datatype Block =
    | Section(blockId: string, text: Text)
    | Input(blockId: string, caption: Text, element: Element, dispatchAction: bool, hint: Option<Text>, optional: bool)
    | Actions(blockId: string, elements: seq<Element>)
    | Header(blockId: string, text: Text)
    | Divider(blockId: string)
  {
    function TypeName(): string {
      match this
      case Section(_, _) => "section"
      case Input(_, _, _, _, _, _) => "input"
      case Actions(_, _) => "actions"
      case Header(_, _) => "header"
      case Divider(_) => "divider"
    }

    /** The construction-time limits hold. */
    predicate WellFormed() {
      (Actions? ==> |elements| <= MaxElements) && (Header? ==> Utf16Length(text.text) <= MaxHeaderTextLength)
    }

    function Render(): (j: Json)
      ensures Get(j, "type") == Some(JStr(TypeName()))
      ensures Get(j, "block_id") == Some(JStr(blockId))
      ensures Section? || Header? ==> Get(j, "text") == Some(text.Render())
      ensures Actions? ==> Get(j, "elements") == Some(RenderElements(elements))
      ensures Input? ==> Get(j, "element") == Some(element.Render()) && Get(j, "label") == Some(caption.Render())
    {
      match this
      case Section(id, t) => RenderTextBlock("section", id, t)
      case Header(id, t) => RenderTextBlock("header", id, t)
      case Actions(id, els) =>
        var entries := [("type", Some(JStr("actions"))), ("block_id", Some(JStr(id))), ("elements", Some(RenderElements(els)))];
        GetObjAt(entries, 0);
        GetObjAt(entries, 1);
        GetObjAt(entries, 2);
        Obj(entries)
      case Divider(id) =>
        var entries := [("type", Some(JStr("divider"))), ("block_id", Some(JStr(id)))];
        GetObjAt(entries, 0);
        GetObjAt(entries, 1);
        Obj(entries)
      case Input(id, caption, element, dispatchAction, hint, optional) =>
        RenderInput(id, caption.Render(), element.Render(), dispatchAction, RenderHint(hint), optional)
    }
  }

  function RenderTextBlock(typeName: string, blockId: string, text: Text): (j: Json)
    ensures Get(j, "type") == Some(JStr(typeName))
    ensures Get(j, "block_id") == Some(JStr(blockId))
    ensures Get(j, "text") == Some(text.Render())
  {
    var entries := [("type", Some(JStr(typeName))), ("block_id", Some(JStr(blockId))), ("text", Some(text.Render()))];
    GetObjAt(entries, 0);
    GetObjAt(entries, 1);
    GetObjAt(entries, 2);
    Obj(entries)
  }

  /** An input block's fields, its parts already rendered; the label and the
      hint are written as the text objects themselves. */
  function RenderInput(blockId: string, caption: Json, element: Json, dispatchAction: bool, hint: Option<Json>, optional: bool): (j: Json)
    ensures Get(j, "type") == Some(JStr("input"))
    ensures Get(j, "block_id") == Some(JStr(blockId))
    ensures Get(j, "label") == Some(caption)
    ensures Get(j, "element") == Some(element)
    ensures Get(j, "dispatch_action") == Some(JBool(dispatchAction))
    ensures Get(j, "hint") == hint
    ensures Get(j, "optional") == Some(JBool(optional))
  {
    var entries := [("block_id", Some(JStr(blockId))), ("type", Some(JStr("input"))), ("label", Some(caption)),
                    ("element", Some(element)), ("dispatch_action", Some(JBool(dispatchAction))),
                    ("hint", hint), ("optional", Some(JBool(optional)))];
    GetObjAt(entries, 0);
    GetObjAt(entries, 1);
    GetObjAt(entries, 2);
    GetObjAt(entries, 3);
    GetObjAt(entries, 4);
    GetObjAt(entries, 5);
    GetObjAt(entries, 6);
    Obj(entries)
  }

  function RenderHint(hint: Option<Text>): Option<Json> {
    if hint.Some? then Some(hint.value.Render()) else None
  }

  /** The elements rendered one node per element, in order. */
  function RenderElements(elements: seq<Element>): (j: Json)
    ensures j.JArr? && |j.items| == |elements|
    ensures forall i :: 0 <= i < |elements| ==> j.items[i] == elements[i].Render()
  {
    JArr(seq(|elements|, i requires 0 <= i < |elements| => elements[i].Render()))
  }

  /** The blocks rendered one node per block, in order. */
  function RenderBlocks(blocks: seq<Block>): (j: Json)
    ensures j.JArr? && |j.items| == |blocks|
    ensures forall i :: 0 <= i < |blocks| ==> j.items[i] == blocks[i].Render()
  {
    JArr(seq(|blocks|, i requires 0 <= i < |blocks| => blocks[i].Render()))
  }

  /** An action block as the constructor is written against the base class
      beside it, which takes only the type and draws a fresh id: the id the
      caller passes is dropped and the drawn one is rendered. */
  function NewActionBlockAsWritten(blockId: string, drawnId: string, elements: seq<Element>): (r: Result<Block>)
    ensures r.Err? <==> |elements| > MaxElements
    ensures r.Ok? ==> r.value.Actions? && r.value.blockId == drawnId && r.value.elements == elements
  {
    if |elements| > MaxElements then Err("Cannot create an action block with more than 25 elements")
    else Ok(Actions(drawnId, elements))
  }

  /** As written, the id given to the action block never reaches its rendered
      `block_id` unless the drawn id happens to equal it. */
  lemma GivenBlockIdDiscarded(blockId: string, drawnId: string, elements: seq<Element>)
    requires |elements| <= MaxElements && drawnId != blockId
    ensures NewActionBlockAsWritten(blockId, drawnId, elements).Ok?
    ensures Get(NewActionBlockAsWritten(blockId, drawnId, elements).value.Render(), "block_id") != Some(JStr(blockId))
    ensures NewActionBlock(blockId, elements).Ok? &&
      Get(NewActionBlock(blockId, elements).value.Render(), "block_id") == Some(JStr(blockId))
  {
  }

  /** An action block holds at most 25 elements; more are refused. */
  function NewActionBlock(blockId: string, elements: seq<Element>): (r: Result<Block>)
    ensures r.Err? <==> |elements| > MaxElements
    ensures r.Err? ==> r.msg == "Cannot create an action block with more than 25 elements"
    ensures r.Ok? ==> r.value.Actions? && r.value.blockId == blockId && r.value.elements == elements
    ensures r.Ok? ==> r.value.WellFormed()
  {
    if |elements| > MaxElements then Err("Cannot create an action block with more than 25 elements")
    else Ok(Actions(blockId, elements))
  }

  /** JavaScript's `length` of a string: its UTF-16 code units, two for a
      character outside the Basic Multilingual Plane. */
  function Utf16Length(s: string): (n: nat)
    ensures |s| <= n <= 2 * |s|
  {
    if s == [] then 0 else (if s[0] as int >= 0x1_0000 then 2 else 1) + Utf16Length(s[1..])
  }

  /** Text within the Basic Multilingual Plane has one unit per character. */
  lemma {:induction false} Utf16LengthOfBmp(s: string)
    requires forall i :: 0 <= i < |s| ==> s[i] as int < 0x1_0000
    ensures Utf16Length(s) == |s|
  {
    if s != [] {
      Utf16LengthOfBmp(s[1..]);
    }
  }

  /** Text made of characters outside the Basic Multilingual Plane has two units per character. */
  lemma {:induction false} Utf16LengthOfAstral(s: string)
    requires forall i :: 0 <= i < |s| ==> s[i] as int >= 0x1_0000
    ensures Utf16Length(s) == 2 * |s|
  {
    if s != [] {
      Utf16LengthOfAstral(s[1..]);
    }
  }

  /** A header's text holds at most 100 UTF-16 units; longer text is refused. */
  function NewHeaderBlock(blockId: string, text: Text): (r: Result<Block>)
    ensures r.Err? <==> Utf16Length(text.text) > MaxHeaderTextLength
    ensures r.Err? ==> r.msg == "Header text has a max length of 100"
    ensures r.Ok? ==> r.value == Header(blockId, text)
    ensures r.Ok? ==> r.value.WellFormed()
  {
    if Utf16Length(text.text) > MaxHeaderTextLength then Err("Header text has a max length of 100")
    else Ok(Header(blockId, text))
  }

  /** The 150 characters the header's doc comment allows are not what is
      enforced: a text of 101 to 150 characters is refused. */
  lemma HeaderRefusesDocumentedLength(blockId: string, text: Text)
    requires 100 < |text.text| <= 150
    ensures NewHeaderBlock(blockId, text).Err?
  {
  }

  /** The limit counts UTF-16 units: 51 to 100 characters from outside the
      Basic Multilingual Plane (emoji, say) are already too long. */
  lemma AstralHeaderRefused(blockId: string, text: Text)
    requires 50 < |text.text| <= 100
    requires forall i :: 0 <= i < |text.text| ==> text.text[i] as int >= 0x1_0000
    ensures NewHeaderBlock(blockId, text).Err?
  {
    Utf16LengthOfAstral(text.text);
  }

  /** Rendering an action block keeps its elements' count and order. */
  lemma ActionBlockRenderKeepsElements(blockId: string, elements: seq<Element>)
    requires NewActionBlock(blockId, elements).Ok?
    ensures var j := NewActionBlock(blockId, elements).value.Render();
      Get(j, "type") == Some(JStr("actions")) && Get(j, "block_id") == Some(JStr(blockId)) &&
      Get(j, "elements").Some? && Get(j, "elements").value.JArr? &&
      |Get(j, "elements").value.items| == |elements| &&
      forall i :: 0 <= i < |elements| ==> Get(j, "elements").value.items[i] == elements[i].Render()
  {
  }
}
