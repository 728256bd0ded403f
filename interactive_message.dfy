/** A message assembled block by block (src/lib/api/InteractiveMessage.ts):
    the header goes first and is replaced in place when set again; dividers
    and radio-button groups are appended. The header and the radio-button
    groups arrive already generated (their classes are not part of this
    model), so they are JSON values here. */
module InteractiveMessages {
  import opened Wrappers
  import opened Json
  import opened Blocks

  /** One call on the message. */
  datatype Edit =
    | SetHeaderEdit(header: Json)
    | DividerEdit(dividerId: string)
    | RadioButtonsEdit(generated: Json)

  /** The message's fields. */
  datatype MessageState = MessageState(blocks: seq<Json>, isHeaderSet: bool)

  function Initial(): MessageState {
    MessageState([], false)
  }

  /** The effect of one call. */
  function Step(s: MessageState, e: Edit): MessageState {
    match e
    case SetHeaderEdit(h) =>
      // assigning index 0 of an empty array creates it
      if s.isHeaderSet then MessageState(if |s.blocks| > 0 then s.blocks[0 := h] else [h], true)
      else MessageState([h] + s.blocks, true)
    case DividerEdit(id) => MessageState(s.blocks + [Divider(id).Render()], s.isHeaderSet)
    case RadioButtonsEdit(j) => MessageState(s.blocks + [j], s.isHeaderSet)
  }

  /** The state after a sequence of calls on a new message. */
  function Replay(edits: seq<Edit>): MessageState {
    if edits == [] then Initial()
    else Step(Replay(edits[..|edits| - 1]), edits[|edits| - 1])
  }

  /** The header most recently set, if any. */
  function LastHeader(edits: seq<Edit>): (h: Option<Json>)
    ensures h.Some? <==> exists i :: 0 <= i < |edits| && edits[i].SetHeaderEdit?
  {
    if edits == [] then None
    else if edits[|edits| - 1].SetHeaderEdit? then Some(edits[|edits| - 1].header)
    else
      var h := LastHeader(edits[..|edits| - 1]);
      assert forall i :: 0 <= i < |edits| - 1 ==> edits[..|edits| - 1][i] == edits[i];
      h
  }

  /** How many calls set the header. */
  function HeaderSets(edits: seq<Edit>): nat {
    if edits == [] then 0
    else HeaderSets(edits[..|edits| - 1]) + (if edits[|edits| - 1].SetHeaderEdit? then 1 else 0)
  }

  /** Once a header has been set it is the first block, and it is the one set last. */
  lemma {:induction false} HeaderStaysFirst(edits: seq<Edit>)
    ensures Replay(edits).isHeaderSet <==> LastHeader(edits).Some?
    ensures Replay(edits).isHeaderSet ==> |Replay(edits).blocks| > 0 && Replay(edits).blocks[0] == LastHeader(edits).value
  {
    if edits != [] {
      var prev := edits[..|edits| - 1];
      HeaderStaysFirst(prev);
    }
  }

  /** Every call adds one block, except that setting the header again replaces it. */
  lemma {:induction false} BlockCount(edits: seq<Edit>)
    ensures |Replay(edits).blocks| == |edits| - HeaderSets(edits) + (if HeaderSets(edits) > 0 then 1 else 0)
  {
    if edits != [] {
      var prev := edits[..|edits| - 1];
      BlockCount(prev);
      HeaderStaysFirst(prev);
      HeaderSetsCounted(prev);
    }
  }

  /** The header is set exactly when some call set it. */
  lemma {:induction false} HeaderSetsCounted(edits: seq<Edit>)
    ensures HeaderSets(edits) > 0 <==> LastHeader(edits).Some?
  {
    if edits != [] {
      HeaderSetsCounted(edits[..|edits| - 1]);
    }
  }

  class InteractiveMessage {
    var blocks: seq<Json>
    var isHeaderSet: bool

    function Value(): MessageState
      reads this
    {
      MessageState(blocks, isHeaderSet)
    }

    /** When a header is set it occupies the first block. */
    predicate Valid()
      reads this
    {
      isHeaderSet ==> |blocks| > 0
    }

    constructor()
      ensures Value() == Initial() && Valid()
    {
      blocks := [];
      isHeaderSet := false;
    }

    /** The first call puts the header in front; later calls replace it. */
    method SetHeader(header: Json) returns (self: InteractiveMessage)
      requires Valid()
      modifies this
      ensures self == this && Valid()
      ensures Value() == Step(old(Value()), SetHeaderEdit(header))
      ensures old(isHeaderSet) ==> blocks == old(blocks)[0 := header]
      ensures !old(isHeaderSet) ==> blocks == [header] + old(blocks)
      ensures isHeaderSet && blocks[0] == header
    {
      if isHeaderSet {
        blocks := blocks[0 := header];
        return this;
      }
      blocks := [header] + blocks;
      isHeaderSet := true;
      return this;
    }

    /** Appends a divider; `dividerId` stands for the block id it generates. */
    method AddDivider(dividerId: string) returns (self: InteractiveMessage)
      requires Valid()
      modifies this
      ensures self == this && Valid()
      ensures Value() == Step(old(Value()), DividerEdit(dividerId))
      ensures blocks == old(blocks) + [Divider(dividerId).Render()] && isHeaderSet == old(isHeaderSet)
    {
      blocks := blocks + [Divider(dividerId).Render()];
      return this;
    }

    /** Appends a radio-button group as it was generated. */
    method AddRadioButtons(generated: Json) returns (self: InteractiveMessage)
      requires Valid()
      modifies this
      ensures self == this && Valid()
      ensures Value() == Step(old(Value()), RadioButtonsEdit(generated))
      ensures blocks == old(blocks) + [generated] && isHeaderSet == old(isHeaderSet)
    {
      blocks := blocks + [generated];
      return this;
    }
  }
}
