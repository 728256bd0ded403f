/** A slash-command invocation (src/lib/slack/messages/SlashCommand.ts): the
    payload is checked field by field, then the command text is split into
    an action word and its arguments by `/^(\S+)(\s)?((.+))?$/`. The payload
    is free-form JSON, since the check runs on whatever was posted. */
module SlashCommands {
  import opened Wrappers
  import opened Json

  const RequiredProps: seq<string> :=
    ["token", "team_id", "team_domain", "channel_id", "channel_name", "user_id", "user_name",
     "command", "text", "response_url", "trigger_id"]

  const OptionalProps: seq<string> := ["enterprise_id", "enterprise_name", "api_app_id"]

  /** `typeof obj === 'object' && obj !== null`: objects and arrays. */
  predicate IsObject(j: Json) {
    j.JObj? || j.JArr?
  }

  predicate HasStringProperty(j: Json, prop: string) {
    Get(j, prop).Some? && Get(j, prop).value.JStr?
  }

  predicate HasOptionalStringProperty(j: Json, prop: string) {
    Get(j, prop).None? || Get(j, prop).value.JStr?
  }

  /** What the validation accepts: an object whose required properties are
      all strings and whose optional properties are absent or strings. */
  predicate ValidPayload(payload: Json) {
    IsObject(payload) &&
    (forall i :: 0 <= i < |RequiredProps| ==> HasStringProperty(payload, RequiredProps[i])) &&
    (forall i :: 0 <= i < |OptionalProps| ==> HasOptionalStringProperty(payload, OptionalProps[i]))
  }

  method IsValidSlackSlashCommandPayload(payload: Json) returns (valid: bool)
    ensures valid <==> ValidPayload(payload)
  {
    if !IsObject(payload) {
      return false;
    }
    for i := 0 to |RequiredProps|
      invariant forall k :: 0 <= k < i ==> HasStringProperty(payload, RequiredProps[k])
    {
      if !HasStringProperty(payload, RequiredProps[i]) {
        return false;
      }
    }
    for i := 0 to |OptionalProps|
      invariant forall k :: 0 <= k < i ==> HasOptionalStringProperty(payload, OptionalProps[k])
    {
      if !HasOptionalStringProperty(payload, OptionalProps[i]) {
        return false;
      }
    }
    return true;
  }

  // ---------------------------------------------------------------------------
  // The split of the command text

  /** JavaScript's `\s`. */
  predicate IsWhitespace(c: char) {
    c == '\t' || c == '\n' || c == '\U{000B}' || c == '\U{000C}' || c == '\r' || c == ' ' ||
    c == '\U{00A0}' || c == '\U{1680}' || ('\U{2000}' <= c <= '\U{200A}') ||
    c == '\U{2028}' || c == '\U{2029}' || c == '\U{202F}' || c == '\U{205F}' ||
    c == '\U{3000}' || c == '\U{FEFF}'
  }

  /** The characters `.` does not match. */
  predicate IsLineTerminator(c: char) {
    c == '\n' || c == '\r' || c == '\U{2028}' || c == '\U{2029}'
  }

  /** The length of the longest prefix without whitespace: what greedy `\S+` takes. */
  function NonSpaceRun(text: string): (n: nat)
    ensures n <= |text|
    ensures forall i :: 0 <= i < n ==> !IsWhitespace(text[i])
    ensures n == |text| || IsWhitespace(text[n])
  {
    if text == [] || IsWhitespace(text[0]) then 0
    else
      var n := NonSpaceRun(text[1..]);
      assert forall i :: 1 <= i < |text| ==> text[i] == text[1..][i - 1];
      n + 1
  }

  datatype CommandArgs = CommandArgs(action: Option<string>, args: Option<string>)

  function GetCommandArgs(text: string): (r: CommandArgs)
    // no match: empty text, leading whitespace, or a line break in the arguments
    ensures r.action.None? <==>
      (text == [] || IsWhitespace(text[0]) ||
       exists i :: NonSpaceRun(text) + 1 <= i < |text| && IsLineTerminator(text[i]))
    ensures r.action.None? ==> r.args.None?
    // the action is the first run of non-whitespace characters
    ensures r.action.Some? ==> r.action.value != [] && r.action.value == text[..NonSpaceRun(text)]
    // the arguments are the rest after the one whitespace character that ends the action
    ensures r.args.Some? ==> r.action.Some? && r.args.value != [] && |text| > |r.action.value|
    ensures r.args.Some? ==> (text == r.action.value + [text[|r.action.value|]] + r.args.value &&
                              IsWhitespace(text[|r.action.value|]) &&
                              forall i :: 0 <= i < |r.args.value| ==> !IsLineTerminator(r.args.value[i]))
    ensures r.action.Some? && r.args.None? ==> |text| <= |r.action.value| + 1
  {
    var n := NonSpaceRun(text);
    if n == 0 then CommandArgs(None, None)
    else if n == |text| then CommandArgs(Some(text), None)
    else if exists i :: n + 1 <= i < |text| && IsLineTerminator(text[i]) then CommandArgs(None, None)
    else if n + 1 == |text| then CommandArgs(Some(text[..n]), None)
    else
      assert text == text[..n] + [text[n]] + text[n + 1..];
      CommandArgs(Some(text[..n]), Some(text[n + 1..]))
  }

  lemma CommandArgsExamples()
    ensures GetCommandArgs("list") == CommandArgs(Some("list"), None)
    ensures GetCommandArgs(" list") == CommandArgs(None, None)
    ensures GetCommandArgs("") == CommandArgs(None, None)
  {
    NonSpaceRunIsFirstSpace("list", 4);
  }

  /** An action followed by arguments. */
  lemma CreateCommandArgsExample()
    ensures GetCommandArgs("create q1") == CommandArgs(Some("create"), Some("q1"))
  {
    assert "create q1" == "create" + [' '] + "q1";
    ActionThenArgs("create", ' ', "q1");
  }

  /** A word, one whitespace character and arguments without line breaks
      split into that word and those arguments. */
  lemma ActionThenArgs(action: string, space: char, args: string)
    requires action != [] && forall i :: 0 <= i < |action| ==> !IsWhitespace(action[i])
    requires IsWhitespace(space)
    requires args != [] && forall i :: 0 <= i < |args| ==> !IsLineTerminator(args[i])
    ensures GetCommandArgs(action + [space] + args) == CommandArgs(Some(action), Some(args))
  {
    var t := action + [space] + args;
    NonSpaceRunIsFirstSpace(t, |action|);
    assert t[..|action|] == action && t[|action| + 1..] == args;
    assert forall i :: |action| + 1 <= i < |t| ==> t[i] == args[i - |action| - 1];
  }

  /** The run ends at the first whitespace character. */
  lemma NonSpaceRunIsFirstSpace(text: string, k: nat)
    requires k <= |text| && (k == |text| || IsWhitespace(text[k]))
    requires forall i :: 0 <= i < k ==> !IsWhitespace(text[i])
    ensures NonSpaceRun(text) == k
  {
  }

  // ---------------------------------------------------------------------------
  // The command

  datatype SlashCommand = SlashCommand(payload: Json, action: Option<string>, args: Option<string>, userId: string)

  /** An invalid payload is refused with "Invalid Slash Command"; otherwise
      the action and arguments come from the text, the user from user_id. */
  method NewSlashCommand(payload: Json) returns (r: Result<SlashCommand>)
    ensures r.Err? <==> !ValidPayload(payload)
    ensures r.Err? ==> r.msg == "Invalid Slash Command"
    ensures r.Ok? ==> r.value.payload == payload
    ensures r.Ok? ==> Get(payload, "user_id") == Some(JStr(r.value.userId))
    ensures r.Ok? ==> (Get(payload, "text").Some? && Get(payload, "text").value.JStr? &&
                       GetCommandArgs(Get(payload, "text").value.str) == CommandArgs(r.value.action, r.value.args))
  {
    var isValid := IsValidSlackSlashCommandPayload(payload);
    if !isValid {
      return Err("Invalid Slash Command");
    }
    assert HasStringProperty(payload, RequiredProps[8]) && HasStringProperty(payload, RequiredProps[5]);
    var actionArgs := GetCommandArgs(Get(payload, "text").value.str);
    return Ok(SlashCommand(payload, actionArgs.action, actionArgs.args, Get(payload, "user_id").value.str));
  }

  function GetCommand(c: SlashCommand): (r: Option<string>)
    ensures r.Some? <==> Get(c.payload, "command").Some? && Get(c.payload, "command").value.JStr?
    ensures r.Some? ==> Get(c.payload, "command") == Some(JStr(r.value))
  {
    var v := Get(c.payload, "command");
    if v.Some? && v.value.JStr? then Some(v.value.str) else None
  }
}
