# slack-reQuest core, modelled in Dafny

slack-reQuest is a Slack bot for queues of requests. Colleagues submit requests to a queue, and the queue's
owner picks them up or rejects them. The repository holds a TypeScript/Node implementation and a Go
rewrite. This project models the sequential logic at the centre of both, without any I/O:

- **Webhook signature check** (`VerifySlackMessages`). Headers are handled fail-closed. The check builds the
  exact base string `version:timestamp:body`, signs it as `v0=` followed by the hex HMAC, and compares with a
  compare that throws on a length mismatch. The outcome is either 401 or `next()`.
- **Reply-document builders** (`TextObjects`, `Elements`, `Blocks`, `MessagePayloads`, `CreateQueueForms`,
  `InteractiveMessages`). These are the text objects, buttons, radio buttons, text inputs and blocks, with
  their construction-time limits: at most 10 radio options, at most 25 action elements and header text of
  at most 100 UTF-16 units. Each builder renders to a JSON value in which `undefined` members are omitted.
- **Decoding of inbound payloads** (`InteractionPayloads`, `SlashCommands`, `CommandsRouter`). This covers the
  interaction accessors, the validation of a slash-command payload and the splitting of its text, and the
  body check of the slash-command route.
- **Key-case conversion** (`Obj`). The snake/camel character loops and the object key rewrites.
- **Interaction dispatcher** (`InteractionsController`). Branches on the first action id. Its handlers work
  against an in-memory store of queues and requests, an outbox of replies and direct messages, and a log.
- **Go domain layer**:
  - status and recipient validity, and the authorization predicates (`GoDomain`);
  - form parsing (`GoFormParser`);
  - the form-submission service with its admin loop (`GoFormSubmission`);
  - notification blocks chosen by status (`GoMessageRenderer`);
  - DTO/domain mapping and the string-list column codec (`GoRequestsRepo`, `GoQueuesRepo`,
    `GoStringListJson`);
  - the log-context attribute edits (`LogContext`).

Code that updates objects in place is modelled as Dafny classes. This covers the fluent setters, the
radio button's option list, the interactive message's block list, the controller's store, the form
service's store and the `StringSlice` cell. Each method of such a class is proved against a function of
the old state. The character loops and row-mapping loops are methods with loop invariants, proved
against left-fold or map functions. Pure code is written as functions and lemmas.

Points where the code says more than its names and comments:

- The header block enforces 100 UTF-16 units (`maxTextLength`), while the doc comment on its `text` field
  says 150 characters (`HeaderRefusesDocumentedLength`).
- A request submitted through the Node controller is recorded with the queue owner as its creator.
- The Go request parser accepts a `channel` recipient. The Go service then refuses it, because
  `RequestRecipientType.Valid` lists only user, group and queue (`ChannelRequestsAreRefused`).
  The declaration of `"channel"` is not part of this model, so its value is taken as given.
- The controller in `nodejs_app/src/api/interactions/interactions.controller.ts` is modelled against
  `src/ui/forms/CreateQueueForm.ts`, the form with a one-argument `GetData`, an alert and the default
  queues. Its blocks keep the id they are given, as `nodejs_app/src/lib/slack/blocks/Block.ts` does, and
  its message payload is built from the blocks alone, as the form's own call `new MessagePayload(messageBlocks)`
  does. The form passes the button its action id and the block its id in the order of
  `nodejs_app/src/lib/slack/blocks/blockElements/Button.ts` and `nodejs_app/src/lib/slack/blocks/Block.ts`.
- The string-list column codec follows the escaping of Go 1.22's `encoding/json`: `\b` and `\f` short forms,
  and `<`, `>`, `&`, U+2028 and U+2029 written as `\u` escapes. No `go.mod` is part of this model, so the Go
  version is an assumption.
- The form's expected JSON is the one asserted in `src/api/commands/__tests__/commands.api.test.ts`.

## Model

| member | source | states |
|---|---|---|
| VerifySlackMessages.BaseString | src/api/middlewares/verifySlackMessages.ts:32 | the signed string is exactly version, ':', timestamp, ':', body |
| VerifySlackMessages.TimingSafeEqual | src/api/middlewares/verifySlackMessages.ts:38-41 | the compare fails exactly on a length mismatch, otherwise answers equality |
| VerifySlackMessages.VerifySlackMessage | src/api/middlewares/verifySlackMessages.ts:24-53 | a missing header gives 401 with nothing signed; next() exactly when the lengths agree and the signatures are equal; otherwise 401 |
| VerifySlackMessages.SignedRequestPasses | src/api/middlewares/verifySlackMessages.ts:32-48 | a request signed with the shared secret over its own body is passed on |
| VerifySlackMessages.BaseStringInjective | src/api/middlewares/verifySlackMessages.ts:32 | different bodies give different signed strings |
| VerifySlackMessages.TamperedBodyRefused | src/api/middlewares/verifySlackMessages.ts:32-46 | with an injective HMAC, a signature for one body is refused for any other body |
| Obj.Obj.constructor | src/lib/utils/Obj.ts:24 | the object is kept as given |
| Obj.Obj.ConvertToCamel | src/lib/utils/Obj.ts:26-32 | the loop builds the key map of the entries with camel-cased keys |
| Obj.Obj.ConvertToSnake | src/lib/utils/Obj.ts:34-40 | the loop builds the key map of the entries with snake-cased keys |
| Obj.Obj.Original | src/lib/utils/Obj.ts:42-44 | returns the constructor object unchanged |
| Obj.Obj.StringToCamel | src/lib/utils/Obj.ts:46-60 | the character loop computes Camel: separators dropped, the letter after one upper-cased, everything else copied |
| Obj.Obj.StringToSnake | src/lib/utils/Obj.ts:62-84 | the character loop computes Snake: a capital written as '_' and its lower case with the next character, a trailing capital dropped |
| Obj.CamelHasNoSeparators | src/lib/utils/Obj.ts:46-60 | no '_' or '-' survives camel-casing |
| Obj.CamelFlagAfterSeparator | src/lib/utils/Obj.ts:50-55 | the upper-case flag is set exactly when the last character read was a separator |
| Obj.SeparatorUpperCasesNext | src/lib/utils/Obj.ts:50-57 | a separator is dropped and upper-cases the letter after it |
| Obj.LetterAfterLetterKept | src/lib/utils/Obj.ts:56-58 | a letter not after a separator is copied unchanged |
| Obj.CamelIdentityWithoutSeparators | src/lib/utils/__tests__/Obj.test.ts:26-29 | camel-casing is the identity on keys without separators |
| Obj.CamelJoinsWords | src/lib/utils/Obj.ts:46-60 | two words joined by a separator become one word with the second capitalised |
| Obj.RestKeptAfterWord | src/lib/utils/Obj.ts:56-58 | the rest of a word after its first letter is copied unchanged |
| Obj.CamelExamples | src/lib/utils/__tests__/Obj.test.ts:16-29 | foo_bar and triangle_floor become fooBar and triangleFloor; camel keys stay |
| Obj.SnakePreviousLetter | src/lib/utils/Obj.ts:64-82 | the held letter is always the last character read |
| Obj.HeldLetterWrittenWithNext | src/lib/utils/Obj.ts:66-80 | a held capital is written as '_' and its lower case together with the next character |
| Obj.TrailingHeldLetterDropped | src/lib/utils/Obj.ts:62-84 | a capital held at the end of the input is never written |
| Obj.PlainLettersKept | src/lib/utils/Obj.ts:75-80 | characters that are not capitals are copied unchanged |
| Obj.SnakeIdentityWithoutCapitals | src/lib/utils/__tests__/Obj.test.ts:43-46 | snake-casing is the identity on keys without capitals |
| Obj.SnakeSplitsWords | src/lib/utils/Obj.ts:62-84 | a capital inside a key becomes '_' and its lower case |
| Obj.NoCapitalIsLower | src/lib/utils/Obj.ts:64-82 | a held letter that is not a capital is its own lower case |
| Obj.SnakeExamples | src/lib/utils/__tests__/Obj.test.ts:33-41 | fooBar and triangleFloor become foo_bar and triangle_floor |
| Obj.SnakeKeysKept | src/lib/utils/__tests__/Obj.test.ts:43-46 | keys already in snake_case stay as they are |
| Obj.ConvertedKeys | src/lib/utils/Obj.ts:26-40 | the converted object's keys are exactly the converted keys of the entries |
| Obj.ConvertedValuesComeFromEntries | src/lib/utils/Obj.ts:26-40 | every value of the converted object is the value of an entry whose key converts to its key |
| Obj.ConvertKeepsEveryValue | src/lib/utils/Obj.ts:26-40 | when no two keys convert alike, every entry's value is kept under its converted key |
| TextObjects.Text.Render | src/lib/slack/compositionObjects/TextObject.ts:43-49 | the type, the text, and the emoji and verbatim flags only when set |
| TextObjects.TextObject.constructor | src/lib/slack/compositionObjects/TextObject.ts:35-37 | a plain text object with the text and no emoji flag |
| TextObjects.TextObject.SupportEmojis | src/lib/slack/compositionObjects/TextObject.ts:39-41 | sets only the emoji flag |
| TextObjects.TextObject.Render | src/lib/slack/compositionObjects/TextObject.ts:43-49 | type plain_text with the text and the emoji flag; no verbatim |
| TextObjects.MarkdownTextObject.constructor | src/lib/slack/compositionObjects/TextObject.ts:52-59 | a markdown object with the text, no emoji flag and verbatim false |
| TextObjects.MarkdownTextObject.SupportEmojis | src/lib/slack/compositionObjects/TextObject.ts:39-41 | sets only the emoji flag |
| TextObjects.MarkdownTextObject.DisableMsgProcessing | src/lib/slack/compositionObjects/TextObject.ts:61-63 | sets verbatim and nothing else |
| TextObjects.MarkdownTextObject.Render | src/lib/slack/compositionObjects/TextObject.ts:65-72 | type mrkdwn with the text, the emoji flag and verbatim always written |
| TextObjects.OptionObject.Render | src/lib/slack/compositionObjects/OptionObject.ts:26-33 | the rendered text, the value, and the url only when set |
| Elements.Button.Render | nodejs_app/src/lib/slack/blocks/blockElements/Button.ts:43-51 | type button with the rendered text and the action id; the value only when set |
| Elements.PlainTextInput.Render | src/lib/slack/elements/PlainTextInput.ts:39-51 | type plain_text_input with the action id, the flags, and max_length only when set |
| Elements.RenderOptions | src/lib/slack/elements/RadioButton.ts:64 | one option node per option, in order |
| Elements.RenderInitial | src/lib/slack/elements/RadioButton.ts:65 | an initial option is written exactly when one is set |
| Elements.RadioButtons.Render | src/lib/slack/elements/RadioButton.ts:60-69 | type radio_buttons with the action id, the options in order and the initial option |
| Elements.RadioButton.constructor | src/lib/slack/elements/RadioButton.ts:35-37 | the given action id, or the generated one; no options |
| Elements.RadioButton.AddOption | src/lib/slack/elements/RadioButton.ts:39-45 | refused with its message when 10 options exist; otherwise appended at the end; the count never exceeds 10 |
| Elements.RadioButton.AddConfirmationDialogue | src/lib/slack/elements/RadioButton.ts:47-50 | sets only the confirmation dialogue |
| Elements.RadioButton.SetInitialOption | src/lib/slack/elements/RadioButton.ts:52-58 | succeeds exactly when the option is among the options; then only the initial option changes |
| Elements.RadioButton.Render | src/lib/slack/elements/RadioButton.ts:60-69 | type radio_buttons and one option node per option, in order |
| Blocks.Block.Render | src/lib/slack/blocks/SectionBlock.ts:27-33 | each block writes its type and block id, and its text, elements or label and element |
| Blocks.RenderTextBlock | src/common/blocks/HeaderBlock.ts:31-37 | type, block id and rendered text |
| Blocks.RenderInput | src/lib/slack/blocks/InputBlock.ts:57-67 | block id, type input, label, rendered element, dispatch flag, hint and optional flag |
| Blocks.RenderElements | src/lib/slack/blocks/ActionBlock.ts:31 | one node per element, in order |
| Blocks.RenderBlocks | src/lib/slack/messagePayloads/MessagePayload.ts:59 | one node per block, in order |
| Blocks.NewActionBlock | nodejs_app/src/lib/slack/blocks/Block.ts:8-10 | refused with its message exactly when there are more than 25 elements; otherwise holds them under the given block id, as the id-keeping base class does |
| Blocks.NewHeaderBlock | src/common/blocks/HeaderBlock.ts:17-29 | refused exactly when the text is longer than 100 UTF-16 units; a built header has at most 100 |
| Blocks.HeaderRefusesDocumentedLength | src/common/blocks/HeaderBlock.ts:12-17 | a text of 101 to 150 characters, allowed by the doc comment, is refused |
| Blocks.ActionBlockRenderKeepsElements | src/lib/slack/blocks/ActionBlock.ts:19-33 | the rendered action block has type actions, the given block id and the elements in order |
| Blocks.NewActionBlockAsWritten | src/lib/slack/blocks/Block.ts:6-10 | as the base class beside ActionBlock.ts is written: refused exactly when there are more than 25 elements; otherwise the block carries the freshly drawn id, not the given one |
| Blocks.GivenBlockIdDiscarded | src/lib/slack/blocks/ActionBlock.ts:19-25 | with a drawn id other than the given one, the as-written block renders a block_id other than the given id, while the corrected block renders the given id |
| Blocks.Utf16Length | src/common/blocks/HeaderBlock.ts:26 | the JavaScript length of a string: two units for a character outside the Basic Multilingual Plane, one otherwise; between the character count and twice it |
| Blocks.Utf16LengthOfBmp | src/common/blocks/HeaderBlock.ts:26 | a string of characters inside the Basic Multilingual Plane has one unit per character |
| Blocks.Utf16LengthOfAstral | src/common/blocks/HeaderBlock.ts:26 | a string of characters outside the Basic Multilingual Plane has two units per character |
| Blocks.AstralHeaderRefused | src/common/blocks/HeaderBlock.ts:17-29 | a header of 51 to 100 characters all outside the Basic Multilingual Plane is refused, though it has at most 100 characters |
| MessagePayloads.Payload.Render | src/lib/slack/messagePayloads/MessagePayload.ts:56-63 | text dropped exactly when there is no content; blocks in order; the delete and replace flags; never a response type |
| MessagePayloads.RenderPayload | src/lib/slack/messagePayloads/MessagePayload.ts:56-63 | the four members written, and no response_type |
| MessagePayloads.MessagePayload.constructor | src/lib/slack/messagePayloads/MessagePayload.ts:31-34 | text and blocks as given, nothing else set |
| MessagePayloads.MessagePayload.SetNoContent | src/lib/slack/messagePayloads/MessagePayload.ts:36-39 | sets only the no-content flag and returns the payload |
| MessagePayloads.MessagePayload.ShouldReplaceOriginal | src/lib/slack/messagePayloads/MessagePayload.ts:41-44 | sets only replace_original and returns the payload |
| MessagePayloads.MessagePayload.ShouldDeleteOriginal | src/lib/slack/messagePayloads/MessagePayload.ts:46-49 | sets only delete_original and returns the payload |
| MessagePayloads.MessagePayload.SetResponseType | src/lib/slack/messagePayloads/MessagePayload.ts:51-54 | sets only the response type and returns the payload |
| MessagePayloads.MessagePayload.Render | src/lib/slack/messagePayloads/MessagePayload.ts:56-63 | a function of the fields: text absent exactly when no content, blocks in order, no response type |
| MessagePayloads.ResponseTypeNotRendered | src/lib/slack/messagePayloads/MessagePayload.ts:51-63 | setting the response type never changes the document |
| MessagePayloads.NoContentDropsOnlyText | src/lib/slack/messagePayloads/MessagePayload.ts:36-39 | setNoContent removes the text and keeps the blocks |
| InteractionPayloads.NewInteractionPayload | src/lib/slack/messagePayloads/InteractionPayload.ts:57-65 | the projections, and hasMultipleActions exactly when there is more than one action |
| InteractionPayloads.GetActionId | src/lib/slack/messagePayloads/InteractionPayload.ts:67-69 | the first action's id, undefined exactly when there are no actions |
| InteractionPayloads.GetActionIds | src/lib/slack/messagePayloads/InteractionPayload.ts:71-73 | every action's id, in order |
| InteractionPayloads.FindAction | src/lib/slack/messagePayloads/InteractionPayload.ts:76 | the first position holding the id; none exactly when no action has it |
| InteractionPayloads.GetActionById | src/lib/slack/messagePayloads/InteractionPayload.ts:75-82 | the first action with the id, undefined exactly when none has it |
| InteractionPayloads.GetBlockState | src/lib/slack/messagePayloads/InteractionPayload.ts:111-122 | the block's state exactly when it is present and an object |
| InteractionPayloads.GetRadioButtonState | src/lib/slack/messagePayloads/InteractionPayload.ts:84-109 | the state exactly when the block and element exist, are objects and the type is radio_buttons |
| InteractionPayloads.GetBlockStateValue | src/ui/forms/CreateQueueForm.ts:29-37 | a radio element with a selected option of value v reads v; a text input with value v reads v; any other non-empty reading is one of those two |
| InteractionPayloads.MissingStateReadsEmpty | src/ui/forms/CreateQueueForm.ts:29-37 | a missing block or element reads as "" |
| SlashCommands.IsValidSlackSlashCommandPayload | src/lib/slack/messages/SlashCommand.ts:50-80 | valid exactly when an object with every required prop a string and every optional prop undefined or a string |
| SlashCommands.NonSpaceRun | src/lib/slack/messages/SlashCommand.ts:46 | the length of the leading run of non-whitespace |
| SlashCommands.GetCommandArgs | src/lib/slack/messages/SlashCommand.ts:45-48 | action is the first non-space token; args the rest after one whitespace character; both undefined for empty or space-led text |
| SlashCommands.ActionThenArgs | src/lib/slack/messages/SlashCommand.ts:45-48 | a word, one whitespace character and arguments without line breaks split into that word and those arguments |
| SlashCommands.CreateCommandArgsExample | src/lib/slack/messages/SlashCommand.ts:45-48 | "create q1" splits into the action create and the arguments q1 |
| SlashCommands.CommandArgsExamples | src/lib/slack/messages/SlashCommand.ts:45-48 | "list" is an action alone; " list" and "" match nothing |
| SlashCommands.NonSpaceRunIsFirstSpace | src/lib/slack/messages/SlashCommand.ts:46 | the run ends at the first whitespace character |
| SlashCommands.NewSlashCommand | src/lib/slack/messages/SlashCommand.ts:28-39 | throws 'Invalid Slash Command' exactly for an invalid payload; userId is the payload's user_id |
| SlashCommands.GetCommand | src/lib/slack/messages/SlashCommand.ts:41-43 | the payload's command |
| CommandsRouter.ValidateSlashCommandRequest | src/commands/commands.router.ts:15-39 | 400 with a details object (RenderDetails) holding missingFields and format in the order the loop first assigned them, exactly when any is found; otherwise next() once; 500 when the body cannot be read |
| CommandsRouter.FieldStep | src/commands/commands.router.ts:20-28 | one field's step of the loop appends to the missing list or the format entries |
| CommandsRouter.NextOnlyForStringFields | src/commands/commands.router.ts:29-34 | next() exactly when text and user_id are both present strings |
| CommandsRouter.MissingFieldsAreTheFalsyOnes | src/commands/commands.router.ts:21-24 | a field is listed as missing exactly when it is falsy |
| CommandsRouter.FormatErrorsAreTheNonStrings | src/commands/commands.router.ts:25-27 | a field gets a format entry exactly when it is truthy and not a string |
| CommandsRouter.FormatFirstForRequiredFields | src/commands/commands.router.ts:19-27 | format is written before missingFields exactly when text is badly formatted, or text is present and well formed and user_id is badly formatted |
| CommandsRouter.BadTextThenMissingUser | src/commands/commands.router.ts:19-27 | a non-string text and a missing user_id give the keys format then missingFields, with user_id missing and a format message for text |
| CommandsRouter.StringArray | src/commands/commands.router.ts:21-24 | the missing fields written as a JSON array of strings, in order |
| CommandsRouter.MessageObject | src/commands/commands.router.ts:26 | the format entries written as a JSON object, field to message, in order |
| CreateQueueForms.GetData | src/ui/forms/CreateQueueForm.ts:29-37 | the default queue is the value selected in the default-queue radio element, or the text typed there; the custom queue the same for the custom-queue input; "" when neither is present |
| CreateQueueForms.QueueOption | src/ui/forms/CreateQueueForm.ts:82-85 | a queue's option shows its name and carries its id |
| CreateQueueForms.QueueOptions | src/ui/forms/CreateQueueForm.ts:77-93 | one option per default queue, in order |
| CreateQueueForms.FormBlocks | src/ui/forms/CreateQueueForm.ts:45-61 | four blocks: section (alert or prompt), default input, custom input with max length 256, Create/Cancel actions |
| CreateQueueForms.CreateQueueForm.constructor | src/ui/forms/CreateQueueForm.ts:20-23 | the default queues, no alert |
| CreateQueueForms.CreateQueueForm.SetAlert | src/ui/forms/CreateQueueForm.ts:25-27 | the alert replaces the prompt |
| CreateQueueForms.CreateQueueForm.GenerateDefaultQueueInput | src/ui/forms/CreateQueueForm.ts:77-93 | more than 10 queues are refused with the radio button's message; otherwise the input block with one option per queue |
| CreateQueueForms.CreateQueueForm.GenerateCustomQueueInput | src/ui/forms/CreateQueueForm.ts:95-103 | the custom input block, max length 256 |
| CreateQueueForms.CreateQueueForm.Render | src/ui/forms/CreateQueueForm.ts:39-75 | an error result exactly when there are more than 10 default queues; otherwise the form's payload rendered |
| CreateQueueForms.RenderFormWithAlert | nodejs_app/src/api/interactions/interactions.controller.ts:126-139 | the form with an alert fails exactly when more than 10 queues are offered, and otherwise renders the form payload with that alert |
| CreateQueueForms.FormDocument | src/ui/forms/CreateQueueForm.ts:56-69 | four blocks, replace_original 'true', no text and no response type |
| CreateQueueFormDocument.ZeroQueuesDocument | src/api/commands/__tests__/commands.api.test.ts:124-194 | with no default queues the document is exactly the asserted JSON |
| InteractiveMessages.LastHeader | src/lib/api/InteractiveMessage.ts:13-21 | a header exists exactly when some edit set one |
| InteractiveMessages.HeaderStaysFirst | src/lib/api/InteractiveMessage.ts:13-31 | once set, the latest header is at index 0 whatever follows |
| InteractiveMessages.BlockCount | src/lib/api/InteractiveMessage.ts:13-31 | one block per edit, with all header sets counting once |
| InteractiveMessages.HeaderSetsCounted | src/lib/api/InteractiveMessage.ts:13-21 | the flag is set exactly when some header was set |
| InteractiveMessages.InteractiveMessage.constructor | src/lib/api/InteractiveMessage.ts:7-11 | no blocks, no header |
| InteractiveMessages.InteractiveMessage.SetHeader | src/lib/api/InteractiveMessage.ts:13-21 | one Step of a header edit: the first call prepends and sets the flag; later calls replace index 0 and keep the count |
| InteractiveMessages.InteractiveMessage.AddDivider | src/lib/api/InteractiveMessage.ts:23-26 | one Step of a divider edit: appends exactly one divider at the end |
| InteractiveMessages.InteractiveMessage.AddRadioButtons | src/lib/api/InteractiveMessage.ts:28-31 | one Step of a radio edit: appends exactly the generated block at the end |
| InteractionsController.Choose | nodejs_app/src/api/interactions/interactions.controller.ts:123-159 | neither, both, or the one value that is set |
| InteractionsController.DefaultQueueRecords | nodejs_app/src/api/interactions/interactions.controller.ts:120-121 | a sub-list of the stored queues |
| InteractionsController.FormQueues | nodejs_app/src/api/interactions/interactions.controller.ts:129 | each queue's id and name, in order |
| InteractionsController.RequestsOfQueue | nodejs_app/src/api/interactions/interactions.controller.ts:207 | a sub-list of the stored requests |
| InteractionsController.SetStatus | nodejs_app/src/api/interactions/interactions.controller.ts:257-260 | only the status of the requests with the id changes |
| InteractionsController.UnknownActionOnlyWarns | nodejs_app/src/api/interactions/interactions.controller.ts:106-111 | an unknown action id logs a warning, sends nothing and changes no repository |
| InteractionsController.CaseOf | nodejs_app/src/api/interactions/interactions.controller.ts:56-111 | the unsupported case is taken exactly when the id is missing or not one of the eight known ids |
| InteractionsController.CasesOfKnownIds | nodejs_app/src/api/interactions/interactions.controller.ts:56-105 | each of the eight known ids selects its own case |
| InteractionsController.RoutesSubmission | nodejs_app/src/api/interactions/interactions.controller.ts:61-64 | the submit-queue id runs the queue-submission step after the multiple-actions warning |
| InteractionsController.RoutesDecision | nodejs_app/src/api/interactions/interactions.controller.ts:98-105 | the accept id runs the accept step and the reject id the reject step |
| InteractionsController.DispatchedActionIsFound | nodejs_app/src/api/interactions/interactions.controller.ts:55-86 | the action a dispatch was chosen by is always found, so the missing-action branch cannot be taken from execute |
| InteractionsController.MissingActionSendsNothing | nodejs_app/src/api/interactions/interactions.controller.ts:66-70 | a missing action logs an error and sends nothing |
| InteractionsController.UnclearSelectionCreatesNoQueue | nodejs_app/src/api/interactions/interactions.controller.ts:123-157 | neither or both values set: the form is sent again with an alert and no queue is created |
| InteractionsController.UnclearSelectionAlerts | nodejs_app/src/api/interactions/interactions.controller.ts:123-157 | neither value set alerts that one is needed; both set alerts that only one is allowed |
| InteractionsController.AlertFormKeepsStore | nodejs_app/src/api/interactions/interactions.controller.ts:126-139 | sending the form again changes neither repository and posts the form only when it renders |
| InteractionsController.OneSelectionCreatesQueue | nodejs_app/src/api/interactions/interactions.controller.ts:159-168 | exactly one value set: a channel queue named by it, owned by the user, and a success reply |
| InteractionsController.SelectionCreatesQueue | nodejs_app/src/api/interactions/interactions.controller.ts:159-168 | exactly one value set: one channel queue named by that value is appended, requests stay, and the confirmation is posted |
| InteractionsController.SubmittedRequestIsIdle | nodejs_app/src/api/interactions/interactions.controller.ts:179-189 | a submitted request is stored idle, in the queue, created by the queue's owner |
| InteractionsController.DecisionIgnoresPriorStatus | nodejs_app/src/api/interactions/interactions.controller.ts:251-294 | accept sets in progress and reject sets rejected, whatever the prior status |
| InteractionsController.DecideSetsStatus | nodejs_app/src/api/interactions/interactions.controller.ts:251-294 | only the decided request changes status; the owner is messaged before the interaction is answered |
| InteractionsController.DefaultQueuesAreTheStoredDefaults | nodejs_app/src/api/interactions/interactions.controller.ts:120-121 | a queue is offered exactly when it is stored as a default queue |
| InteractionsController.ListedRequestsAreTheQueues | nodejs_app/src/api/interactions/interactions.controller.ts:207 | a request is listed exactly when it belongs to the queue |
| InteractionsController.ListingShape | nodejs_app/src/api/interactions/interactions.controller.ts:209-235 | three blocks per request: summary, pick-up/reject buttons, divider |
| InteractionsController.PickUpCarriesRequest | nodejs_app/src/api/interactions/interactions.controller.ts:217-230 | the pick-up button carries the request, the user and the owner; the reject button has no style |
| InteractionsController.Controller.constructor | nodejs_app/src/api/interactions/interactions.controller.ts:40-49 | the given store, an empty outbox and log |
| InteractionsController.Controller.Execute | nodejs_app/src/api/interactions/interactions.controller.ts:51-113 | as Dispatch: a warning first when there are several actions; then the case of the first action id: cancel deletes the original, the known ids run their steps, any other id logs an unsupported warning |
| InteractionsController.Controller.HandOffOrLog | nodejs_app/src/api/interactions/interactions.controller.ts:65-89 | the action handed on, or an error logged when it is missing |
| InteractionsController.Controller.HandleQueueSubmitted | nodejs_app/src/api/interactions/interactions.controller.ts:115-169 | as QueueSubmitted: neither or both values set sends the form again with the matching alert; one value set appends a channel queue of that name owned by the user and posts the confirmation |
| InteractionsController.Controller.RenderAlertForm | nodejs_app/src/api/interactions/interactions.controller.ts:126-139 | the form sent again with the alert, or nothing when it fails to render |
| InteractionsController.Controller.CreateQueueForInteractingUser | nodejs_app/src/api/interactions/interactions.controller.ts:296-307 | appends one channel queue and changes nothing else |
| InteractionsController.Controller.HandleSubmitRequest | nodejs_app/src/api/interactions/interactions.controller.ts:172-199 | as SubmitRequest: a missing button value or an undecodable queue throws and changes nothing; otherwise an idle request of the queue, created by its owner and described by the typed text, is stored and the submitted message posted |
| InteractionsController.Controller.HandleListRequests | nodejs_app/src/api/interactions/interactions.controller.ts:201-249 | as ListRequests: a missing value or an undecodable queue throws; otherwise the queue's requests, in store order, are posted as the listing |
| InteractionsController.Controller.RenderListing | nodejs_app/src/api/interactions/interactions.controller.ts:237-245 | the reply is a header, the blocks for the requests and a cancel button |
| InteractionsController.Controller.ListRequestBlocks | nodejs_app/src/api/interactions/interactions.controller.ts:209-235 | the loop builds the listing blocks |
| InteractionsController.Controller.HandleDecision | nodejs_app/src/api/interactions/interactions.controller.ts:251-294 | as Decide: a missing value or an undecodable decision throws; otherwise the request gets the new status, its owner gets a direct message, and the interaction is answered |
| GoDomain.NewRequest | golang_app/internal/domain/request.go:56-66 | status pending, which is valid, with the id, title, creator and times copied |
| GoDomain.ValidStatuses | golang_app/internal/domain/request.go:21-28 | valid exactly for pending, accepted, rejected, completed |
| GoDomain.ValidRecipientTypes | golang_app/internal/domain/request.go:30-37 | valid exactly for user, group, queue; channel is not valid |
| GoDomain.CanAccept | golang_app/internal/domain/authorization.go:17-42 | never for a nil request, an empty actor or the creator; user, channel and queue rules |
| GoDomain.CanComplete | golang_app/internal/domain/authorization.go:44-50 | exactly when the request exists, the actor is not empty and the request allows it |
| GoDomain.CanReject | golang_app/internal/domain/authorization.go:52-54 | exactly CanAccept or CanComplete |
| GoDomain.AcceptByRecipient | golang_app/internal/domain/authorization.go:26-41 | per recipient type: the user, anyone else, a responding queue member, and never for a group |
| GoDomain.CreatorRejectsOnlyByCompleting | golang_app/internal/domain/authorization.go:22-24 | the creator can reject exactly when they can complete |
| GoFormParser.ExtractValue | golang_app/internal/adapters/primaryadapters/slack_api_adapter/form_parser.go:83-95 | "" when absent; the value preferred over the selected option |
| GoFormParser.ExtractSelectedUser | golang_app/internal/adapters/primaryadapters/slack_api_adapter/form_parser.go:97-106 | the selected user, or "" when absent |
| GoFormParser.ExtractSelectedChannel | golang_app/internal/adapters/primaryadapters/slack_api_adapter/form_parser.go:108-117 | the selected channel, or "" when absent |
| GoFormParser.ExtractSelectedUsers | golang_app/internal/adapters/primaryadapters/slack_api_adapter/form_parser.go:119-128 | the selected users, else an empty list that is never nil |
| GoFormParser.ParseRequestForm | golang_app/internal/adapters/primaryadapters/slack_api_adapter/form_parser.go:17-55 | succeeds exactly when type, title, a known type and a recipient are given; the fields copied and the creator the user |
| GoFormParser.RequestFormCheckOrder | golang_app/internal/adapters/primaryadapters/slack_api_adapter/form_parser.go:20-46 | the errors in order: type required, title required, type invalid, recipient required |
| GoFormParser.RecipientFromMatchingSelector | golang_app/internal/adapters/primaryadapters/slack_api_adapter/form_parser.go:35-46 | the recipient is read from the selector of its type |
| GoFormParser.ParseQueueForm | golang_app/internal/adapters/primaryadapters/slack_api_adapter/form_parser.go:57-81 | name then channel required; admins never nil; the fields copied |
| GoFormParser.QueueDescriptionOptional | golang_app/internal/adapters/primaryadapters/slack_api_adapter/form_parser.go:65 | the description never decides whether the queue form parses |
| GoFormSubmission.RequestFrom | golang_app/internal/app/services/form_submission_service.go:59-69 | the new request is pending with the form's fields and recipient |
| GoFormSubmission.NotificationChannel | golang_app/internal/app/services/form_submission_service.go:144-168 | a non-user recipient is notified in its own channel; an unknown type fails |
| GoFormSubmission.InvalidRequestFormChangesNothing | golang_app/internal/app/services/form_submission_service.go:42-52 | an empty title or recipient or an invalid type errors before any save |
| GoFormSubmission.NotificationFailureDoesNotFail | golang_app/internal/app/services/form_submission_service.go:84-90 | the request is saved and no error is returned whatever the notification does |
| GoFormSubmission.NotifiedKeepsStore | golang_app/internal/app/services/form_submission_service.go:144-168 | sending a notification changes neither the stored requests nor the stored queues |
| GoFormSubmission.RequestSaveFailureReturned | golang_app/internal/app/services/form_submission_service.go:71-76 | a save failure is returned and nothing is stored or sent |
| GoFormSubmission.RequestCreationFailureReturned | golang_app/internal/app/services/form_submission_service.go:59-67 | a failure to build the request returns `failed to create request:` and its error, and nothing is stored, logged or sent |
| GoFormSubmission.ChannelRequestsAreRefused | golang_app/internal/app/services/form_submission_service.go:42-52 | a channel request the parser accepts is refused by the service |
| GoFormSubmission.AdminsAreListedNonCreators | golang_app/internal/app/services/form_submission_service.go:118-126 | an id is an admin exactly when it is not the creator and one of its AddAdmin calls succeeded, given the admins added before that call |
| GoFormSubmission.AdminsWhenNothingRefused | golang_app/internal/app/services/form_submission_service.go:118-126 | when AddAdmin refuses nothing, the admins are exactly the selected ids other than the creator |
| GoFormSubmission.QueueFrom | golang_app/internal/app/services/form_submission_service.go:109-116 | the new queue carries the form's fields and no admins |
| GoFormSubmission.InvalidQueueFormChangesNothing | golang_app/internal/app/services/form_submission_service.go:97-107 | an empty name, channel or creator errors before any save |
| GoFormSubmission.StoredQueueOmitsCreator | golang_app/internal/app/services/form_submission_service.go:118-133 | the stored queue never lists its creator as an admin |
| GoFormSubmission.QueueSaveFailureReturned | golang_app/internal/app/services/form_submission_service.go:128-133 | a save failure is returned wrapped and no queue is stored |
| GoFormSubmission.FormSubmissionService.constructor | golang_app/internal/app/services/form_submission_service.go:24-36 | the given store |
| GoFormSubmission.FormSubmissionService.SendNotification | golang_app/internal/app/services/form_submission_service.go:144-168 | as Notified: the channel chosen by recipient type, a DM for a user; an unknown type, a failed DM or a failed post returns its error and sends nothing; otherwise the rendered blocks are sent there |
| GoFormSubmission.FormSubmissionService.HandleRequestFormSubmission | golang_app/internal/app/services/form_submission_service.go:38-91 | as RequestSubmitted: title, recipient and type errors first; then a failure to build the request; then a save failure, logged; otherwise the request is stored and no error is returned whatever the notification does |
| GoFormSubmission.FormSubmissionService.HandleQueueFormSubmission | golang_app/internal/app/services/form_submission_service.go:93-142 | as QueueSubmitted: name, channel and creator errors first; the admin loop skips the creator and warns on each refused AddAdmin; a save failure is returned wrapped; otherwise the queue is stored |
| GoMessageRenderer.BuildRequestNotificationBlocks | golang_app/internal/adapters/secondaryadapters/slackadapter/message_renderer.go:57-105 | the four base blocks first; the blocks of each status; buttons exactly for pending and accepted, each carrying the request id; nothing more for an unknown status |
| GoMessageRenderer.RejectionReasonShownWhenGiven | golang_app/internal/adapters/secondaryadapters/slackadapter/message_renderer.go:93-101 | the reason line exactly when the reason is not empty |
| GoRequestsRepo.ToDomain | golang_app/internal/adapters/secondaryadapters/dbadapter/requests_repo.go:34-50 | the recipient rebuilt from its two columns |
| GoRequestsRepo.NewRequestDTO | golang_app/internal/adapters/secondaryadapters/dbadapter/requests_repo.go:52-66 | reading the row back gives the request; the recipient flattened |
| GoRequestsRepo.RowRoundTrip | golang_app/internal/adapters/secondaryadapters/dbadapter/requests_repo.go:34-66 | every row is the row of the request it reads as |
| GoRequestsRepo.SelectByRecipientAndStatuses | golang_app/internal/adapters/secondaryadapters/dbadapter/requests_repo.go:142-169 | only rows matching the recipient and, if given, the statuses |
| GoRequestsRepo.SelectedRows | golang_app/internal/adapters/secondaryadapters/dbadapter/requests_repo.go:150-158 | a row is returned exactly when it is stored and matches |
| GoRequestsRepo.NoStatusesFilterByRecipientOnly | golang_app/internal/adapters/secondaryadapters/dbadapter/requests_repo.go:150-158 | with no statuses, the recipient alone filters |
| GoRequestsRepo.RowsToDomain | golang_app/internal/adapters/secondaryadapters/dbadapter/requests_repo.go:109-113 | one request per row, in order |
| GoRequestsRepo.StatusStrings | golang_app/internal/adapters/secondaryadapters/dbadapter/requests_repo.go:152-156 | the statuses as strings, in order |
| GoRequestsRepo.FindByRecipientAndStatuses | golang_app/internal/adapters/secondaryadapters/dbadapter/requests_repo.go:142-169 | the requests of the matching rows, in table order |
| GoRequestsRepo.ToDomainAll | golang_app/internal/adapters/secondaryadapters/dbadapter/requests_repo.go:164-168 | one request per row, in order |
| GoRequestsRepo.FoundRequestsMatch | golang_app/internal/adapters/secondaryadapters/dbadapter/requests_repo.go:142-169 | every request found is addressed to the recipient and has one of the given statuses |
| GoStringListJson.EscapeChar | golang_app/internal/adapters/secondaryadapters/dbadapter/queues_repo.go:21 | a character is written as itself or as an escape |
| GoStringListJson.SkipSpace | golang_app/internal/adapters/secondaryadapters/dbadapter/queues_repo.go:40 | leading whitespace skipped |
| GoStringListJson.UnescapeOne | golang_app/internal/adapters/secondaryadapters/dbadapter/queues_repo.go:40 | one character or escape read, consuming input |
| GoStringListJson.ParseBody | golang_app/internal/adapters/secondaryadapters/dbadapter/queues_repo.go:40 | a string body read, consuming input |
| GoStringListJson.ParseItems | golang_app/internal/adapters/secondaryadapters/dbadapter/queues_repo.go:40 | a list of strings read, consuming input |
| GoStringListJson.HexDigits | golang_app/internal/adapters/secondaryadapters/dbadapter/queues_repo.go:21 | every hex digit written reads back as its value |
| GoStringListJson.UnescapeEscaped | golang_app/internal/adapters/secondaryadapters/dbadapter/queues_repo.go:17-41 | every escaped character reads back as itself |
| GoStringListJson.UnicodeEscapeRead | golang_app/internal/adapters/secondaryadapters/dbadapter/queues_repo.go:17-41 | a `\u` escape reads back as the character it encodes |
| GoStringListJson.ControlEscapeRead | golang_app/internal/adapters/secondaryadapters/dbadapter/queues_repo.go:17-41 | the `\u00XX` form of a control character or of `<`, `>` or `&` reads back as that character |
| GoStringListJson.SeparatorEscapeRead | golang_app/internal/adapters/secondaryadapters/dbadapter/queues_repo.go:17-41 | the `\u2028` and `\u2029` escapes read back as the line and paragraph separators |
| GoStringListJson.HexEscapeRead | golang_app/internal/adapters/secondaryadapters/dbadapter/queues_repo.go:17-41 | `\u` and four hex digits below the surrogate range read back as that code point |
| GoStringListJson.ShortEscapeRead | golang_app/internal/adapters/secondaryadapters/dbadapter/queues_repo.go:17-41 | a two-character escape reads back as the character it stands for |
| GoStringListJson.ParseEscapedBody | golang_app/internal/adapters/secondaryadapters/dbadapter/queues_repo.go:17-41 | every escaped string reads back as itself |
| GoStringListJson.QuotedItem | golang_app/internal/adapters/secondaryadapters/dbadapter/queues_repo.go:17-41 | a quoted string reads back as itself |
| GoStringListJson.ItemsLastStep | golang_app/internal/adapters/secondaryadapters/dbadapter/queues_repo.go:40 | a string followed by ']' ends the list |
| GoStringListJson.ItemsNextStep | golang_app/internal/adapters/secondaryadapters/dbadapter/queues_repo.go:40 | a string followed by ',' continues the list |
| GoStringListJson.LastItem | golang_app/internal/adapters/secondaryadapters/dbadapter/queues_repo.go:17-41 | the last written item reads back |
| GoStringListJson.ItemThenMore | golang_app/internal/adapters/secondaryadapters/dbadapter/queues_repo.go:17-41 | an item before more items reads back first |
| GoStringListJson.ItemsStartWithQuote | golang_app/internal/adapters/secondaryadapters/dbadapter/queues_repo.go:21 | written items start with a quote |
| GoStringListJson.ItemsSplit | golang_app/internal/adapters/secondaryadapters/dbadapter/queues_repo.go:21 | written items are the first item, a comma and the rest |
| GoStringListJson.ParseWrittenItems | golang_app/internal/adapters/secondaryadapters/dbadapter/queues_repo.go:17-41 | written items read back as the list |
| GoStringListJson.MarshalRoundTrip | golang_app/internal/adapters/secondaryadapters/dbadapter/queues_repo.go:17-41 | decoding an encoded string list gives the list back |
| GoStringListJson.MarshalEmptyRoundTrip | golang_app/internal/adapters/secondaryadapters/dbadapter/queues_repo.go:17-41 | the empty list encodes as `[]` and decodes back to the empty list |
| GoStringListJson.MarshalItemsRoundTrip | golang_app/internal/adapters/secondaryadapters/dbadapter/queues_repo.go:17-41 | a non-empty list decodes back from its encoding |
| GoStringListJson.UnmarshalList | golang_app/internal/adapters/secondaryadapters/dbadapter/queues_repo.go:17-41 | text that opens with `["` and whose items parse to a list decodes to that list |
| GoQueuesRepo.Value | golang_app/internal/adapters/secondaryadapters/dbadapter/queues_repo.go:17-22 | nil writes "[]"; otherwise Marshal of the list, which Unmarshal reads back (MarshalRoundTrip) |
| GoQueuesRepo.ValueThenScan | golang_app/internal/adapters/secondaryadapters/dbadapter/queues_repo.go:17-41 | writing then scanning gives the list back, nil coming back empty |
| GoQueuesRepo.ScanRefusesOtherTypes | golang_app/internal/adapters/secondaryadapters/dbadapter/queues_repo.go:24-38 | nil scans to an empty list; any type but bytes and string is refused |
| GoQueuesRepo.StringSliceCell.constructor | golang_app/internal/adapters/secondaryadapters/dbadapter/queues_repo.go:24 | the slice as given |
| GoQueuesRepo.StringSliceCell.Scan | golang_app/internal/adapters/secondaryadapters/dbadapter/queues_repo.go:24-41 | nil writes an empty list; bytes or a string are read by Unmarshal and written through the pointer; any other type or bad text is an error |
| GoQueuesRepo.ToDomain | golang_app/internal/adapters/secondaryadapters/dbadapter/queues_repo.go:59-71 | the queue with the row's fields |
| GoQueuesRepo.NewQueueDTO | golang_app/internal/adapters/secondaryadapters/dbadapter/queues_repo.go:73-85 | reading the row back gives the queue |
| GoQueuesRepo.QueueRowRoundTrip | golang_app/internal/adapters/secondaryadapters/dbadapter/queues_repo.go:59-85 | every row is the row of the queue it reads as |
| GoQueuesRepo.RowsToDomain | golang_app/internal/adapters/secondaryadapters/dbadapter/queues_repo.go:128-132 | one queue per row, in order |
| LogContext.AppendLogCtx | golang_app/pkg/loghandlers/contexthandler.go:25-38 | a nil parent is the background; the old attributes followed by the new ones, in order |
| LogContext.AppendToLogGroup | golang_app/pkg/loghandlers/contexthandler.go:40-69 | the loop computes UpdatedFields: every group of the name extended in place, or a new group appended when none matched; each rebuilt group leaves out empty groups |
| LogContext.Handle | golang_app/pkg/loghandlers/contexthandler.go:14-23 | the record gets the context's attributes after its own, leaving out empty groups as `AddAttrs` does |
| LogContext.HandledAttrsKept | golang_app/pkg/loghandlers/contexthandler.go:16-19 | every stored attribute that is not an empty group reaches the record |
| LogContext.FirstGroup | golang_app/pkg/loghandlers/contexthandler.go:45-48 | an empty context gets a single group holding the new attributes that are not empty groups |
| LogContext.MatchingGroupExtendedInPlace | golang_app/pkg/loghandlers/contexthandler.go:53-58 | the matching group is extended where it stands, holding its own and then the new attributes without empty groups; length, order and other entries kept |
| LogContext.AbsentGroupAppended | golang_app/pkg/loghandlers/contexthandler.go:64-66 | an absent group is appended at the end, holding the new attributes that are not empty groups |
| LogContext.GroupHoldsNewAttrs | golang_app/pkg/loghandlers/contexthandler_test.go:124-154 | afterwards some group of the name ends with the new attributes that are not empty groups |
| LogContext.GroupHoldsAllNewAttrs | golang_app/pkg/loghandlers/contexthandler_test.go:124-154 | with no empty group among them, the group ends with exactly the new attributes |
| LogContext.EmptyGroupDropped | golang_app/pkg/loghandlers/contexthandler.go:45-48 | a new group given only an empty group holds no attributes |
| LogContext.NonEmptyGroups | golang_app/pkg/loghandlers/contexthandler.go:47 | the list `slog.Group` keeps: never longer than the input |
| LogContext.NonEmptyGroupsMembers | golang_app/pkg/loghandlers/contexthandler.go:47 | an attribute is kept exactly when it is in the list and is not an empty group |
| LogContext.NonEmptyGroupsAppend | golang_app/pkg/loghandlers/contexthandler.go:55-58 | leaving out empty groups distributes over the concatenation of a group's old and new attributes |
| LogContext.NonEmptyGroupsSnoc | golang_app/pkg/loghandlers/contexthandler.go:17-18 | one more attribute is kept exactly when it is not an empty group |
| LogContext.NonEmptyGroupsKeepsOthers | golang_app/pkg/loghandlers/contexthandler.go:47 | a list with no empty group is kept as it is |

## Left out

- HTTP and server wiring (routers, app setup, request parsing, logger attachment, the Go entry point and Slack handlers): request plumbing only.
- Outbound network calls (response-URL posts, `postMessage`, conversation opening, message updates, the Go Slack client): these are entries appended to an outbox, or an outcome given as a parameter.
- Database code (repositories, data mappers, query builder, migrations): replaced by an in-memory store. A query returns rows in table order.
- HMAC-SHA256 is a function parameter. `timingSafeEqual` is sequence equality that fails on a length mismatch.
- `randomUUID`, `new Date()`, `time.Now`, generated block ids, the JSON codec for button values, `truncateString` and the emoji table are parameters: their code is not part of this model.
- Logging: the model records the Go service's entries (the `Request created` and `Queue created` infos, the failed-save and failed-notification errors, the failed-AddAdmin warning), the Node controller's warnings and errors, and the form's render error. It does not record the Node info logs, nor the errors `InteractionPayload` logs from `getActionById` (`src/lib/slack/messagePayloads/InteractionPayload.ts:78`) and the state getters (lines 92-118).
- The delete-queue and request-form handlers the dispatcher calls are not part of this model. Dispatching records the hand-off.
- Aliasing of builder objects is not modelled. A block holds its text objects and elements by value.
- Obj.Obj.StringToCamel: upper-casing is ASCII only; `toUpperCase` on other letters is not modelled.
- Obj.Obj.StringToSnake: lower-casing and the capital test are ASCII only.
- GoStringListJson.Marshal covers only lists of strings. UTF-8 encoding of bytes and surrogate pairs in `\u` escapes are not modelled.
- GoStringListJson.ParseItems refuses a list element that is not a string. Go stores "" for a `null` element and reports a type error for others; those cases are not modelled.
- GoQueuesRepo.StringSliceCell.Scan: the decoder's error text is abstract ("invalid JSON").
- LogContext.Handle: the wrapped handler that formats the record is not part of this model; the record is its list of attributes. The empty-group rules are those of Go 1.22's `log/slog`.
- InteractionsController.Controller.HandleListRequests: the `blocks.push()` with no argument appends nothing and is modelled as such.
- GoFormSubmission.FormSubmissionService.HandleQueueFormSubmission: the body of `AddAdmin` is not part of this model. Its answer is an outcome that depends on the admins already added and the id; a success appends the id.
- InteractionsController.Controller.HandleQueueSubmitted and CreateQueueForms.CreateQueueForm.Render: modelled against `src/ui/forms/CreateQueueForm.ts` with the id-keeping block of `nodejs_app/src/lib/slack/blocks/Block.ts` and a payload built from blocks alone. The form under `nodejs_app/src/ui/forms/CreateQueueForm.ts` declares `GetData(logger, interactionPayload)` at line 45 and renders no alert and no default queues; `src/lib/slack/messagePayloads/MessagePayload.ts:31-34` takes the notification text first. Neither of those is what this model follows.
- Elements.RadioButton.SetInitialOption: membership is tested by value. The source's `includes` at `src/lib/slack/elements/RadioButton.ts:53` tests identity, so an equal but distinct option is accepted here and refused there.
- InteractionsController.Controller.HandleDecision and InteractionsController.Dispatch: the `MessagePayload` class the controller imports from its own tree is not part of this model. A payload built from text alone (`new MessagePayload('Request accepted')`) or from nothing (the cancel reply) is read as having no blocks, and renders `"blocks": []`.
- InteractionPayloads.GetBlockStateValue: `getBlockStateValue` is only called, at `src/ui/forms/CreateQueueForm.ts:31,34` and `nodejs_app/src/api/interactions/interactions.controller.ts:177`; its definition is not part of this model. It is rebuilt from what those callers expect: the selected radio value or the typed text, and "" otherwise.
- Obj.Obj.ConvertToCamel and Obj.Obj.ConvertToSnake: the converted object is a map, so the key order the `for...in` loop builds is not kept. Nothing in the modelled code reads that order.
- LogContext.AppendLogCtx: contexts are values. Go's `append` at `golang_app/pkg/loghandlers/contexthandler.go:30-32` may share the parent's backing array, so a later sibling context can overwrite an earlier child's new attributes; that aliasing is not modelled.
- GoFormSubmission.RequestFrom and GoFormSubmission.QueueFrom: the service calls `NewRequest` and `NewQueue` with signatures that differ from those in `golang_app/internal/domain/request.go` and `golang_app/internal/domain/queue.go`. The fields are set as the call sites pass them.
- GoDomain.CanAccept: the queue check `CanRespondToRequests` and the request check used by `CanComplete` are function parameters, since their bodies are not part of this model.
- The rich-text leaf classes and `randomCircleEmoji` are not modelled: they are trivial records, and the latter uses randomness.

## Findings

| source | as written | input that shows it | evidently intended | confidence | as-written member | corrected member |
|---|---|---|---|---|---|---|
| src/lib/slack/blocks/Block.ts:6-10 | the base constructor takes only the type and always draws a random block id, so the id that `ActionBlock.ts:20` and `InputBlock.ts:42` pass to it is dropped | `new ActionBlock('acts', [])` renders a random `block_id`, not `acts` | the block keeps the given id, as `nodejs_app/src/lib/slack/blocks/Block.ts:8-10` does | high; not executed | Blocks.NewActionBlockAsWritten, Blocks.GivenBlockIdDiscarded | Blocks.NewActionBlock, Blocks.ActionBlockRenderKeepsElements |
