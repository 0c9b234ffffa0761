# AI cold-email client: a Dafny model of its client-side logic

This project models the client-side logic of the "AI cold email" web client, a React
single-page app. A compose form posts the sender, recipient and purpose details to a
remote generation service. The app keeps the history of past conversations and lets a
user open, continue or delete a conversation.

What is modelled, and in which file:

- `js_semantics.dfy` (module `JsSemantics`): the JavaScript behaviour the components rely on.
  - String truthiness. A non-empty string is truthy; a whitespace-only string is truthy too.
  - The `detail || fallback` idiom.
  - `String.prototype.trim` with the ECMAScript whitespace set.
  - `slice(0, n)`.
  - The outcome of a request, as an abstract input: `Ok(body)`, `HttpError(detail)` (a non-OK status with an optional `detail`), or `Failure(message)` (a thrown exception).
- `domain.dfy` (module `Domain`): the shared records.
  - The history entries and conversation records.
  - The three purposes.
  - Notifications.
  - The `/conversation/{id}` resource path, with the parse the service's route performs.
- `email_form.dfy` (module `EmailForm`): the compose form's submit handler.
  - Validation runs in a fixed order per purpose.
  - The result is either one rejection message, or the ordered multipart payload.
  - `Submit` specifies the handler. `HandleSubmit` and `AppendPurposeFields` are the handler itself, appending field by field and returning early.
- `app.dfy` (module `App`): the compose view's controller, `class Home`.
  - The generation flow.
  - The history list, which is only ever replaced wholesale by a list the server returned.
  - The two-phase delete of a history entry: pending, then deleting, then both cleared.
  - The per-card `deleting` flag.
- `chat_page.dfy` (module `ChatPage`): the conversation page, `class ChatPage`.
  - Loading a conversation.
  - Follow-ups. A follow-up *replaces* the email and appends the message to `follow_up_messages`.
  - Deleting the conversation.
  - The header's badge and icon lookups.
  - `StreamingText`'s prefix-by-prefix reveal, as a loop over the interval ticks.
- `chat_interface.dfy` (module `ChatInterface`): the conversation dialog, `class ChatInterface`.
  - Follow-ups here are stored *beside* the original email. The model keeps this difference from the conversation page rather than unifying the two.
  - The copy button's choice of text.
- `chat_card.dfy` (module `ChatCard`): what a history card shows.
  - The badge and its gray fallback.
  - The icon chain.
  - The 30-character preview.
  - The delete button's disabled state and spinner.
  - Which callback a click reaches.

Each asynchronous handler is split at its `await`. A Begin/Confirm method holds what the handler sets before the request. A Settle method takes the request's outcome as a parameter and applies it. Toasts and the "navigate home" decision are returned as values.

Facts about the code that the model makes explicit:

- **The confirmation dialog closes as the delete starts.** The Delete button in the dialog is a dialog close control. A click runs `confirmDelete`, which marks the pending id as deleting, and then calls `onOpenChange(false)`, which drops the pending id (src/App.jsx:177-178, 192-194; src/components/ChatPage.jsx:232-234, 262-264). So the click that starts a delete also closes the dialog; the confirmation and deleting phases do not overlap for that request. While a delete is in flight the dialog's Delete and Cancel buttons are disabled (src/App.jsx:189, 194; src/components/ChatPage.jsx:259, 264), so a dialog reopened for another history entry cannot start a second delete; the first delete's settlement clears the pending id and so dismisses it. `App.Home.ClickConfirmDelete` and `ChatPage.ChatPage.ClickConfirmDelete` model the click.
- **After a delete, the list is replaced only by an OK refetch.** A successful delete fetches the history again, and only an OK refetch replaces the list (src/App.jsx:147-151). A thrown refetch error shows the "Error deleting conversation." toast even though the delete succeeded.
- **The deleting flag is per id.** Every card whose id equals `deletingId` is flagged (src/App.jsx:291-298). `App.Home.DeletingFlags` states the guarantee: every flagged card shows that same id.

## Model

| member | source | states |
|---|---|---|
| JsSemantics.OrElse | src/App.jsx:104-106 | `detail \|\| fallback`: the detail when present and non-empty, otherwise the fallback; a non-empty fallback gives a non-empty result |
| JsSemantics.TrimStart | src/components/ChatPage.jsx:111 | the result is a suffix of the input, everything removed is whitespace, and the result does not start with whitespace |
| JsSemantics.TrimEnd | src/components/ChatPage.jsx:111 | the result is a prefix of the input, everything removed is whitespace, and the result does not end with whitespace |
| JsSemantics.Trim | src/components/ChatPage.jsx:111 | `trim()` yields the piece of the input that starts where leading whitespace ends, with only whitespace before and after it; the piece neither starts nor ends with whitespace, and is empty (so `!s.trim()` holds) exactly when the input is blank |
| JsSemantics.TrimStartEmptyIffBlank | src/components/ChatPage.jsx:111 | cutting leading whitespace leaves nothing exactly when the input is blank (a consequence of the contracts of `TrimStart` and `IsBlank`, named for `Trim`) |
| JsSemantics.TrimEndKeepsNonBlankStart | src/components/ChatPage.jsx:111 | cutting trailing whitespace from a string that starts with a non-whitespace character leaves something (a consequence of `TrimEnd`'s contract, named for `Trim`) |
| JsSemantics.TrimBothEndsAt | src/components/ChatPage.jsx:111 | cutting both ends leaves the piece that starts where leading whitespace ends, with only whitespace around it |
| JsSemantics.TrimBothEndsClean | src/components/ChatPage.jsx:111 | cutting both ends leaves a piece that neither starts nor ends with whitespace |
| JsSemantics.IsBlank | src/components/ChatPage.jsx:111 | the character-by-character blank test agrees with "every character is ECMAScript whitespace" (the empty string included) |
| JsSemantics.Slice | src/components/ChatCard.jsx:56 | `slice(0, n)` is the prefix of length min(n, length) |
| Domain.ConversationPath | src/App.jsx:142 | the path of a conversation parses back to exactly that identifier |
| Domain.ParseConversationPath | src/App.jsx:142 | a parsed identifier is what follows the `/conversation/` prefix of the path |
| EmailForm.BranchKeys | src/components/EmailForm.jsx:56-94 | the keys a purpose's branch may add are disjoint from the common keys |
| EmailForm.FirstError | src/components/EmailForm.jsx:56-94 | Job Application: no résumé gives the résumé message; with a résumé, neither description gives the description-required message and both give the not-both message; otherwise it passes. Sales passes iff company info and product description are non-empty, and otherwise gives the Sales message. Networking passes iff person info is non-empty, and otherwise gives the Networking message. An unknown purpose is never rejected |
| EmailForm.CommonFields | src/components/EmailForm.jsx:48-54 | the payload starts with purpose, sender name, title, company and call to action, in that order. The recipient name is added iff it is non-empty, and each field carries the form's own value |
| EmailForm.JobFields | src/components/EmailForm.jsx:73-75 | the Job branch adds only its own keys, with the form's values: always the résumé, and the description text or URL each iff non-empty |
| EmailForm.SalesFields | src/components/EmailForm.jsx:83-85 | the Sales branch adds only its own keys, with the form's values: both required fields, and the pain points iff non-empty |
| EmailForm.NetworkingFields | src/components/EmailForm.jsx:91-93 | the Networking branch adds only its own keys, with the form's values: the person's info, and the common ground iff non-empty |
| EmailForm.PurposeFields | src/components/EmailForm.jsx:73-93 | a valid form adds only its own branch's keys with the form's values: the résumé and exactly one description source for Job; both required fields, plus pain points iff non-empty, for Sales; person info, plus common ground iff non-empty, for Networking |
| EmailForm.Submit | src/components/EmailForm.jsx:46-97 | rejection happens iff a check fails, with that check's message. An accepted payload starts with all the common fields in order (the recipient included when named), has no duplicate key and no other purpose's key, carries the recipient iff it is named, and has the per-purpose presence rules. An unknown purpose is accepted with the common fields only |
| EmailForm.HandleSubmit | src/components/EmailForm.jsx:46-54 | the handler's common appends followed by its purpose checks produce exactly `Submit`'s result |
| EmailForm.AppendPurposeFields | src/components/EmailForm.jsx:56-97 | from the common fields, the early returns and per-purpose appends produce exactly `Submit`'s result |
| EmailForm.FaithfulAppend | src/components/EmailForm.jsx:48-94 | appending two payloads that each carry the form's own values, with disjoint keys, gives such a payload whose keys are the union |
| EmailForm.WireNameInjective | src/components/EmailForm.jsx:49-93 | no two payload keys share a name on the wire |
| EmailForm.WireNames | src/components/EmailForm.jsx:49-93 | the names on the wire, one per appended field, in order |
| EmailForm.DistinctKeysDistinctNames | src/components/EmailForm.jsx:49-93 | a payload without duplicate keys appends no name twice |
| ChatCard.CategoryOf | src/components/ChatCard.jsx:5-21 | the three purposes get the labels Sales, Job and Networking. A purpose gets a non-gray colour iff it is one of them, and an unknown purpose is its own label in gray |
| ChatCard.CardIcon | src/components/ChatCard.jsx:22-29 | Briefcase iff Job Application, Users iff Networking, Mail for everything else (Sales included) |
| ChatCard.Preview | src/components/ChatCard.jsx:56 | the first min(30, length) characters of the email, always followed by "..." |
| ChatCard.DeleteButtonFor | src/components/ChatCard.jsx:67-73 | the button is disabled and shows the spinner exactly when the entry is being deleted |
| ChatCard.CallbacksFor | src/components/ChatCard.jsx:63-67 | a click on the delete button never opens the conversation, and reaches `onDelete` iff the button is enabled; a click on the card opens it |
| App.GenerationError | src/App.jsx:119 | the error text ends with the thrown error's message, behind a prefix |
| App.Home.constructor | src/App.jsx:55-62 | every field starts empty, false or null |
| App.Home.LoadHistory | src/App.jsx:66-80 | an OK history fetch replaces the list wholesale; any other outcome changes nothing |
| App.Home.BeginGenerate | src/App.jsx:91-95 | submit entry: status "Generating email...", with error, email and new-chat button cleared, and nothing else changed |
| App.Home.SettleGenerate | src/App.jsx:97-123 | success stores the email, sets the success status and shows the button, and the list changes only on an OK refetch. A non-OK response sets "Error: " + (detail or the generic message), and an exception sets "Error: " + its message, with status cleared |
| App.Home.DeleteDialogOpen | src/App.jsx:177 | the dialog is open only while an id is pending |
| App.Home.RequestDelete | src/App.jsx:134-136 | the requested id becomes the pending id, replacing any earlier one, and the dialog is open iff that id is non-empty; nothing else changes |
| App.Home.CloseDeleteDialog | src/App.jsx:178 | closing the dialog drops the pending id, and the dialog is closed |
| App.Home.ConfirmDelete | src/App.jsx:137-146 | with no truthy pending id nothing happens. Otherwise the pending id is marked deleting and the DELETE goes to that conversation's path |
| App.Home.ClickConfirmDelete | src/App.jsx:177-194 | while a delete is in flight the Delete action is disabled and a click changes nothing. Otherwise the click always leaves the dialog closed with no pending id; a delete starts iff the dialog was open, and then the previously pending id is marked deleting and the DELETE path parses back to it, and if it was not open only the pending id is dropped |
| App.Home.SettleDelete | src/App.jsx:147-162 | both markers are cleared and the dialog is closed whatever the outcome. The list is replaced only after an OK delete and an OK refetch, and the toast matches the outcome |
| App.Home.NewChat | src/App.jsx:165-169 | email, status and error are cleared and the button hidden, together |
| App.Home.DeletingFlags | src/App.jsx:291-298 | one flag per entry, set iff the entry's id is the deleting id, so all flagged cards show the same id and none is flagged when nothing is being deleted |
| App.SecondRequestReplacesPending | src/App.jsx:134-194 | after delete is requested for x and then for a non-empty y, a click on Delete with nothing in flight sends the DELETE to y's path and marks y, not x, deleting (no queuing). With a delete already in flight the click sends nothing and the earlier delete stays marked. Once the delete in flight settles both markers are clear, and the list is the refetched one after an OK delete and refetch and unchanged otherwise |
| ChatPage.HeaderCategory | src/components/ChatPage.jsx:204-207 | the page's own badge table agrees with the history card's for every purpose; an unknown purpose is its own label in gray |
| ChatPage.HeaderIcon | src/components/ChatPage.jsx:208 | `iconMap[purpose] \|\| Mail` always agrees with the card's comparison chain; an unknown purpose gets Mail |
| ChatPage.DeletePathAsWritten | src/components/ChatPage.jsx:170-171 | the DELETE path as written is the identifier directly below the base URL |
| ChatPage.AsWrittenDeleteMissesRoute | src/components/ChatPage.jsx:171 | for any identifier not itself starting with "conversation/", the as-written path is not a conversation path and differs from the history list's path |
| ChatPage.DeletePath | src/components/ChatPage.jsx:170-171 | the corrected DELETE path parses back to the page's conversation id |
| ChatPage.FollowUps | src/components/ChatPage.jsx:135 | `prev.follow_up_messages \|\| []`: the stored list, or empty when absent |
| ChatPage.StreamingFrames | src/components/ChatPage.jsx:49-65 | Not loading, the full text is the only frame. Loading, the frames start empty, each tick shows the prefix of length min(tick, length), every frame is a prefix of the text, and the last frame is the whole text |
| ChatPage.ChatPage.constructor | src/components/ChatPage.jsx:75-83 | no conversation, empty input and error, and every flag false |
| ChatPage.ChatPage.Load | src/components/ChatPage.jsx:86-107 | without a truthy id nothing happens. Otherwise streaming stops, and OK stores the conversation, non-OK sets "Failed to load conversation" and an exception sets "Error loading conversation" |
| ChatPage.ChatPage.EditMessage | src/components/ChatPage.jsx:347-353 | typing (only possible when not loading) changes only the input |
| ChatPage.ChatPage.BeginSend | src/components/ChatPage.jsx:109-121 | a message that is blank after trimming sends nothing and changes nothing. Otherwise loading and streaming start, the error clears, and the request carries the untrimmed message |
| ChatPage.ChatPage.SettleSend | src/components/ChatPage.jsx:130-147 | On OK, the email becomes the reply, the untrimmed message is appended to the old follow-ups (empty if absent), every other conversation field is kept, and the input clears. On failure, the error is detail-or-fallback or "Error sending message" and the conversation is unchanged. Loading always ends |
| ChatPage.ChatPage.RequestDelete | src/components/ChatPage.jsx:164-240 | the delete button only opens the dialog, and does nothing while the conversation is being deleted |
| ChatPage.ChatPage.SetDeleteDialog | src/components/ChatPage.jsx:232-234 | the dialog's open state follows `onOpenChange` |
| ChatPage.ChatPage.ConfirmDelete | src/components/ChatPage.jsx:167-175 | deleting is set and the request goes to the (corrected) path of this page's conversation |
| ChatPage.ChatPage.ClickConfirmDelete | src/components/ChatPage.jsx:232-264 | while deleting, the disabled Delete action does nothing. Otherwise a click marks the page deleting and closes the dialog, and the request goes to this page's conversation path |
| ChatPage.ChatPage.SettleDelete | src/components/ChatPage.jsx:176-187 | deleting ends and the dialog closes whatever happens; navigation home happens iff the response is OK, with the matching toast |
| ChatInterface.CopyText | src/components/ChatInterface.jsx:157-159 | the follow-up reply when present and non-empty, otherwise the original email |
| ChatInterface.ChatInterface.constructor | src/components/ChatInterface.jsx:4-8 | no conversation, empty input and error, not loading |
| ChatInterface.ChatInterface.Load | src/components/ChatInterface.jsx:11-31 | without a truthy id nothing happens. Otherwise OK stores the conversation, non-OK sets "Failed to load conversation" and an exception sets "Error loading conversation" |
| ChatInterface.ChatInterface.EditMessage | src/components/ChatInterface.jsx:135-141 | typing (only possible when not loading) changes only the input |
| ChatInterface.ChatInterface.BeginSend | src/components/ChatInterface.jsx:33-51 | a message that is blank after trimming is ignored. Otherwise loading starts, the error clears, and the request carries the untrimmed message |
| ChatInterface.ChatInterface.SettleSend | src/components/ChatInterface.jsx:53-70 | On OK, the reply and the echoed id are stored beside the email, the original email and every other field are kept, and the input clears. On failure, the error is detail-or-fallback or "Error sending message". Loading always ends |
| ChatInterface.CopyAfterReply | src/components/ChatInterface.jsx:56-60 | once a non-empty reply has arrived, the copy button copies the reply rather than the original email |

## Left out

- The `fetch` calls, the hard-coded base URLs (`localhost:8000` in one view, the hosted service in the others) and JSON parsing. Every response is an abstract outcome: OK with a body, non-OK with an optional `detail`, or a thrown error with its message.
- Toasts, clipboard writes and `navigate`. Toasts are returned as values and navigation as a flag; clipboard contents are the `CopyText` function.
- `window.location.reload` in `handleNewChat` and the header menu. `App.Home.NewChat` models only the state it resets.
- Async interleaving. This covers duplicate in-flight submits, responses arriving after unmount, and edits made while a request is in flight (the model requires the input to be idle, as the disabled input enforces).
- The 500 ms timer that ends streaming on the conversation page. `ChatPage.ChatPage.SettleSend` leaves `streaming` as it was.
- `ChatPage.StreamingFrames`: the frames of one run of the effect only. A new `text` or `loading` value restarts it, and the 12 ms `setInterval` timing is not modelled.
- The Recoil atom mechanics. The shared history is a plain field of `Home`.
- The sidebar and resize handling, all layout and styling, the "Recipient" display fallback, and `Date.toLocaleString`.
- Per-purpose form input, file pickers and the form's own field state. `EmailForm.Form` is the state at the moment of submission.
- Keys inherited from `Object.prototype` in the two map lookups. The model treats the maps as holding only their own three keys.
- `JsSemantics.Slice`: JavaScript strings are UTF-16. The model counts Unicode characters, so it differs from `slice` only around characters outside the Basic Multilingual Plane.
- EmailForm.Submit: models the handler on whatever form state reaches it. The browser's own validation of the `required` inputs and the URL input (src/components/EmailForm.jsx:161-335), which can stop the submit event before the handler runs, is not modelled.
- EmailForm.HandleSubmit: as for `Submit`, the browser's `required` and URL checks that run before the handler are not modelled.
- Identifiers are strings, so only the empty identifier is falsy. A numeric id `0` would also be falsy in JavaScript and would be refused by the `!pendingDeleteId` guard and the load effects; the model does not cover numeric ids.
- The conversation page's copy button (`handleCopyEmail`), which always copies `generated_email`. It is not modelled separately.

## Findings

| source | as written | input that shows it | evidently intended | confidence | as-written member | corrected member |
|---|---|---|---|---|---|---|
| src/components/ChatPage.jsx:171 | the conversation page sends DELETE to the base URL followed by `/` and the id | id `42`: the request goes to `/42`, not the `/conversation/42` route the history list deletes through (src/App.jsx:142) | DELETE to `/conversation/{id}`, as on the compose view | not executed | ChatPage.AsWrittenDeleteMissesRoute | ChatPage.DeletePath |
