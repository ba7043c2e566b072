# Booking-request bot: a Dafny model

A Telegram bot receives booking requests from a web form, announces each request to the managers with a "claim" keyboard, and lets them claim it, move it through statuses and complete it. This project models that core in Dafny and proves properties of it:

- **Request store** (`store.dfy`): the lazily loaded cache of `{"requests": …, "counter": …}` and the data file behind it, as a class `RequestStore`. Its methods `Load`, `Get`, `Save`, `UpdateCached` and `NextId` are specified by the functions `Loaded`, `FileAfterLoad` and `Written`.
- **Request lifecycle** (`lifecycle.dfy`):
  - creating a request and notifying every manager (`CreateAndNotify`, with its sending loop `SendToManagers`);
  - applying a button press to a record (`ApplyCallback`);
  - the whole callback handler over the store (`Handle`, and the method `HandleRequestCallback` proved against it);
  - the corrected handler (`ApplyCallbackFixed`, `RefreshEdits`, `HandleFixed`).
- **Rendering** (`render.dfy`): the message text of a request as a `View` (header, status line, footers). It is rendered both as the code is written and with its missing constants supplied.
- **Keyboards and callback data** (`keyboards.dfy`, `callbacks.dfy`): the claim keyboard, built by a loop and proved equal to a recursive specification, and the status keyboard. The button data is `claim|<id>|<manager>`, `updateStatus|<id>|<label>` or `complete|<id>`, and is proved to parse back to what was encoded.
- **Form submission** (`form.dfy`): the secret and required-field checks that decide 403, 400 or creation, and the client data handed on.
- **Support** (`wrappers.dfy`, `text.dfy`, `config.dfy`, `records.dfy`):
  - Python's `split`, `join`, `strip`, `str(int)` and `int(str)`, and truthiness of a string or None;
  - the configured managers and status labels;
  - the request record.

Record fields hold a JSON string or null, so they are `Option<string>`. Python exceptions are the `Err` case of a `Result`, or an `Outcome` of the handler. The chat API, the clock and the web server are left outside. A send's success is an input, and the messages to send or edit are outputs.

## Model

| member | source | states |
|---|---|---|
| Text.Split | bot_handlers.py:153 | `str.split` on one character: at least one piece, and no piece contains the separator |
| Text.Join | utils.py:127 | `sep.join(parts)` of a non-empty list: the pieces with one separator between each pair |
| Text.JoinSplit | utils.py:127-129 | joining the pieces of a split with the separator gives back the string |
| Text.SplitJoin | bot_handlers.py:153 | splitting a join of separator-free pieces gives back the pieces |
| Text.SplitWithoutSeparator | bot_handlers.py:153 | a string without the separator splits into itself alone |
| Text.SplitAfterPiece | bot_handlers.py:153 | splitting `a|rest` with `a` separator-free yields `a` followed by the pieces of `rest` |
| Text.SplitPiecesAvoid | utils.py:128 | a character absent from a string is absent from every piece of its split |
| Text.LStrip | utils.py:128 | `lstrip` yields a suffix that starts with no white space, and only white space is dropped |
| Text.RStrip | utils.py:128 | `rstrip` yields a prefix that ends with no white space, and only white space is dropped |
| Text.Strip | utils.py:128 | `strip` is the slice of its input left after cutting a run of leading and a run of trailing white space; it neither starts nor ends with white space |
| Text.StripIsTrimmedSlice | utils.py:128 | `rstrip` after `lstrip` is such a slice, with only white space outside it |
| Text.StripIdempotent | utils.py:128 | stripping twice is stripping once |
| Text.Digits | utils.py:70 | the decimal digits of a natural number: at least one, all digits |
| Text.Str | utils.py:70 | `str(n)` is non-empty and made of digits and a minus sign |
| Text.DigitsRoundTrip | bot_handlers.py:154 | the value of the digits of `n` is `n` |
| Text.ParseInt | bot_handlers.py:154 | `int(s)`: a string of digits gives its value, a `-` sign negates it, and the empty string or any other character is refused |
| Text.ParseIntStr | bot_handlers.py:154 | `int(str(n)) == n` for every integer, so request ids survive the trip through button data |
| Config.Lookup | bot_handlers.py:148 | `MANAGERS.get(key)`: a manager with that id when one exists, None exactly when no manager has that id or the key is None |
| Config.LookupFinds | bot_handlers.py:182-183 | with distinct ids, looking up a configured manager's id finds that manager |
| Config.ConfiguredManagersOk | config.py:14-23 | the two configured managers have distinct ids without `|` and non-empty names |
| Config.StatusLabelsDistinct | config.py:26-31 | completed differs from every other label; the update labels contain no `|`; new and completed do not start with the claimed prefix |
| Store.Written | utils.py:52-63 | `_save_data` writes the whole snapshot, its requests and its counter |
| Store.Loaded | utils.py:23-49 | `_load_data`: a loaded cache is kept; a missing or unreadable file gives the empty store; a missing `requests` or `counter` is filled with `{}` or 0 |
| Store.FileAfterLoad | utils.py:29-34 | loading changes the file only when it is missing, by writing the empty store |
| Store.IssuedIds | utils.py:82-94 | the ids of `k` successive `get_next_request_id` calls: exactly `k` of them |
| Store.IssuedIdsAt | utils.py:85-92 | the i-th id issued is the counter plus `i + 1`, a non-integer counter counting as 0 |
| Store.IssuedIdsIncrease | utils.py:82-94 | successive ids strictly increase, so none repeats |
| Store.ReloadIsIdentity | utils.py:52-63 | what `_save_data` writes loads back as the same snapshot, and the next id continues from it |
| Store.RequestStore.constructor | utils.py:20 | a process starts with no cache and the given data file |
| Store.RequestStore.Load | utils.py:23-49 | the cache becomes `Loaded(cache, file)`; the file becomes `FileAfterLoad(cache, file)` |
| Store.RequestStore.Get | utils.py:67-71 | loads, then returns the record under the id exactly when there is one |
| Store.RequestStore.Save | utils.py:74-79 | the record is stored under its id, other records and the counter are kept, and the whole snapshot is written |
| Store.RequestStore.UpdateCached | utils.py:71 | an assignment to the dict `get_request_data` returned changes the cached record and not the file |
| Store.RequestStore.NextId | utils.py:82-94 | returns the loaded counter plus one (0 plus one for a non-integer), stores it as the counter and writes the file |
| Render.FormatDatetime | utils.py:10-16 | a timestamp that cannot be parsed and formatted is shown as it is |
| Render.EventLines | utils.py:127-128 | the bullet and the stripped text of each comma-separated piece, in order |
| Render.FormatEvents | utils.py:127-129 | empty or absent details render as `N/A` |
| Render.EventsOnePerLine | utils.py:127-129 | details without newlines render as one line per comma-separated piece, each the bullet and the stripped piece |
| Render.DisplayStatus | utils.py:113 | the status shown is the target status when one is given, else the stored one |
| Render.StatusLine | utils.py:113-125 | the status line is the display status, with ` (name)` exactly when a manager is named and the status is completed or neither new nor claimed; it raises only for a null status with a name |
| Render.StatusLineAsWritten | utils.py:113-125 | as written, the line raises NameError for `STATUS_COMPLETED` exactly when a manager is named |
| Render.ClaimedFooter | utils.py:132-133 | the claimed footer is present exactly when claimant and claim time are both set |
| Render.UpdatedFooter | utils.py:134-137 | the last-updated footer is present exactly when both last-update fields are set and not (the named manager is the last updater and the display status is the stored one) |
| Render.Head | utils.py:131 | the header: request number, client name, phone, messenger, events, time received, and the status line in bold |
| Render.MessageText | utils.py:131-138 | without footers the text is the header and status line alone |
| Render.FormatRequestMessage | utils.py:98-138 | as written: raises exactly when a manager is named; otherwise the status line is the display status (target if given, else stored) |
| Render.FormatRequestMessageFixed | utils.py:98-138 | with the constants in scope: raises only for a null status with a name; otherwise the status line follows `StatusLine` |
| Render.RenderersAgreeWithoutName | utils.py:115 | with no manager named, both renderers give the same message |
| Render.CompletedRenderingRaises | utils.py:116 | rendering completed with a manager named raises NameError as written, and gives `<completed> (M)` when fixed |
| Render.BareRecordRendersHeadOnly | utils.py:131-137 | a record with no claim and no update renders as header and status line only |
| Callbacks.ClaimData | bot_handlers.py:26 | the claim button's data `claim|<id>|<manager id>` |
| Callbacks.UpdateStatusData | bot_handlers.py:38 | a status button's data `updateStatus|<id>|<label>` |
| Callbacks.CompleteData | bot_handlers.py:51 | the completion button's data `complete|<id>` |
| Callbacks.ParseCallback | bot_handlers.py:153-155 | parsing fails exactly when there are fewer than two pieces or the id is not an integer; otherwise action and id are the first two pieces |
| Callbacks.ParseBuiltData | bot_handlers.py:153-155 | data built as `action|str(id)[|param]` from `|`-free parts parses back to those parts |
| Callbacks.ClaimDataRoundTrip | bot_handlers.py:26 | `claim|<id>|<manager>` parses to a claim of that id for that manager |
| Callbacks.UpdateStatusDataRoundTrip | bot_handlers.py:38 | `updateStatus|<id>|<label>` parses to an update of that id to that label |
| Callbacks.CompleteDataRoundTrip | bot_handlers.py:51 | `complete|<id>` parses to a completion of that id with no parameter |
| Keyboards.ClaimButtons | bot_handlers.py:24-27 | one claim button per manager |
| Keyboards.ClaimRows | bot_handlers.py:23-29 | the claim buttons taken two at a time, in manager order, one row per pair |
| Keyboards.BuildInitialClaimKeyboard | bot_handlers.py:20-30 | the loop over manager pairs builds exactly the rows of `ClaimRows` |
| Keyboards.ClaimKeyboardShape | bot_handlers.py:22-29 | the rows, read in order, are the managers' buttons in configuration order; there are `(n+1)/2` rows of one or two buttons |
| Keyboards.ClaimButtonsDecode | bot_handlers.py:24-26 | the i-th claim button's data parses to a claim for the i-th manager, whose lookup finds that manager |
| Keyboards.StatusKeyboard | bot_handlers.py:33-54 | three rows of two, one and one buttons |
| Keyboards.StatusKeyboardDecode | bot_handlers.py:33-54 | four buttons in rows of 2, 1, 1: updates to will-come, alerted and cancelled, then completion, each labelled with its status |
| Lifecycle.Delivered | bot_handlers.py:81-98 | never more recorded messages than sends |
| Lifecycle.DeliveredAppend | bot_handlers.py:81-98 | the recorded messages of two runs of sends are those of the first followed by those of the second |
| Lifecycle.DeliveredExactly | bot_handlers.py:81-98 | nothing is recorded exactly when every send failed; when every send succeeded, all locations are recorded in manager order |
| Lifecycle.NewRecord | bot_handlers.py:63-76 | the new record: the form fields with their fallbacks, status new, no claim and no update, and the given message locations |
| Lifecycle.NewRecordShape | bot_handlers.py:63-78 | a new record is new, unclaimed and never updated, takes `N/A <id>`, `N/A`, `""`, `""` and the current time for absent fields, and renders as header and plain new status |
| Lifecycle.SendToManagers | bot_handlers.py:81-98 | one notice per manager in order, and the recorded messages are exactly the successful sends |
| Lifecycle.CreateAndNotify | bot_handlers.py:58-102 | the id is the counter plus one; the stored record is the new record with the successful sends; the file is written; every manager gets the new-request text and the claim keyboard |
| Lifecycle.ApplyCallback | bot_handlers.py:176-231 | saved exactly when applied; refusals leave the record untouched; only an applied change or a non-manager's partial write changes it; form fields and messages never change |
| Lifecycle.ClaimRules | bot_handlers.py:181-202 | a claim fails exactly for an unknown assignee or an existing claimant, regardless of status; applied, it sets claimant, claim time, claimed status and last update to the same time, nothing else |
| Lifecycle.UpdateRules | bot_handlers.py:212-223 | an update of a completed request is refused; otherwise the status becomes the label (completed for `complete`, from any status) and the presser the last updater; the claim is untouched |
| Lifecycle.CompleteIdempotent | bot_handlers.py:212-223 | completing a completed request again, by the same manager at the same time, changes nothing further |
| Lifecycle.ClaimedStatusNotCompleted | bot_handlers.py:197-198 | a claimed status never equals completed |
| Lifecycle.ClaimLeavesCompleted | bot_handlers.py:189 | a completed, unclaimed request can be claimed, and leaves completed |
| Lifecycle.NonManagerClaimWrites | bot_handlers.py:195-199 | a non-manager's claim writes claimant, claim time and claimed status before it raises, and nothing is saved |
| Lifecycle.NonManagerUpdateWrites | bot_handlers.py:212-220 | a non-manager's status change or completion of a request not already completed writes the new status into the record before it raises, and nothing is saved |
| Lifecycle.ApplyCallbackFixed | bot_handlers.py:146-231 | corrected: saved exactly when applied; every refusal leaves the record untouched; a completed request stays completed |
| Lifecycle.FixedAgreesOnManagers | bot_handlers.py:181-223 | for a manager's press on a request that is not completed, the corrected press equals the written one |
| Lifecycle.KeyboardAfter | bot_handlers.py:238-240 | no keyboard exactly when the status is completed, else the status keyboard |
| Lifecycle.RefreshEdits | bot_handlers.py:233-257 | one edit per stored message, in order, or none when rendering raises, which needs a null status with a last updater named |
| Lifecycle.RefreshCoversMessages | bot_handlers.py:233-257 | after a change, every stored message is edited in order; each edit's text is the rendering of the record under its own status, attributed to its last updater, without the last-updated footer; the keyboard is removed exactly when completed |
| Lifecycle.RoutedActions | bot_handlers.py:141-153 | data routed to the handler that parses names claim, updateStatus or complete |
| Lifecycle.HandleNeverIgnored | bot_handlers.py:141-231 | a routed press always reaches one of the action branches |
| Lifecycle.Handle | bot_handlers.py:146-231 | the handler as written: malformed data changes nothing; every other press loads the store; no message is ever edited |
| Lifecycle.HandleFixed | bot_handlers.py:146-257 | the corrected handler: an applied change is written and followed by the refresh of the changed record; a malformed press leaves cache and file untouched; every other press leaves the store as loading left it and edits nothing |
| Lifecycle.HandleFrame | bot_handlers.py:158-231 | an id missing from the loaded store ends exactly as not found, with the store as loading left it; a press changes at most the pressed record; refusals change nothing beyond loading; an applied change is written and reloads as it is |
| Lifecycle.NonManagerClaimLeavesCacheAhead | bot_handlers.py:195-200 | after a non-manager's claim the cached record names the chosen manager as claimant and carries that manager's claimed status, while the file holds the unclaimed one |
| Lifecycle.AppliedChangeEditsNothing | bot_handlers.py:207-257 | as written, a manager's completion is applied and edits no message; corrected, it edits every stored message |
| Lifecycle.HandleRequestCallback | bot_handlers.py:146-231 | the method over the store ends with the outcome, cache and file of `Handle` |
| Form.Classify | main.py:22-47 | 403 exactly for a missing, empty or wrong secret; then invalid JSON; then a missing required field; otherwise exactly five fields with the messenger defaulting to `""` |
| Form.Rejection | main.py:26-56 | 403 with plain text for a bad secret, 400 with an error object for a bad body |
| Form.AcceptedRecordKeepsForm | main.py:41-47 | an accepted submission's record holds the submitted values, never the record's fallbacks |
| Form.SubmitForm | main.py:22-64 | a refused submission answers at once and leaves the store alone; an accepted one creates the request, notifies the managers and answers 200 with the new id |

## Left out

- Telegram I/O: a send's success is an input and the notices and edits are outputs. The texts of `callback.answer` alerts and the edit of the pressed message for an unknown id (bot_handlers.py:164-173) are not modelled.
- Routing by aiogram filters appears only as the precondition `Routed` on the handler.
- File I/O and JSON: the data file is a value. A failed write (utils.py:61-62) is not modelled, because `Save` always writes. A JSON file that is not an object counts as unreadable. Record keys `str(id)` are modelled as the integer id, since `str` is one-to-one on integers.
- Record fields and form values are JSON strings or null. Numbers, lists and nested objects in those places are not modelled. Neither are records missing keys, so the `get` defaults of `format_request_message` (utils.py:102-107) never apply.
- A form body that is valid JSON but not an object is not modelled.
- Form.SubmitForm: the 500 answer (main.py:57-64) is not modelled, because request creation never raises in the model.
- Text.ParseInt: does not accept the surrounding white space, underscores or non-ASCII digits that Python's `int()` accepts.
- Render.FormatDatetime: parsing and `strftime` are an uninterpreted parameter of the clock. Only the fallback to the raw text is stated.
- Time is an input string (`now_iso`). `datetime.now()` is not modelled.
- Lifecycle.HandleRequestCallback: models the handler as written. The corrected handler exists only as the function `HandleFixed`, not as a method over the store.
- Concurrency (interleaved handlers on the shared cache), logging, `handle_start`, `handle_new_request_command`, and webhook start-up and shut-down (main.py:67-136) are not modelled.
- config.py environment lookups (`BOT_TOKEN`, `FORM_SECRET`, webhook settings): the form secret is a parameter.

## Findings

| source | as written | input that shows it | evidently intended | confidence | as-written member | corrected member |
|---|---|---|---|---|---|---|
| bot_handlers.py:207 | `notifyOtherManagers` is never defined. It raises NameError after the save, and the error is caught at the top, so the refresh at bot_handlers.py:233-257 never runs. | a manager presses "complete" on a request with stored messages | after a saved change, every stored message is re-rendered and edited | high (not executed) | Lifecycle.AppliedChangeEditsNothing | Lifecycle.HandleFixed |
| utils.py:6 | `STATUS_COMPLETED` and `STATUS_CLAIMED_PREFIX` are not imported. The status line raises NameError whenever a manager is named, which also breaks the refresh. | render a completed request with manager name `M` | `<completed> (M)` | high (not executed) | Render.CompletedRenderingRaises | Render.FormatRequestMessageFixed |
| bot_handlers.py:195-220 | A press by a user who is not a manager writes the claim fields (lines 195-199) or the new status (line 219), then subscripts None. The cached record stays changed but unsaved, and the next save of any record persists it. | a non-manager presses a claim button of an unclaimed request, or a status button of a request not yet completed | refuse the press before changing anything | high (not executed) | Lifecycle.NonManagerClaimLeavesCacheAhead, Lifecycle.NonManagerUpdateWrites | Lifecycle.ApplyCallbackFixed |
| bot_handlers.py:189 | A claim checks only the claimant, not the status. | a manager claims a request that was completed without being claimed; the bot's own keyboards never offer that sequence, because the completion button sits on the status keyboard, which the written handler never shows and the corrected refresh shows only after a claim, so the input needs hand-made callback data | a completed request stays completed | medium (not executed) | Lifecycle.ClaimLeavesCompleted | Lifecycle.ApplyCallbackFixed |
