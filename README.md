# NotificationsTelegram, modelled in Dafny

NotificationsTelegram routes document-approval requests from other
microservices to an approver on Telegram. It records each request as a
notification with an audit log. It reports the decision (approve, or reject
with a reason) back to the originating service through an HTTP callback. It
also notifies the requester and serves a token-protected public view of the
document.

This project models the core of that service:

- **The notification store** (`Service.NotificationService`, a class over the notifications and log tables).
  - Its operations are sending a request, approving, marking as awaiting a reason, rejecting with a reason, notifying the requester and adding log entries.
  - Each method changes the tables step by step. It is proved to leave them exactly as a function of `Workflow` says, with the same result and the same outbound calls.
  - The read-only queries (`Queries`) are functions: the record awaiting a reason in a chat, the history, the pending list and the status of one record.
- **The Telegram side.**
  - `Messages`: the `action_id` callback data of the inline buttons and its decoding, and the texts and keyboards of the messages.
  - `Webhook`: the routing of an update (button press first, then a text reply taken as the rejection reason).
  - `WebhookHandler`: the same routing, run against the store object.
- **The document-type registry** (`DocumentTypes`): an in-place table with unique codes on create, field overwrite on update and soft delete.
- **The public view guard** (`PublicView`): blank token, lookup among active records, 72-hour expiry, missing type, in that order.
- **The decision callback** (`Callback`): the URL template, the payload and the boolean outcome.
- **The document aggregation plan** (`DocumentProxy`): the routing table from document code to endpoints, and the rules for which secondary fetches happen and how their optional results compose.

The outside world enters as parameters:

- The clock is an integer number of seconds.
- The user directory is the security database's user table as a sequence of rows, inactive ones included.
- The Telegram answers are the message id or nothing.
- The callback's HTTP answer is a status or an exception.
- The upstream services are functions from URL to response.
- The date formatter and base64 encoding are also parameters.

Every operation returns the calls it makes, in order, as `Effect` values.

As in the code, approving, rejecting and marking as awaiting a reason do not
look at the prior status of a record:

- Approving twice runs the whole sequence twice: two APPROVED entries, two callbacks.
- Approving a rejected record makes it approved.

The model follows the code here: there is no guard on the status.

## Model

| member | source | states |
|---|---|---|
| Models.StatusNames | Models/Notification.cs:62-69 | the five statuses have five distinct names, each non-empty and within the 20-character column |
| Models.NewNotificationFits | Models/Notification.cs:20-40 | a new record fits its declared column widths exactly when its folio (50) and description (200) do |
| Models.FindTypeById | Services/CallbackService.cs:53-57 | the type found has that id and is in the table; none means no row has the id |
| Models.FindActiveTypeByCode | Services/NotificationService.cs:34-36 | the type found is active with that code; none means no active row has the code |
| Models.GetUserById | Services/SecurityService.cs:23-25 | the user found has the id and the active flag 1 and is in the table; none means no row has both |
| Messages.ParseCallbackData | Services/TelegramService.cs:226-230 | a decoded action never contains the separator |
| Messages.CallbackDataRoundTrip | Services/TelegramService.cs:57-58 | decoding `action_id` gives back the action and the 32-bit id |
| Messages.ParseCallbackDataShape | Services/TelegramService.cs:226-230 | whatever decodes is an action, an underscore and digits that parse to the id |
| Messages.RequestKeyboardDecodes | Services/TelegramService.cs:53-64 | each button of a request decodes to its own action and the notification id; the link button carries the view URL |
| Messages.ProcessedText | Services/TelegramService.cs:168-175 | the edited text starts with the check mark iff APPROVED; it is the bare header iff the reason is null or empty, and otherwise ends with the reason |
| Messages.RequestText | Services/TelegramService.cs:39-49 | the request message opens with the request title and ends with the date line |
| Messages.RequestTextDescription | Services/TelegramService.cs:39-49 | the head carries the type, folio and requester lines in that order after the title; the description line follows it exactly when the description is non-empty; the date line closes the text |
| Messages.ResultText | Services/TelegramService.cs:93-104 | the result message opens with the check mark iff the record is APPROVED |
| Messages.ResultTextReason | Services/TelegramService.cs:99-104 | without a reason the text is the header sentence then the date line; the reason line appears only for REJECTED with a non-empty reason, inserted between the two with the rest unchanged |
| Messages.ResultKeyboard | Services/TelegramService.cs:106-118 | the view button is present iff the type has a non-empty view URL |
| Text.Split | Services/TelegramService.cs:226 | `Split('_')` gives at least one piece, and no piece contains the separator |
| Text.JoinSplit | Services/TelegramService.cs:226 | joining the pieces with the separator restores the string |
| Text.SplitJoin | Services/TelegramService.cs:226 | separator-free pieces are recovered by splitting their join |
| Text.Int32ParsesBack | Services/TelegramService.cs:230 | `int.TryParse` of the decimal form of any 32-bit value gives that value back |
| Text.Int64ParsesBack | Services/NotificationService.cs:352 | `long.TryParse` of the decimal form of any 64-bit value gives that value back |
| Text.ReplaceAllAbsent | Services/CallbackService.cs:61 | `Replace` leaves a string without the pattern unchanged |
| Text.ReplaceAllSplice | Services/NotificationService.cs:83-84 | when the text before an occurrence cannot start the pattern, that text is kept, the occurrence is replaced and the rest is processed in turn |
| Text.ToUpperAscii | Services/DocumentProxyService.cs:110 | the length is kept, ASCII letters are upper-cased and every other character is kept |
| Messages.ViewLinkSubstitutes | Services/NotificationService.cs:82-85 | `{folio}` then `{id}` are replaced in place in a view template |
| Callback.SendCallback | Services/CallbackService.cs:49-111 | no request without a type; otherwise a PATCH to the substituted URL with the payload; true iff a success status, false on exception |
| Callback.PayloadEchoesNotification | Services/CallbackService.cs:64-72 | the payload copies the decision fields and the approver name; its response instant falls back to now |
| Callback.CallbackUrlSubstitutes | Services/CallbackService.cs:60-61 | the URL is the base URL, then the endpoint with `{id}` replaced by the decimal document id |
| Callback.CallbackUrlWithoutPlaceholder | Services/CallbackService.cs:60-61 | an endpoint without a placeholder is appended unchanged |
| Workflow.IndexOfId | Services/NotificationService.cs:138-143 | the index found holds the first record with that id; none means no record has it |
| Workflow.IndexOfIdentity | Services/NotificationService.cs:296 | under the identity column, the record with id `i` is at index `i - 1` |
| Workflow.WrapInt32 | Services/TelegramService.cs:179 | the `(int)` cast keeps the value modulo 2^32 and is the identity in range |
| WorkflowProperties.SendRefusals | Services/NotificationService.cs:34-55 | an unknown or inactive type code, or an approver unknown or without a Telegram id, is refused with nothing stored or sent |
| Workflow.Send | Services/NotificationService.cs:29-135 | at most one call; a refusal names no record and leaves the store and the calls empty; an accepted request names the next id and sends one message; success implies the message was delivered |
| Workflow.Decide | Services/NotificationService.cs:251-292 | true iff some record has the id; false leaves the store and the calls untouched; the table keeps its size |
| Workflow.SetAwaitingReason | Services/NotificationService.cs:294-303 | true iff some record has the id; nothing is logged or sent, and the table keeps its size |
| WorkflowProperties.SendAccepted | Services/NotificationService.cs:57-95 | exactly one message, to the approver's Telegram id, with the approve/reject/view keyboard; exactly one record appended with the next id, the request's folio and parties, PENDING if delivered else ERROR; the response names it and succeeds iff delivered |
| WorkflowProperties.StoredRecord | Services/NotificationService.cs:62-124 | exactly one record with the request's fields and the defaults; PENDING with message id and sent instant iff delivered, else ERROR; CREATED, then SENT or ERROR, logged |
| WorkflowProperties.SendOutcomeNamesRecord | Services/NotificationService.cs:96-124 | the response names the new record either way and reports success iff the message was delivered |
| WorkflowProperties.RequestViewUrlFallback | Services/NotificationService.cs:82-85 | only a missing template falls back to `{baseUrl}/view/{id}`; an empty one gives an empty link |
| WorkflowProperties.RequestButtonsDecode | Services/TelegramService.cs:57-58 | the buttons of the request just sent decode to approve and reject of the new record |
| WorkflowProperties.ReportedEffect | Services/NotificationService.cs:251-283 | the decision stage: record decided and callback outcome stored; the decision entry then CALLBACK_SENT or CALLBACK_FAILED logged |
| WorkflowProperties.NotifiedEffect | Services/NotificationService.cs:376-404 | the requester is marked notified, and SOLICIT_NOTIFIED logged, iff reachable and the result message was delivered |
| WorkflowProperties.DecisionEffect | Services/NotificationService.cs:251-348 | a decision on an existing record answers true, changes only that record, and appends exactly the decision, callback and notification entries |
| WorkflowProperties.KindsInOrder | Services/NotificationService.cs:262-289 | in an edit-callback-message sequence each kind of call occurs iff its part is present |
| WorkflowProperties.DecisionCallKinds | Services/NotificationService.cs:262-289 | the request is edited iff chat and message ids are known; the callback is made iff the type is known; the result message is sent iff the requester is reachable |
| WorkflowProperties.DecisionOnUnknownId | Services/NotificationService.cs:253-254 | an unknown id answers false with nothing stored, logged or sent |
| WorkflowProperties.DecisionFields | Services/NotificationService.cs:256-258 | a decision sets status, response instant, the reason for a rejection and the callback flag, and no other field |
| WorkflowProperties.IndexOfIdKept | Services/NotificationService.cs:253 | changing a record without changing its id keeps every lookup by id |
| WorkflowProperties.ReportedIgnoresStatus | Services/NotificationService.cs:256-265 | the decision stage does not read the prior status |
| WorkflowProperties.CallsIgnoreStatus | Services/NotificationService.cs:262-289 | the calls of a decision do not depend on the prior status |
| WorkflowProperties.DecisionIgnoresPriorStatus | Services/NotificationService.cs:251-348 | there is no status guard: stores differing only in the decided record's status give the same outcome |
| WorkflowProperties.SecondApprovalLogsAgain | Services/NotificationService.cs:251-292 | approving twice logs two APPROVED entries and repeats the callback when the type is known |
| WorkflowProperties.ApprovalOverridesRejection | Services/NotificationService.cs:256-258 | approving a rejected record makes it approved and keeps the old reason |
| WorkflowProperties.AwaitingReasonEffect | Services/NotificationService.cs:294-303 | only the status of an existing record changes, to AWAITING_REASON; nothing is logged or sent; false iff the id is unknown |
| WorkflowProperties.StoredEvolves | Services/NotificationService.cs:62-124 | storing a request appends one record without a token and log entries, keeping ids, token uniqueness and log references |
| WorkflowProperties.SendEvolves | Services/NotificationService.cs:29-135 | sending keeps the store well formed and only appends, never DELIVERED |
| WorkflowProperties.UpdateEvolves | Services/NotificationService.cs:362-374 | changing a record in place and appending entries about existing records keeps the store well formed |
| WorkflowProperties.DecideEvolves | Services/NotificationService.cs:251-348 | a decision keeps the store well formed and never changes an id or a token |
| WorkflowProperties.SetAwaitingReasonEvolves | Services/NotificationService.cs:294-303 | marking as awaiting keeps the store well formed |
| WorkflowProperties.SendThenDecideEvolves | Services/NotificationService.cs:29-348 | sending a request and then approving or rejecting any record only evolves the store and keeps it well formed |
| Queries.GetAwaitingReasonByChatId | Services/NotificationService.cs:350-360 | nothing for a chat id that is not a 64-bit integer; otherwise an active record awaiting a reason in that chat, or none when no record is |
| Queries.AwaitingFoundByPrintedChat | Services/NotificationService.cs:350-360 | the decimal chat id Telegram sends finds the first record awaiting a reason in that chat |
| Queries.NewestFirstIsTotalPreorder | Services/NotificationService.cs:175 | newest-first is a total preorder, so sorting by it is defined |
| Queries.GetStatus | Services/NotificationService.cs:145-168 | a status row exists iff a record has the id, and it is that record's row |
| Queries.HistoryOrder | Services/NotificationService.cs:209-225 | the matching records, newest first, as a permutation of the filtered store |
| Queries.HistoryRecords | Services/NotificationService.cs:221-224 | at most 100 records, newest first, each active and matching every given filter |
| Queries.StatusRows | Services/NotificationService.cs:227-248 | one row per record, in the records' order, with its id, creation instant and status name |
| Queries.NewestFirst | Services/NotificationService.cs:175 | records sorted newest first have non-increasing creation instants |
| Queries.GetHistory | Services/NotificationService.cs:204-249 | at most 100 rows, newest first, each with the requested status when one is given |
| Queries.HistoryNewestFirst | Services/NotificationService.cs:221-224 | exactly min(100, matches) records are listed; all of them when there are at most 100; otherwise every one left out is no newer than any listed |
| Queries.PendingViewUrl | Services/NotificationService.cs:183-185 | a pending row has a link iff its type is known and has a template; there is no fallback |
| Queries.PendingRecords | Services/NotificationService.cs:172-176 | the approver's active PENDING records, newest first, each as often as in the store |
| Queries.PendingRows | Services/NotificationService.cs:178-201 | one row per record, in the records' order, with its id and creation instant |
| Queries.GetPendingByAuthorizer | Services/NotificationService.cs:170-202 | one row per pending record, newest first |
| Queries.PendingExactly | Services/NotificationService.cs:174 | a record is listed iff it is active, PENDING and addressed to that approver |
| Service.NotificationService.constructor | Services/NotificationService.cs:15-27 | the store starts empty and well formed |
| Service.NotificationService.FindIndex | Services/NotificationService.cs:138-143 | the linear search returns the first record with the id |
| Service.NotificationService.AddLog | Services/NotificationService.cs:362-374 | one entry appended with the current instant; the notifications are unchanged |
| Service.NotificationService.Send | Services/NotificationService.cs:29-135 | the tables, response and calls are those of the send workflow; the store stays well formed and only evolves |
| Service.NotificationService.NotifySolicit | Services/NotificationService.cs:376-404 | the result message goes only to a reachable requester; the record is marked and logged only when it was delivered |
| Service.NotificationService.Decide | Services/NotificationService.cs:251-348 | the tables, result and calls are those of the decision workflow; the store stays well formed |
| Service.NotificationService.Approve | Services/NotificationService.cs:251-292 | the approval workflow, with no status guard |
| Service.NotificationService.RejectWithReason | Services/NotificationService.cs:305-348 | the rejection workflow with the given reason, with no status guard |
| Service.NotificationService.SetAwaitingReason | Services/NotificationService.cs:294-303 | the awaiting-reason workflow; the store stays well formed |
| Service.NotificationService.GetAwaitingReasonByChatId | Services/NotificationService.cs:350-360 | the linear search returns the first active record awaiting a reason in the parsed chat |
| Service.NotificationService.GetStatus | Services/NotificationService.cs:145-168 | the status row of the record with the id, if any |
| Service.NotificationService.GetPendingByAuthorizer | Services/NotificationService.cs:170-202 | the pending answer: one row per pending record of the approver, newest first |
| Service.NotificationService.GetHistory | Services/NotificationService.cs:204-249 | the history answer: one row per history record, in the same order |
| Service.BuildPendingRows | Services/NotificationService.cs:178-201 | the loop builds exactly the pending rows of the records, in their order |
| Service.BuildStatusRows | Services/NotificationService.cs:227-248 | the loop builds exactly the status rows of the records, in their order |
| Webhook.ProcessCallbackQuery | Services/TelegramService.cs:215-254 | a press that makes no call changes nothing; one that makes calls had data decoding to an action and a chat, and its last call answers the press with that action's text |
| Webhook.ProcessTextMessage | Services/TelegramService.cs:256-282 | a message that makes no call changes nothing; one that makes calls had a non-empty text in a chat with an awaiting record, and its last call is the confirmation in that chat |
| Webhook.ProcessUpdate | Services/TelegramService.cs:191-213 | an update that makes no call changes nothing; a handled press ends with the answer, a handled text with the confirmation |
| Webhook.ButtonPressTakesPrecedence | Services/TelegramService.cs:195-207 | a message that comes with a button press is not read |
| Webhook.EmptyUpdatesIgnored | Services/TelegramService.cs:191-213 | an update with no button press and no non-empty text changes nothing and sends nothing |
| Webhook.UnknownButtonsIgnored | Services/TelegramService.cs:226-253 | data that does not decode, or another action, changes nothing and is not even answered |
| Webhook.ApproveButton | Services/TelegramService.cs:236-242 | the approve button runs the approval of its record, then answers; for an unknown id only the answer is sent |
| Webhook.RejectButton | Services/TelegramService.cs:243-253 | the reject button marks the record as awaiting a reason, asks for the reason in the chat, and answers; nothing is logged |
| Webhook.RejectPress | Services/TelegramService.cs:243-247 | the update carrying a reject press changes the store as marking the record awaiting does |
| Webhook.TextWithoutAwaitingIgnored | Services/TelegramService.cs:270-282 | a text in a chat where no record awaits a reason changes nothing and sends nothing |
| Webhook.TextRejectsAwaiting | Services/TelegramService.cs:256-282 | a non-empty text rejects the awaiting record with the text verbatim, then confirms in the chat |
| Webhook.ReasonRejects | Services/TelegramService.cs:256-282 | when the record is the first awaiting in its chat, the next text rejects exactly it with that reason |
| Webhook.RejectionDialogue | Services/TelegramService.cs:243-247 | pressing reject on a request in its chat makes that record the one awaiting a reason there |
| WebhookHandler.ProcessCallbackQuery | Services/TelegramService.cs:215-254 | the handler run on the store has the effect of the button-press routing |
| WebhookHandler.ProcessTextMessage | Services/TelegramService.cs:256-283 | the handler run on the store has the effect of the text routing |
| WebhookHandler.ProcessUpdate | Services/TelegramService.cs:191-213 | the handler run on the store has the effect of the update routing, and keeps the store well formed |
| DocumentTypes.ByCodeIsTotalPreorder | Controllers/DocumentTypeController.cs:32 | ordinal order on codes is a total preorder |
| DocumentTypes.GetAll | Controllers/DocumentTypeController.cs:28-36 | sorted by code, a permutation of the active rows |
| DocumentTypes.GetAllExactlyActive | Controllers/DocumentTypeController.cs:30-33 | a type is listed iff it is in the table and active, as often as stored |
| DocumentTypes.GetById | Controllers/DocumentTypeController.cs:42-52 | found iff some row has the id, whether active or not; otherwise NotFound with its message |
| DocumentTypes.GetByCode | Controllers/DocumentTypeController.cs:58-69 | found iff some active row has the code; otherwise NotFound with its message |
| DocumentTypes.CreateStep | Controllers/DocumentTypeController.cs:83-89 | Conflict iff any row, active or not, has the code |
| DocumentTypes.UpdateStep | Controllers/DocumentTypeController.cs:107-133 | the table keeps its size |
| DocumentTypes.DeleteStep | Controllers/DocumentTypeController.cs:139-154 | the table keeps its size |
| DocumentTypes.CreateKeepsInvariants | Controllers/DocumentTypeController.cs:75-101 | on any table with identity ids, even one holding duplicate codes: a conflict leaves the table; otherwise one active row is appended with the body's code, the next id and the current instant; ids stay the identity, and unique codes stay unique |
| DocumentTypes.CreatedIsFound | Controllers/DocumentTypeController.cs:91-100 | a created type is found by id and by code |
| DocumentTypes.UpdateRefusals | Controllers/DocumentTypeController.cs:109-118 | an id mismatch is refused before lookup, an unknown id is NotFound; both leave the table |
| DocumentTypes.UpdateOverwritesFields | Controllers/DocumentTypeController.cs:120-126 | only the addressed row changes, in exactly its seven mutable fields; id and creation instant stay |
| DocumentTypes.UpdateCanDuplicateCode | Controllers/DocumentTypeController.cs:120-128 | update does not re-check codes: it can make two rows share a code |
| DocumentTypes.DeleteDeactivates | Controllers/DocumentTypeController.cs:141-153 | delete only clears Active; the row is still found by id, no longer by code, and deleting again succeeds |
| DocumentTypes.DeleteUnknown | Controllers/DocumentTypeController.cs:141-145 | an unknown id is NotFound and leaves the table |
| DocumentTypes.DocumentTypeTable.constructor | Controllers/DocumentTypeController.cs:16-22 | the table starts empty |
| DocumentTypes.DocumentTypeTable.CodeExists | Controllers/DocumentTypeController.cs:83-84 | the linear search finds a row with the code iff there is one |
| DocumentTypes.DocumentTypeTable.IndexOfId | Controllers/DocumentTypeController.cs:114 | the linear search returns the first row with the id |
| DocumentTypes.DocumentTypeTable.Create | Controllers/DocumentTypeController.cs:75-101 | the table and outcome are those of the create step; ids stay the identity column, and codes that were unique stay unique |
| DocumentTypes.DocumentTypeTable.Update | Controllers/DocumentTypeController.cs:107-133 | the table and outcome are those of the update step |
| DocumentTypes.DocumentTypeTable.Delete | Controllers/DocumentTypeController.cs:139-154 | the table and outcome are those of the delete step |
| PublicView.FindByToken | Controllers/PublicViewController.cs:44-46 | the record found is active with that token; none means no active record has it |
| PublicView.GetDocumentByToken | Controllers/PublicViewController.cs:34-103 | Ok iff the token is not blank, an active record has it, the link has not expired and the type exists; the view echoes that record and type |
| PublicView.RefusalOrder | Controllers/PublicViewController.cs:38-62 | each refusal has its own message, and the checks apply in order: blank, not found, expired, missing type |
| PublicView.ExpiryBoundary | Controllers/PublicViewController.cs:16 | exactly 72 hours is still valid; one second more has expired |
| PublicView.InactiveRecordsInvisible | Controllers/PublicViewController.cs:44-51 | a token held only by inactive records is not found |
| PublicView.ViewShowsTokenOwner | Controllers/PublicViewController.cs:64-96 | under unique tokens, the view shows the record holding the token |
| DocumentProxy.StringProperty | Services/DocumentProxyService.cs:149-164 | a property is read only when present as a JSON string |
| DocumentProxy.RouteFor | Services/DocumentProxyService.cs:110-124 | routed iff the upper-cased code is OC, REQUIS, INCOME or EXPENSE; details only for OC and REQUIS |
| DocumentProxy.RouteIgnoresCase | Services/DocumentProxyService.cs:110 | routing ignores the case of the ASCII letters of the code |
| DocumentProxy.RouteTable | Services/DocumentProxyService.cs:110-124 | OC and REQUIS route alike, INCOME and EXPENSE alike, any other code not at all |
| DocumentProxy.FetchJson | Services/DocumentProxyService.cs:58-75 | a body only on a success status with a body; null on failure or exception |
| DocumentProxy.FetchImage | Services/DocumentProxyService.cs:77-98 | no request for a null or empty URL; a data URI exactly on success |
| DocumentProxy.FetchBranding | Services/DocumentProxyService.cs:143-177 | nothing fetched without idCompany; no images without company data |
| DocumentProxy.GetDocumentData | Services/DocumentProxyService.cs:100-216 | no request iff the code is not routed; a routed code requests its primary document first; data comes only from a primary document that is a JSON object |
| DocumentProxy.UnknownCodeFetchesNothing | Services/DocumentProxyService.cs:120-124 | an unknown code yields null with no fetch |
| DocumentProxy.NoPrimaryNoData | Services/DocumentProxyService.cs:129-134 | the result is null when the primary document fetch yields nothing, and any data carries the fetched primary document |
| DocumentProxy.SecondaryFailuresTolerated | Services/DocumentProxyService.cs:143-216 | failing secondary fetches do not fail the aggregation |
| DocumentProxy.ImagesNeedCompany | Services/DocumentProxyService.cs:149-164 | images are fetched only after company data came back |
| DocumentProxy.SecondLogoFallsBack | Services/DocumentProxyService.cs:173-175 | the second logo falls back to the first when its own fetch yields nothing |
| DocumentProxy.SecondaryFetchConditions | Services/DocumentProxyService.cs:179-197 | provider data present only with a positive idProvider; materials only for OC/REQUIS with idCompany |
| DocumentProxy.AggregateFields | Services/DocumentProxyService.cs:136-208 | with data: the document is the primary fetch; details are the line-item fetch exactly for OC/REQUIS; company data and the three images are the branding stage's; provider data is the provider fetch exactly for a positive idProvider; materials are the materials fetch exactly for OC/REQUIS with idCompany; otherwise each is null |
| DocumentProxy.AggregateFetches | Services/DocumentProxyService.cs:128-196 | with data, the requests are exactly, in order: the primary GET, the line items for OC/REQUIS, the branding requests, the provider for a positive idProvider, the materials for OC/REQUIS with idCompany |

## Left out

- The public view's catch-all, which answers 500 on an exception, is not modelled: the model's lookups do not fail.
- Persistence. EF Core, `SaveChangesAsync`, `Include` and the database exceptions they can raise are left out. The tables are sequences, and the catch-all of `SendNotificationAsync` that returns the exception message is not modelled.
- The user directory is the security database's user table as a sequence of rows, inactive ones included; `GetUserById` searches it. A database exception, which the lookup turns into null, is not modelled.
- Telegram Bot API calls are modelled as outbound `Effect`s.
  - Their answers are parameters: the message id of the request, and whether the result message was delivered.
  - A failure of the ask-reason, answer-callback or confirmation calls is not modelled. In the code it is caught and logged, and nothing follows those calls in their handler.
- JWT signing, `SetAuthHeader`, JSON (de)serialisation and base64 encoding are abstract. The JSON values are a small datatype, and base64 is a function parameter.
- Dates: `DateTime.Now` is an integer clock in seconds. `dd/MM/yyyy HH:mm` formatting is a function parameter. The `TotalHours` double of the public view is the integer comparison `now - createdAt > 72*3600`.
- The parallel image fetch (`Task.WhenAll`) is three independent fetches in a fixed order.
- `ModelState` validation, the client-supplied id of a create body (the model assigns the next identity), routing, CORS, SignalR and the forwarding controllers are not part of this model.
- `GetByIdAsync` loading the log collection of a notification is not modelled. The decisions read only the record.
- Codes are ordered ordinally, not by the database collation. Records with equal creation instants are ordered by the model's stable sort; the database leaves their order unspecified.
- String equality in queries is ordinal in the model. On SQL Server, `=` follows the column collation: the default one ignores case, and every collation ignores trailing spaces. This affects `Models.FindActiveTypeByCode`, `DocumentTypes.HasCode` and `DocumentTypes.CreateStep`, and `Queries.MatchesHistory` (the status filter). For example, with the default collation a request for code "oc" finds a stored "OC", but the model refuses it with TypeMissing.
- A `FirstOrDefault` without an `OrderBy` picks no defined row in the database. The model takes the first match in table order. This affects `Queries.GetAwaitingReasonByChatId` and therefore `Webhook.ReasonRejects` and `Webhook.ProcessTextMessage`: with two records awaiting a reason in one chat, the program rejects an unspecified one, and the model rejects the lowest-indexed.
- DocumentProxy.RouteFor: upper-casing is ASCII-only and culture-invariant (`Text.ToUpperAscii`). .NET `ToUpper()` uses the server's culture over all of Unicode. So "requıs" (dotless ı) is routed by the program and not by the model, and under a Turkish culture "requis" becomes "REQUİS" and is not routed by the program, while the model routes it.
- Callback.SendCallback: a `Threw` reply is an exception from the send itself, so the outcome records the PATCH request as made. An exception raised before the send, while serialising the payload or generating the token, also returns false but sends nothing; the model does not distinguish it.
- The integer identity column is unbounded. An `int` overflow of ids is not modelled.
- `GetDocumentData` takes the microservice name as in the code, where it is unused.
- Declared string column widths are not enforced on writes. `FitsColumns` only states them. Models.NewNotificationFits and `FitsColumns` count lengths in Unicode scalar values, while `[StringLength]` and `nvarchar` count UTF-16 code units. So a folio of 26 emoji fits the 50-character bound in the model but takes 52 units in .NET.
- Duplicate webhook deliveries are not guarded against in the code. The model claims no at-most-once behaviour.
- The `AccessToken` of a notification is an optional field that no operation of the service sets.
- DocumentTypes.UpdateStep: its contract states only that the table keeps its size. Its meaning is stated by `UpdateRefusals` and `UpdateOverwritesFields`.
- DocumentTypes.DeleteStep: its contract states only that the table keeps its size. Its meaning is stated by `DeleteDeactivates` and `DeleteUnknown`.
