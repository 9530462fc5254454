# unibox campaign pipeline — a Dafny model

unibox sends e-mail campaigns. A campaign is created as a `draft` from an uploaded
list, and activation turns it into recipients. A scheduler tick then publishes one
`campaign.send` job per pending recipient, up to the campaign's per-minute throttle.
The orchestrator turns each job into an Email for the recipient's current step. The
router rate-limits per mailbox provider and assigns a verified sender. The sender
worker dispatches the Email and records the outcome.

The model covers that core, one Dafny module per source file:

- the lifecycle guard (`CampaignGuards`);
- the template renderer (`TemplateRenderer`);
- the four workers (`CampaignScheduler`, `CampaignOrchestrator`, `EmailRouter`, `EmailSender`);
- the two controllers (`CampaignController`, `SenderController`);
- the two schemas (`CampaignStepModel`, `SenderModel`).

Four shared modules support them:

- `Wrappers` holds Option and Result.
- `Text` stands for the string built-ins the code calls: `split("@")[1]`, `slice`, `toLowerCase` and `String(n)`.
- `Records` holds the rows of the tables whose model files are not part of this model.
- `StateStore` is a class `Store` with one field per table. A table is a map keyed by its primary or unique key, or an append-only sequence. The store also holds the Redis rate counters, the four queues (`campaign.send`, `email.route`, `email.send`, `campaign.tick`) and the calls made to the campaign completion checker.

Each handler is a module-level method that takes the store (`db: Store`) and changes
only the tables its `modifies` clause names. Its `ensures` say, for each outcome, when that
outcome happens (as an if-and-only-if over the old state) and what the whole new
state is. Pure pieces are functions with lemmas: the guard table, the renderer, the
limits, the rate check, the selection rule and the message id. Every handler keeps
`Store.Valid()`, which says:

- every row is keyed by its own id;
- step rows are unique per `(campaignId, stepOrder)`;
- send rows are unique per `(campaignId, recipientId, step)`;
- every send row's `emailId` names an existing Email, and no two send rows link the same Email;
- sender emails are unique;
- recipients are unique per `(campaignId, email)`.

The model follows the code as written, including the places where the stages do not
fit together. The module `Pipeline` states these facts:

- The orchestrator stores the campaign's `senderId` on every Email it creates (`src/workers/campaign-orchestrator.worker.js:178`). The router discards any Email whose `senderId` is set (`src/workers/email-router.worker.js:79`). So no campaign Email reaches the send queue through the router (`Pipeline.OrchestrateThenRoute`).
- `isVerified` is read by the router and the sender worker but is not a column of `src/models/sender.model.js`. The model keeps it as a stored field of the sender row, which the code never sets. So even under that reading, a sender created through the endpoint is never selectable (`Pipeline.CreatedSenderNeverEligible`). What the code does with the missing column itself is stated under "Left out" (`EmailSender.HandleSend`, `EmailRouter.SelectSender`).
- The router prefers the sender type `"outlook"` for MICROSOFT. That value is not in the provider enumeration (`EmailRouter.PreferredTypeMatchesOnlyForGoogle`). The model takes the query for it to find no row and fall back to any verified sender; on some databases the query fails instead (see `EmailRouter.SelectSender` under "Left out").
- The orchestrator leaves a recipient at `sent`, and the scheduler selects only `pending` recipients. So a recipient gets at most its first step through the scheduler (`Pipeline.AdvancedRecipientLeavesWindow`).
- The step 0 row that `ensureStepZero` asks for has no `templateId`, which the step schema declares required (`Pipeline.StepZeroBreaksDeclaredSchema`).

Where the documented design of the system and the code disagree, the model follows the code:

- The tick selects pending recipients without looking at their `nextRunAt`.
- `throttlePerMinute` is not kept at 1 or more: `createCampaign` stores any non-zero value, and a negative throttle reaches the tick's recipient query as a negative LIMIT. What happens then depends on the database, which the code does not name; the model takes the query to fail (see `CampaignScheduler.RunTick` under "Left out").

Time is an integer number of milliseconds. A minute bucket is `now / 60000`; for a
positive divisor this is the floor the code takes. Ids are natural numbers handed out
by a counter in place of UUIDs. Only their distinctness matters.

## Model

| member | source | states |
|---|---|---|
| CampaignGuards.AssertTransition | src/utils/campaign-guards.js:1-12 | The check returns without error exactly for the listed edges, and otherwise fails with an error naming both ends. Completed and stopped have no exits. An accepted edge never targets draft and is never a self-loop. From draft, only scheduled is accepted. |
| CampaignGuards.DraftNeverReentered | src/utils/campaign-guards.js:1-6 | Along any sequence of accepted transitions, no status after the first is draft. |
| CampaignGuards.TerminalEndsPath | src/utils/campaign-guards.js:1-9 | On any accepted path, completed or stopped can only be the last status. |
| Text.AfterFirstAt | src/controllers/sender.controller.js:25 | `split("@")[1]` is absent exactly when there is no `@`. Otherwise it is the `@`-free text between the first `@` and the next `@` or the end. |
| Text.AfterFirstAtJoin | src/controllers/sender.controller.js:25 | For `a@b` with a single `@`, the split gives back `b`. |
| Text.Prefix | src/workers/email-sender.worker.js:143 | `slice(0, n)` is a prefix of the input. An input no longer than n is returned whole; a longer one gives exactly its first n characters. |
| Text.LowerChar | src/workers/campaign-orchestrator.worker.js:132 | An ASCII capital becomes the lower-case letter at the same place in the alphabet; every other character is kept. |
| Text.ToLower | src/workers/campaign-orchestrator.worker.js:132 | Lower-casing keeps the length and maps each character through `LowerChar`. |
| Text.NatToDecimal | src/utils/template-renderer.js:6 | The decimal form of a natural number is a non-empty string of digits. |
| Text.NatToDecimalDenotes | src/utils/template-renderer.js:6 | The digits read back as the number, and there is no leading zero except in "0". |
| Text.IntToDecimal | src/utils/template-renderer.js:6 | `String(n)` for an integer is non-empty, holds neither `@` nor `.`, and starts with `-` exactly when n is negative. |
| Text.IntToDecimalDenotes | src/utils/template-renderer.js:6 | After the sign, `String(n)` is digits without a leading zero that read back as the absolute value of n. |
| TemplateRenderer.ValueText | src/utils/template-renderer.js:5-6 | undefined and null render as "". Strings render as themselves, booleans as "true"/"false", and integers as their decimal form. The result is empty only for undefined, null or "". |
| TemplateRenderer.Lookup | src/utils/template-renderer.js:5 | A key is looked up literally, dots included. A missing key renders as "". |
| TemplateRenderer.MatchAt | src/utils/template-renderer.js:4 | A match starts with `{{`, ends with `}}`, spans at least five characters and has a non-empty key. Text not starting with `{{` never matches. |
| TemplateRenderer.MatchedKeyIsKey | src/utils/template-renderer.js:4 | A matched key consists of word characters and dots only. |
| TemplateRenderer.SpanKeyExact | src/utils/template-renderer.js:4 | The key scan stops exactly at the first character outside `[\w.]`, which is the greedy `[\w.]+`. |
| TemplateRenderer.RenderTemplate | src/utils/template-renderer.js:1-8 | A missing or empty template renders to "". A template with no placeholder is returned unchanged. |
| TemplateRenderer.SubstituteWithoutPlaceholder | src/utils/template-renderer.js:4 | Text in which no position starts a placeholder is returned unchanged. |
| TemplateRenderer.PlainTextPreserved | src/utils/template-renderer.js:4 | Text without `{` is copied in order ahead of the rendering of whatever follows. |
| TemplateRenderer.PlaceholderMatches | src/utils/template-renderer.js:4 | `{{ ws key ws }}` (any whitespace, key of `[\w.]+`) matches at its start, with exactly that key and that width, whatever follows. |
| TemplateRenderer.PlaceholderReplaced | src/utils/template-renderer.js:4-6 | Rendering `{{ ws key ws }}` followed by more text gives the key's value text followed by the rendering of the rest. |
| TemplateRenderer.MatchIsPlaceholder | src/utils/template-renderer.js:4 | Conversely, every match spans exactly `{{`, whitespace, its key, whitespace and `}}`, and its key is made of `[\w.]`. With `PlaceholderMatches`, a match at a position happens exactly when a well-formed placeholder starts there. |
| TemplateRenderer.MalformedPlaceholderNotMatched | src/utils/template-renderer.js:4 | `{{` followed by a key and then a character that is neither whitespace, a key character nor `}` (e.g. `{{a-b}}`) is not a placeholder. |
| TemplateRenderer.MalformedPlaceholderCopied | src/utils/template-renderer.js:4-6 | Such a malformed placeholder stays in the rendered text: `{{`, the whitespace and the key are copied as they are, and rendering goes on at the offending character. |
| CampaignStepModel.DelayOf | src/models/campaign-step.model.js:28-31 | A missing delay counts as 0 minutes; a present one is used as is. |
| CampaignStepModel.FindStep | src/models/campaign-step.model.js:41 | Under the unique `(campaignId, stepOrder)` index, the lookup finds a row exactly when one is stored under that key, and the row it finds has that campaign and order. |
| SenderModel.ParseProvider | src/models/sender.model.js:38-41 | A provider value is accepted exactly when it is smtp, gmail or ses, and it is stored under that name. |
| SenderModel.ProviderNameRoundTrip | src/models/sender.model.js:38-41 | Reading a stored provider name back gives the same provider. |
| SenderModel.OutlookIsNotAProvider | src/models/sender.model.js:39 | No provider is called "outlook", and "outlook" is refused. |
| SenderModel.InsertKeepsEmailsUnique | src/models/sender.model.js:61 | Inserting a row whose email no row uses keeps sender emails unique. |
| StateStore.Store.NewId | src/models/sender.model.js:7-11 | A new primary key is distinct from every campaign, recipient, Email and sender id in use. |
| StateStore.InsertRecipient | src/controllers/campaign.controller.js:81-83 | Adding a recipient under a fresh id, for a `(campaignId, email)` pair not yet present, keeps recipients keyed and unique. |
| CampaignOrchestrator.EnsureStepZero | src/workers/campaign-orchestrator.worker.js:35-53 | Get-or-create. An existing step 0 is returned and the table is unchanged. Otherwise exactly one row is added at `(campaign, 0)`: delay 0, condition always, the campaign's subject and bodies, and no templateId. |
| CampaignOrchestrator.StepOf | src/workers/campaign-orchestrator.worker.js:88-90 | The step processed is the recipient's `currentStep` when it is an integer, else 0. The job's own step is not consulted. |
| CampaignOrchestrator.TemplateVars | src/workers/campaign-orchestrator.worker.js:169-173 | The variables are name, email and the metadata keys. Metadata entries win. name defaults to "there" when the recipient's name is missing or empty. |
| CampaignOrchestrator.FinishRecipient | src/workers/campaign-orchestrator.worker.js:112-125 | Finishing a recipient sets the given status, clears `nextRunAt` and records one completion check of the campaign. Nothing else about the recipient changes. |
| CampaignOrchestrator.SendRow | src/workers/campaign-orchestrator.worker.js:154-160 | `findOrCreate` yields the existing row for the key, or a new queued row with the campaign's sender and no Email. |
| CampaignOrchestrator.CreateLinkedEmail | src/workers/campaign-orchestrator.worker.js:175-199 | Exactly one Email is added, under a fresh id, carrying the rendered subject and html and the step. The send row is stored linking that id. |
| CampaignOrchestrator.AdvanceRecipient | src/workers/campaign-orchestrator.worker.js:190-198 | The recipient becomes sent at step + 1, and `nextRunAt` is now plus `delayMinutes` (0 when missing) minutes. |
| CampaignOrchestrator.SendStep | src/workers/campaign-orchestrator.worker.js:175-209 | The success path: one Email created and linked, the recipient advanced, and exactly one route message naming the Email. |
| CampaignOrchestrator.ProcessFoundStep | src/workers/campaign-orchestrator.worker.js:130-209 | With a step row found: an unverified address stops the recipient (and nothing else is written). A non-queued send row changes nothing. Otherwise the success path runs. Each outcome comes with its if-and-only-if. |
| CampaignOrchestrator.ProcessStep | src/workers/campaign-orchestrator.worker.js:88-209 | After the guards: no step row completes the recipient with no Email and no send row. The verification check comes only after a step exists. Each outcome comes with its if-and-only-if and its exact new state. |
| CampaignOrchestrator.HandleCampaignSend | src/workers/campaign-orchestrator.worker.js:68-226 | A missing or non-running campaign, or a missing or non-pending recipient, changes nothing. Otherwise exactly one of completed, stopped, discarded duplicate, or one Email plus one route message, with the whole new state for each. A redelivered job is discarded after any outcome other than a duplicate. |
| EmailRouter.ProviderLimit | src/workers/email-router.worker.js:16-21 | The per-minute limit is 20 for GOOGLE, 15 for MICROSOFT, 10 for YAHOO and 5 for every other provider. |
| EmailRouter.DetectedProvider | src/workers/email-router.worker.js:88 | An absent or empty detected provider is UNKNOWN; otherwise the detected one. |
| EmailRouter.MapProviderToSenderType | src/workers/email-router.worker.js:40-49 | GOOGLE prefers "gmail", MICROSOFT "outlook", and every other provider has no preference. |
| EmailRouter.PreferredTypeMatchesOnlyForGoogle | src/workers/email-router.worker.js:40-49 | Of the two preferences, only GOOGLE's names a sender provider (gmail). MICROSOFT's "outlook" is outside the provider enumeration. |
| EmailRouter.RateCheck | src/workers/email-router.worker.js:100-106 | A request passes exactly when the counter is below the limit. Passing adds one; an over-limit increment is undone, so the counter is unchanged. |
| EmailRouter.WindowAdmitsAtMostLimit | src/workers/email-router.worker.js:99-106 | Of n sequential requests in one window, exactly min(n, limit − count) pass. The counter ends at count plus that number and never exceeds the limit. |
| EmailRouter.FindOldest | src/workers/email-router.worker.js:132-146 | Finds a sender exactly when an eligible one (live, verified, of the type if one is given) exists. The one found has the smallest `updatedAt` among them. |
| EmailRouter.SelectSender | src/workers/email-router.worker.js:126-147 | The oldest verified sender of the preferred type, else the oldest verified sender. None exactly when no verified sender exists. The chosen one is always live and verified. |
| EmailRouter.CountRequest | src/workers/email-router.worker.js:99-106 | The counter of the key goes up by one when the request passes and is unchanged when it does not. All counters stay within their limits. |
| EmailRouter.AssignSender | src/workers/email-router.worker.js:156-167 | The Email gets the sender, the provider, the confidence and `routedAt`, and exactly one send message names it. |
| EmailRouter.HandleRoute | src/workers/email-router.worker.js:60-184 | An unparsable message, a missing Email or an already routed one changes nothing. Otherwise the provider's minute window is counted. Over the limit: the Email is unchanged and the message is re-published. With no verified sender: the increment stays and nothing else changes. Otherwise the chosen sender is assigned and one send message is emitted. A routed Email is discarded on redelivery. |
| EmailSender.Truncate | src/workers/email-sender.worker.js:143 | A stored error is a prefix of the message. A message of at most 500 characters is kept whole; a longer one is cut to exactly its first 500. |
| EmailSender.DomainText | src/workers/email-sender.worker.js:62 | The domain printed in the message id holds no `@`. A sender address without `@` prints "undefined". |
| EmailSender.MessageIdHead | src/workers/email-sender.worker.js:29 | The part before `@` opens with `<`, then the Email id and a dot. It holds no `@` when the nonce holds none. |
| EmailSender.MessageIdOpensWithEmailId | src/workers/email-sender.worker.js:28-30 | The message id is bracketed by `<` and `>` and begins with the Email id followed by a dot. |
| EmailSender.MessageIdCarriesDomain | src/workers/email-sender.worker.js:28-30 | When the nonce has no `@`, splitting the message id at `@` gives back exactly the sender's domain. |
| EmailSender.SenderDomainRecovered | src/workers/email-sender.worker.js:62 | A sender address `local@domain` puts `domain` in the message id. |
| EmailSender.UpdateLinked | src/workers/email-sender.worker.js:119-122 | The bulk update touches exactly the send rows linked to the Email, setting their status (and `sentAt` or error), and no other row. |
| EmailSender.IncrementTotalSent | src/workers/email-sender.worker.js:123-126 | The Email's campaign gets `totalSent` + 1 and every other campaign is unchanged. A missing campaign changes nothing. |
| EmailSender.RecordFailure | src/workers/email-sender.worker.js:137-161 | The Email becomes failed with the truncated error. The linked send rows become failed only when one was loaded. Exactly one hard bounce is appended. |
| EmailSender.RecordSuccess | src/workers/email-sender.worker.js:113-132 | The Email becomes sent with the message id and send time. The linked sends become sent, `totalSent` rises by one and one sent event is appended. |
| EmailSender.Deliver | src/workers/email-sender.worker.js:53-161 | The message is discarded, with nothing written, exactly when the Email's send row exists and is no longer queued. Otherwise one queued event is recorded, then the success bookkeeping (exactly when the transport delivered) or the failure bookkeeping with the transport's message. |
| EmailSender.HandleSend | src/workers/email-sender.worker.js:39-163 | A missing or already sent Email changes nothing, so redelivery after success is a no-op. An unusable sender fails the Email with one hard bounce, before any event and without touching send rows. A usable sender's Email is discarded, with nothing written, exactly when its send row exists and is no longer queued. Otherwise Deliver's outcomes follow. |
| CampaignScheduler.Window | src/workers/campaign-scheduler.worker.js:73 | The window size is never 0: a zero throttle gives 10, a positive one is used as is, and it is negative exactly when the throttle is. |
| CampaignScheduler.SelectPending | src/workers/campaign-scheduler.worker.js:68-74 | min(limit, pending count) jobs, each for a distinct pending recipient of the campaign, carrying its id and stored current step. |
| CampaignScheduler.ProcessCampaign | src/workers/campaign-scheduler.worker.js:44-107 | A campaign that is not due is untouched and gets no jobs. A due one becomes running. Then exactly one of three things happens: its negative throttle is refused, it has no pending recipients and emits nothing, or it emits a full window of jobs. |
| CampaignScheduler.AppendWindow | src/workers/campaign-scheduler.worker.js:96-106 | Appending one campaign's jobs leaves every other campaign's jobs as they were. |
| CampaignScheduler.RunTick | src/workers/campaign-scheduler.worker.js:43-108 | Over all scheduled or running campaigns, the only status change is a due scheduled campaign becoming running. Every published job is for a pending recipient of a due, active campaign. Finished or not, each campaign's jobs are none or one window: at most its throttle (10 for 0) and at most its pending recipients, each for a different recipient. A finished loop gives every due campaign a full window, gives the others no jobs and leaves every due campaign running. A loop that stopped early met a negative throttle. |
| CampaignScheduler.SchedulerTick | src/workers/campaign-scheduler.worker.js:32-111 | The store takes the loop's campaign statuses. The `campaign.send` queue grows by exactly the published jobs, and the guarantees of RunTick hold of the stored state. |
| CampaignScheduler.TickEdgeIsGuarded | src/workers/campaign-scheduler.worker.js:60-62 | The scheduled-to-running move the tick makes without consulting the guard is an edge the guard accepts. |
| SenderController.SenderRow | src/controllers/sender.controller.js:5-33 | Missing email or provider gives the 400. A missing displayName or an address without `@` hits a required column. An unknown provider is refused. Otherwise the row has the requester as owner, the domain from `split("@")[1]`, `smtpPass` from `smtpPassword`, `smtpSecure` default false, and is not verified. |
| SenderController.StoredDomainOfPlainAddress | src/controllers/sender.controller.js:25 | For `local@domain` with one `@`, the stored domain is exactly `domain`. |
| SenderController.CreateSender | src/controllers/sender.controller.js:5-39 | On success the table gains exactly the new row. Every error leaves it unchanged. The unique index refuses the row exactly when its email is already taken. |
| SenderController.ListSenders | src/controllers/sender.controller.js:41-48 | The list holds exactly the requester's live senders, each once, ordered newest `createdAt` first. |
| SenderController.SortNewestFirst | src/controllers/sender.controller.js:42-45 | Orders the given senders by `createdAt` descending, each exactly once. |
| CampaignController.ThrottleOrDefault | src/controllers/campaign.controller.js:49 | A missing or zero throttle becomes 10, and any other value is kept. |
| CampaignController.CreateCheck | src/controllers/campaign.controller.js:24-37 | Missing name, subject, senderId or listBatchId gives the 400 "Missing required fields". Otherwise a batch that is absent, owned by someone else or not completed gives "List batch not ready". Otherwise creation proceeds. |
| CampaignController.NewCampaign | src/controllers/campaign.controller.js:39-51 | The new campaign is a draft owned by the requester, carries the request fields and has a non-zero throttle. |
| CampaignController.NewCampaignOnlyActivates | src/controllers/campaign.controller.js:50 | A new campaign's status admits exactly one move, to scheduled. |
| CampaignController.CreateCampaign | src/controllers/campaign.controller.js:11-57 | A rejected request changes nothing. An accepted one adds exactly the new draft under a fresh id. |
| CampaignController.NewRecipient | src/controllers/campaign.controller.js:76-79 | A materialised recipient has the campaign and the record's address, and starts pending at step 0. |
| CampaignController.BulkInsert | src/controllers/campaign.controller.js:69-83 | Existing recipients are kept. Every new one is a default row for an address of a parsed or duplicate record of the batch. Every such address ends up with a recipient of the campaign. Recipients stay unique. |
| CampaignController.ActivateCampaign | src/controllers/campaign.controller.js:59-94 | A missing campaign gives the 404, and a non-draft one is refused by the guard, both before any write. A draft gains its recipients, becomes scheduled with `scheduledAt` = now, and one tick is published. |
| CampaignController.ActivatedIsDue | src/controllers/campaign.controller.js:85-88 | An activated campaign is selected by the tick and is due from the activation instant on. |
| CampaignController.MoveCampaign | src/controllers/campaign.controller.js:99-104 | A missing campaign fails. Otherwise the move succeeds exactly for a lifecycle edge and then writes only the new status. A refused move writes nothing. |
| CampaignController.PauseCampaign | src/controllers/campaign.controller.js:99-107 | Pause succeeds exactly from scheduled or running and sets paused; otherwise nothing changes. |
| CampaignController.ResumeCampaign | src/controllers/campaign.controller.js:112-122 | Resume succeeds exactly from scheduled or paused, sets running and publishes one tick; otherwise nothing changes. |
| CampaignController.PauseThenResume | src/controllers/campaign.controller.js:102-117 | A campaign that could be paused was scheduled or running, and a paused campaign can always be resumed. |
| Pipeline.OrchestrateThenRoute | src/workers/campaign-orchestrator.worker.js:178 | An Email the orchestrator creates is discarded by the router as already routed (email-router.worker.js line 79): nothing reaches the send queue and no rate counter moves. |
| Pipeline.CreatedSenderNeverEligible | src/controllers/sender.controller.js:21-33 | A sender created through the endpoint is never verified, so the router never selects it (email-router.worker.js line 134). |
| Pipeline.AdvancedRecipientLeavesWindow | src/workers/campaign-orchestrator.worker.js:191-193 | A recipient the orchestrator advanced is no longer pending, so no later tick selects it (campaign-scheduler.worker.js line 71). |
| Pipeline.StepZeroBreaksDeclaredSchema | src/models/campaign-step.model.js:23-26 | The auto-created step 0 lacks the required `templateId`, while having order 0 and delay 0. |

## Left out

- Broker I/O: connections, `assertQueue`, `prefetch`, acknowledgement and persistence. Every modelled handler outcome acknowledges its message, and each queue is a sequence that handlers append to.
- Concurrency: several consumers, the interleaving of awaited calls and `Promise.all`. Each handler is one atomic step. In particular the orchestrator's `findOrCreate` and the later `send.update` are one write.
- The `setTimeout` delay before an over-limit route message is re-published. The re-publish is an immediate append to the route queue.
- The `setInterval` timer that starts a tick. One tick is one method call. Its status writes and queue appends are applied to the store together after the loop; no other handler runs in between, so nothing can observe the difference.
- Redis key expiry (`expire`). A window ends because the next minute uses a new key; old counters are kept.
- The MTA detector, the clock, `randomUUID` and `new Date()` are parameters of the handlers: `mta`, `now` and `uuid`.
- The timezone conversion in the tick. It does not change the instant compared with `scheduledAt`.
- The transports: nodemailer SMTP, the Microsoft Graph call and `getValidMicrosoftToken`. The transport's verdict is the `Dispatch` parameter. The Graph branch needs a sender whose provider is "outlook", which the provider enumeration does not allow.
- `tryCompleteCampaign`: its code is not part of this model. Each call is recorded as an entry of `completionChecks`.
- The verification registry is a map from normalised address to status. Its model is not part of this model.
- The Campaign, CampaignRecipient, CampaignSend, Email, EmailEvent, BounceEvent and list upload models are not part of this model. Their rows carry the fields the handlers touch. Recipient defaults are taken to be status pending and step 0. Recipients are taken to be unique per `(campaignId, email)`, which is what `ignoreDuplicates` relies on.
- Malformed JSON on `campaign.send` and `email.send`: it is parsed outside the handlers' try blocks, so such a message is never acknowledged. Jobs are modelled as already parsed.
- The exception path of a database call that fails for other reasons (connection loss and the like).
- Logging and all console output.
- Swagger, the routes and the authentication middleware. The requesting user is a parameter.
- CampaignOrchestrator.EnsureStepZero: the model inserts the row that is asked for. It does not model the ORM's refusal of a row whose required `templateId` is missing, or the dropping of the undeclared subject and body columns. Step rows carry those columns as optional fields, and `Pipeline.StepZeroBreaksDeclaredSchema` records the mismatch.
- TemplateRenderer.Lookup: a key that names a member inherited from `Object.prototype` (such as `constructor`) reads as missing. In JavaScript it yields that member's text.
- TemplateRenderer.ValueText: the values modelled are undefined, null, strings, booleans and integers. Fractional numbers, objects and arrays are not modelled. Integers are rendered as decimal digits, which is what `String(n)` gives only for |n| < 10^21; from 10^21 on it gives exponent form (`"1e+21"`), and integers beyond 2^53 are not exact JavaScript numbers in the first place.
- Text.IntToDecimal: the digit form, and `Text.IntToDecimalDenotes`'s read-back, hold for `String(n)` only when |n| < 10^21 (and n is an exact JavaScript number, |n| ≤ 2^53). Larger values get exponent form in JavaScript, which is not modelled. The millisecond clock in the message id stays far below that bound; Email ids are counters standing in for UUIDs, so their text is a stand-in anyway.
- Text.IntToDecimalDenotes: holds of JavaScript's `String(n)` only for |n| < 10^21, as the line above says.
- EmailSender.Truncate: lengths count Unicode scalar values (Dafny `char`), while `slice(0, 500)` counts UTF-16 code units. A message holding characters outside the Basic Multilingual Plane (emoji, for example) is cut at a different place, and JavaScript may split a surrogate pair there. The same holds for `Text.Prefix` and the 8-character nonce of the message id. For text inside the Basic Multilingual Plane the two counts agree.
- Text.Prefix: counts Unicode scalar values where `slice` counts UTF-16 code units, as the line above says.
- Text.ToLower: covers ASCII letters only. Case mapping outside ASCII is not modelled.
- EmailSender.HandleSend: the model reads `isVerified` from the stored sender row as if it were a column. `src/models/sender.model.js` declares no such attribute, so the row `Sender.findByPk` loads never carries it. As written, `!sender.isVerified` is therefore always true, and every message for an existing unsent Email takes the "Sender unavailable" path: the Email becomes failed and one hard bounce is recorded. Under the model's reading, the send-row, success and transport-failure paths are also reachable.
- EmailRouter.SelectSender: the model filters senders on the stored `isVerified` flag. On a table built from the declared schema, the `where: { isVerified: true }` filter names a missing column, so the query fails, and the handler ends in the same catch-and-acknowledge as "No verified sender available". Separately, the preferred-type query filters the provider enumeration on `"outlook"`. The model takes that query to find no row and fall back to any verified sender. On a database that checks enumeration literals (PostgreSQL raises "invalid input value for enum"), the query fails and the handler ends in its catch block before the fallback. The code names no database.
- EmailRouter.HandleRoute: messages are handled one at a time. The counter bound does not cover concurrent consumers incrementing the same key.
- CampaignScheduler.RunTick: a negative throttle is taken to make the recipient query fail, and the failure to end the tick with the earlier campaigns' effects kept. The code names no database, and some (SQLite, for one) read a negative LIMIT as no limit. The tick's `setInterval` callback has no try/catch, so in Node the failure is an unhandled rejection, which by default ends the scheduler process rather than only the tick. Neither is modelled.
- CampaignScheduler.SelectPending: the database returns rows in no stated order, so which pending recipients fill a window is left open.
- SenderController.SenderRow: the order in which the ORM reports a null column, an unknown provider and a duplicate email is taken to be: null column, then provider, then the unique index.
- CampaignController.MoveCampaign: pausing or resuming a missing campaign reads `status` of null. That is modelled as the error `NoCampaign`; the TypeError's text is not modelled.
