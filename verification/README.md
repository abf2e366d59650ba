# Verified models of the CRM's automation graphs, work queues and realtime delivery

Dafny models, with proofs, of the parts of the CRM that carry algorithms, concurrent protocols and stateful queues.
Code that only computes is modelled by functions; code that updates state step by step by classes, methods and loops
whose contracts are stated with those functions; code that several processes run at once by state machines whose steps
are its statements, with invariants over every run.

| module | models |
|---|---|
| `Ordering`, `Decimals`, `JsonValue`, `GraphSchema` | sorting, numbers as text, JSON values, `normalizeGraph` |
| `Paths`, `GraphValidator` | paths and cycles, the three-colour walk and `validateGraph` |
| `Compiler` | `topologicalNodes`, `compileGraph`, `simulateGraph` |
| `AutomationEditor`, `CampaignEditor` | drafts under compare-and-swap with append-only histories |
| `Retry`, `Leasing` | the retry delay and the choice of the next row, common to both queues |
| `Outbox`, `OutboxProtocol`, `OutboxWorker` | the outbound queue, all interleavings of its workers, one worker's round among others |
| `InboundMessage`, `WebhookInbox`, `InboundProtocol`, `InboundProgress`, `WebhookWorker`, `InboundExample` | what is read off a provider's message, the inbound queue, all interleavings of the inbound transaction, that they never block for good, one worker's round among others, runs to messages that are never stored |
| `SseProtocol`, `ConnectionRegistry`, `SseHub` | event frames and their standard reader, bounded connection queues, publishing |
| `RealtimeInbox`, `EventStore`, `ReplayPaging`, `DeliveryPipeline` | the browser's consumer, the durable log, paged replay, end-to-end delivery |
| `OperationRunner` | idempotent operations, alone and in concurrent transactions |
| `LoginLimiter`, `Percentile` | the fixed-window limiter, the percentile interpolation |

`dafny verify dfyconfig.toml` checks everything.

How the pieces fit:

- The walk of the validator is proved against paths, the loop of the compiler against "least available node next", and
  `DetectorsAgree` joins the two. The editors use the result that an accepted graph is a fixed point of normalisation.
- A queue's tables are maps and each SQL statement is one step. A claim, a crash, an expired lease or another worker's
  statement may fall between any two steps. Clock readings in the queues are arbitrary numbers, so nothing rests on
  clocks agreeing. The advisory lock of the inbound transaction is held until it commits or rolls back, and a
  transaction's rows are invisible before its commit. `OutboxWorker` and `WebhookWorker` run a worker's
  own code with any number of any other steps between its statements, and show that the whole is a run of these machines.
- `DeliveryPipeline.EndToEnd` composes registry, frames, reader and client.

Where the code surprises, the model follows the code:

- `normalizeGraph` is not idempotent on every input. `port: []` is kept as the port `""`, which the next normalisation
  turns into `next`. `NormalizeTwice` gives the exact condition. Graphs that pass validation are not affected.
- The error code of a graph with several bad nodes depends on their order (`ErrorCodeSeesOrder`).
- The shown DDL has no `locked_by` on `outbox_jobs`; the row shape is taken from the queries.
- `markDelivered` reports whether a linked message was updated, not whether the lease was still held, and `processOne`
  ignores even that: it reports `sent` after losing its lease.
- If recording a delivery throws, the job is counted as failed and may be sent again; the bound on sends counts such
  sends too.
- The inbound transaction checks none of what the tables refuse. An event with a body that is empty or longer than 4000
  characters, contacts that cannot be read or a time out of range is retried until it is dead and never stored
  (`UnacceptableNeverStored`), and one with a contact name that is empty or longer than 200 as long as it would have to
  open a conversation (`InsertableIff`).
- A realtime event's version is the message's timestamp, and versions are unique per conversation, so a second message
  with the same timestamp in one conversation can never be stored (`SameTimestampNeverCommits`).
- The hub's `system.permission-revoked` notice carries no aggregate, and the client ignores events without one
  (`NoticeIsIgnored`).
- Pruning expired events hides the gap it leaves from `replayEvents` (`PrunedGapUnnoticed`).
- `OPERATION_IN_PROGRESS` and `OPERATION_PREVIOUSLY_FAILED` are answers that no run can give: a claim in progress is
  visible only to its own transaction, and no statement ever stores `failed`.

In one place the model follows the evident intent instead. The dead-letter statement of `markFailed` selects `tenant_id`
from a CTE that does not return it (outbox.js:56, outbox.js:63), so as written it raises and the job stays leased until
it is parked as `delivery_unknown`. `FailTables`, and with it `OutboxWorker.MarkedEnds`, describe a statement that works; a
worker whose statement raises is the step `Vanish`, which is part of every run.

Standing assumptions: `localeCompare` is a strict total order on ids and edge keys, any one (`Ordering.Collation`); random
UUIDs are fresh; the tenants that rows name exist; SHA-256 and `hashtextextended` are arbitrary functions;
`JSON.stringify` escapes line breaks and `JSON.parse` undoes it.

## Model

| member | source | states |
|---|---|---|
| `JsonValue.SortObjectIdempotent` | modules/automation/graph-schema.js:22-26 | Sorting the keys of a value at every level, with integer-like keys first as `Object.fromEntries` orders them, is a projection: doing it twice is doing it once. |
| `JsonValue.SameAsSorted` | modules/automation/graph-schema.js:22-26 | A value and its key-sorted form differ only in key order, so nothing but order is lost. |
| `JsonValue.SortedKeys` | modules/automation/graph-schema.js:25 | The keys of a sorted object, in their order: those that print a number below 4294967295, by that number, then all others by code unit. |
| `JsonValue.SameText` | modules/automation/graph-schema.js:28-37 | Values that differ only in key order print as the same text, so ids, types and ports read from them agree. |
| `GraphSchema.EdgeKeyInjective` | modules/automation/graph-schema.js:45 | Ids exclude colons, so `from:port:to` determines the edge even when ports contain colons. |
| `GraphSchema.NormalizeGraphNormal` | modules/automation/graph-schema.js:39-47 | Whatever `normalizeGraph` accepts comes out with well-formed, distinct, sorted node ids, supported types, key-sorted configs and sorted edges. |
| `GraphSchema.NormalizePreserves` | modules/automation/graph-schema.js:28-47 | The nodes and edges of the result are those of the input one for one, up to order: same ids and types, configs equal up to key order, same ends, same ports or `next`. |
| `GraphSchema.BadNodeTells` | modules/automation/graph-schema.js:28-32 | The error of a graph whose k-th node is the first bad one: for an id that is not one to 128 letters, digits, `_` or `-`, else for a type that is none of the ten listed. |
| `GraphSchema.NormalizeTells` | modules/automation/graph-schema.js:34-47 | The other errors in their order, with literal conditions: nodes or edges that are no array, two equal ids, an edge with a bad end; and acceptance in every other case. |
| `GraphSchema.NormalizeIdempotent` | modules/automation/graph-schema.js:34-47 | A normalised graph is a fixed point if and only if no port is the empty text. |
| `GraphSchema.NormalizeTwice` | modules/automation/graph-schema.js:34-47 | On every accepted input, normalising twice equals normalising once if and only if no edge was given an array port that prints as nothing: a truthy `[]` becomes `""`, which the second pass replaces by `next`. |
| `GraphSchema.NormalizeOrderFree` | modules/automation/graph-schema.js:22-47 | Reordering nodes, edges or config keys changes neither acceptance nor the normalised graph, nor any error that is not about a single node. |
| `GraphSchema.StableIff` | modules/automation/graph-schema.js:28-47 | Normalisation is blind to the order of its input, errors included, if and only if the nodes do not hold both one with a bad id and one with a good id and an unsupported type. |
| `GraphSchema.ErrorCodeSeesOrder` | modules/automation/graph-schema.js:28-42 | Two such nodes, rejected with one code in one order and with the other code in the other. |
| `GraphSchema.ListPortChangesTwice` | modules/automation/graph-schema.js:34-47 | A graph with the port `[]` that is accepted and that a second normalisation changes. |
| `GraphSchema.HashOrderFree` | modules/automation/graph-schema.js:49-51 | The canonical hash, for any digest, is blind to the order of the input. |
| `Ordering.SortedUnique` | modules/automation/graph-schema.js:42-45 | A sorted arrangement of given elements is unique when keys tell elements apart. |
| `Ordering.SortOrderFree` | modules/automation/graph-schema.js:42-45 | Sorting by an injective key forgets the order of its input. |
| `Paths.ClosedSet` | modules/automation/graph-validator.js:57-67 | A set with the starts in it and closed under arcs contains everything reachable: what makes the walk complete. |
| `Paths.FinishedOffCycle` | modules/automation/graph-validator.js:57-67 | A node listed only after all its targets lies on no cycle: what makes silence of the walk sound. |
| `GraphValidator.GraphWalk.Walk` | modules/automation/graph-validator.js:57-67 | The recursive three-colour walk terminates, keeps its colour invariant, visits exactly the nodes that a path leads to over nodes neither visited nor being visited when it starts, reports only nodes on reachable cycles, and when it reports nothing every arc leads to a node finished earlier. |
| `GraphValidator.GraphWalk.WalkAll` | modules/automation/graph-validator.js:68 | Walking from each trigger in turn has the same effect for all of them together. |
| `GraphValidator.WalkFrom` | modules/automation/graph-validator.js:55-68 | From nothing visited: a node is visited if and only if a path from a trigger leads to it, every report names a node on a cycle reachable from a trigger, and there is a report whenever there is such a cycle. |
| `GraphValidator.CollectEdges` | modules/automation/graph-validator.js:36-53 | Each edge is either reported for its first fault, in order, or recorded; the adjacency lists hold exactly the legal arcs. |
| `GraphValidator.CheckNodes` | modules/automation/graph-validator.js:70-77 | The complaints about single nodes, in node order: unreachable, and queue of another tenant. |
| `GraphValidator.NoErrorsIffValid` | modules/automation/graph-validator.js:79 | For errors that are exact, there are none if and only if the graph has one trigger, legal edges, no directed cycle, every node reachable by a path and no foreign queue. |
| `GraphValidator.ValidGraphTells` | modules/automation/graph-validator.js:31-79 | Validity in plain terms: exactly one node whose type begins with `trigger.`, from which paths lead to all nodes; edges between nodes of the graph through `next`; no cycle; no queue known to be another tenant's. |
| `GraphValidator.ValidateNormalized` | modules/automation/graph-validator.js:31-79 | Soundness and completeness of the validator on a normalised graph: each kind of error is reported exactly when a path-based definition calls for it, and `valid` holds exactly for valid graphs. |
| `GraphValidator.ValidateGraph` | modules/automation/graph-validator.js:23-80 | The same for every input, with the schema error of a graph that cannot be normalised. |
| `Compiler.CountEdges` | modules/automation/compiler.js:5-10 | In-degrees count every edge, duplicates included, and the lists hold each target as often as it occurs. |
| `Compiler.Release` | modules/automation/compiler.js:16-20 | Emitting a node decrements each target once per edge, and queues, in sorted place, exactly those that become free. |
| `Compiler.TopologicalNodes` | modules/automation/compiler.js:3-23 | On any graph with known endpoints the loop stops with the unique sequence in which each node is the least one whose sources have all been emitted, and nothing more could be emitted. |
| `Compiler.EmittedExactly` | modules/automation/compiler.js:13-22 | A node is emitted if and only if no ancestor of it, itself included, lies on a cycle. |
| `Compiler.CompleteIffAcyclic` | modules/automation/compiler.js:13-22 | The result is a permutation with every edge pointing forward if and only if the graph has no cycle. |
| `Compiler.LeastTopological` | modules/automation/compiler.js:11-20 | Among all topological orders the result is the least in dictionary order of ids. |
| `Compiler.GreedyUnique` | modules/automation/compiler.js:11-22 | The emitted order is determined by the graph alone. |
| `Compiler.DetectorsAgree` | modules/automation/compiler.js:13-22 | When the triggers reach every node, the loop drops a node if and only if the validator reports `GRAPH_CYCLE`. |
| `Compiler.TriggerIsOnlySource` | modules/automation/compiler.js:11 | In a valid graph nothing leads into the trigger and something leads into every other node. |
| `Compiler.ValidGraphCompiles` | modules/automation/compiler.js:25-34 | For a valid graph the order is topological, least, and begins with the trigger. |
| `Compiler.CompileGraph` | modules/automation/compiler.js:25-34 | Compiles exactly the valid graphs, to that order, and otherwise returns the exact, non-empty list of errors. |
| `Compiler.SimulateGraph` | modules/automation/compiler.js:36-47 | Succeeds on exactly the valid graphs; row k of the trace carries id and type of the k-th compiled node, and its config for an action. For an event type `a.b` with no dot in `a`, a trigger is matched if and only if its type is `trigger.a_b`; for one without a dot, if and only if it is `trigger.` followed by it. |
| `Compiler.FiresTriggerType` | modules/automation/compiler.js:41 | Only the first dot of an event type is replaced: the trigger type that code builds is the one fired in the sense above, and no other is. |
| `Compiler.TraceOrderFree` | modules/automation/compiler.js:36-47 | The trace depends only on the set of nodes and the multiset of edges. |
| `AutomationEditor.AcceptedAgain` | modules/automation/editor-service.js:42-50 | An accepted graph normalises to itself, is accepted again and hashes the same, which rests on legal ports never being empty. |
| `AutomationEditor.ConsistentPublished` | modules/automation/editor-service.js:48-52 | Publishing takes a consistent draft without history to a consistent one with version 1. |
| `AutomationEditor.ConsistentRestored` | modules/automation/editor-service.js:56-65 | Restoring keeps versions numbered 1..n and all of one graph, name and fingerprint, although it copies only part of the record. |
| `AutomationEditor.PutKeeps` | modules/automation/editor-service.js:18-21 | Replacing one draft and extending its history keeps every other draft and every earlier version. |
| `AutomationEditor.OneGraphPerHistory` | modules/automation/editor-service.js:11-54 | In every state the operations keep, all versions of an automation are numbered 1..n, carry the graph of its draft, are valid, and have the canonical hash of that graph as fingerprint. |
| `AutomationEditor.FindNumbered` | modules/automation/editor-service.js:58 | With versions numbered 1..n, looking a version up finds exactly the one at that place, or none. |
| `AutomationEditor.Editor.CreateDraft` | modules/automation/editor-service.js:15-23 | Accepts exactly the valid graphs; the stored fingerprint is the hash of the stored graph; all older drafts and histories stay. |
| `AutomationEditor.Editor.SaveDraft` | modules/automation/editor-service.js:31-40 | Compare-and-swap: each error in the order of the checks, and no draft with a published version is ever saved again. |
| `AutomationEditor.Editor.Publish` | modules/automation/editor-service.js:42-54 | Every editable draft at its current revision is published, as version 1: `GRAPH_INVALID` cannot occur. |
| `AutomationEditor.Editor.Restore` | modules/automation/editor-service.js:56-65 | Succeeds exactly for versions 1..n and appends a copy as version n+1; the draft changes in its revision only. |
| `AutomationEditor.Editor.ExecutionReference` | modules/automation/editor-service.js:67-73 | The reference names the newest version, and its fingerprint is the hash of the draft's own graph. |
| `CampaignEditor.ConsistentRestored` | modules/marketing/campaign-service.js:61-70 | A restore that copies content and fingerprint but not channel leaves the fingerprint that of the draft's own channel, content and profile, because neither channel nor profile can change after a publish. |
| `CampaignEditor.PutKeeps` | modules/marketing/campaign-service.js:28-29 | Replacing one draft and extending its history keeps every other draft and every earlier version. |
| `CampaignEditor.Editor.CreateDraft` | modules/marketing/campaign-service.js:23-31 | Rejects exactly bad content and unsupported channels, in that order; the new draft carries its own fingerprint. |
| `CampaignEditor.Editor.SaveDraft` | modules/marketing/campaign-service.js:39-48 | Compare-and-swap with each error in the order of the checks; the channel falls back to the draft's own. |
| `CampaignEditor.Editor.Publish` | modules/marketing/campaign-service.js:50-59 | Succeeds on exactly the editable drafts at their current revision and freezes channel, content and profile as version 1. |
| `CampaignEditor.Editor.Restore` | modules/marketing/campaign-service.js:61-70 | Succeeds exactly for versions 1..n; afterwards the draft's fingerprint matches its own channel, content and profile version. |
| `CampaignEditor.Editor.DispatchReference` | modules/marketing/campaign-service.js:72-77 | The reference names the newest version, with the fingerprint of the draft as it stands. |
| `Retry.RetryDelayBounds` | outbox.js:3-6 | Waiting times never shrink with the attempts, start at a second, double, and reach five minutes exactly from the ninth attempt on. |
| `Outbox.Store.Enqueue` | outbox.js:73-80 | Refuses unsupported kinds and a missing tenant, in that order. A repeated idempotency key finds the job already there and changes nothing; a new one is stored pending, unlocked, without attempts and due now, and is what is answered. |
| `Leasing.Earliest` | outbox.js:20-25 | Of the rows a claim may take, one than which no other comes earlier, or none when there is none. |
| `Outbox.EarliestIsNext` | outbox.js:20-25 | That row is the next job: claimable, not locked, and none sooner. |
| `Outbox.Store.ClaimNextJob` | outbox.js:14-29 | Every `processing` job locked more than 120000 ms ago ends `delivery_unknown` with its lease freed and nothing else changed. The chosen job was pending or failed, due, with attempts left, not locked, and none such came before it by time due and then by creation; it is leased and nothing else of it changes. Every other job stays exactly as it was, and there is no choice only when nothing can be chosen. |
| `Outbox.Store.MarkDelivered` | outbox.js:31-44 | Without the lease nothing changes. With it the job is sent and its lease freed, no other job changes, the linked message of the same tenant is marked and no other; the result reports a linked message, not acceptance. |
| `Outbox.Store.MarkFailed` | outbox.js:46-71 | Without the lease nothing changes. With it the job has one attempt more and no lease, is dead exactly for a status from 400 to 499 other than 408, 409, 425 and 429 and at the last attempt, and otherwise waits for its delay; dead letters and the linked message change exactly when it is dead, and nothing else does. |
| `OutboxProtocol.StepKeeps` | outbox.js:14-71 | Every step of any number of workers, with crashes and lease expiry, keeps: counters within budget, a lease exactly on `processing`, each token issued for one job, one send per claim, and a holder's copy of the counters up to date. |
| `OutboxProtocol.TerminalStays` | outbox.js:14-71 | No step changes a job that is `sent`, `dead_letter` or `delivery_unknown`. |
| `OutboxProtocol.LostLeaseStaysLost` | outbox.js:14-71 | In every run, a lease that a token has lost is not held under that token ever after. |
| `OutboxProtocol.LostWorkerIsHarmless` | outbox.js:31-71 | In every run, a worker that has lost its lease changes no job, message or dead letter by any later mark, whatever happens in between. |
| `OutboxProtocol.SendsAtMostClaims` | outbox-worker.js:22-34 | In a state the steps keep, a job has been sent at most as often as it was claimed. |
| `OutboxProtocol.ClaimsAndSendsBounded` | outbox.js:21-28 | In every run a job is sent at most as often as claimed and claimed at most `max_attempts` times, and a failed job has attempts left. |
| `OutboxProtocol.TerminalForever` | outbox.js:14-71 | In every run terminal jobs stay exactly as they are. |
| `OutboxWorker.OthersKeep` | outbox-worker.js:22-37 | Whatever steps others take, a worker is where it was in its round. |
| `OutboxWorker.MarkedEnds` | outbox-worker.js:31-36 | Under a lease still held at the last statement the job ends as reported, sent or with one attempt more and parked for a retry or for good, and no other job changes. |
| `OutboxWorker.Undisturbed` | outbox-worker.js:22-31 | Without others the last statement finds the tables as the claim left them, after at most one send. |
| `OutboxWorker.ProcessOne` | outbox-worker.js:22-37 | With any steps of any others between its statements, the round is a run of protocol steps with one attempt to send. The report is `sent`, `dead_letter` or `retrying` by the outcome of that attempt and the attempts counted when the job was claimed; if the lease is still held at the end that is what became of the job, and if not the last statement changes nothing; undisturbed, the lease is held. |
| `WebhookInbox.ReceiveDeduplicates` | channel-webhook-service.js:68-81 | However provider events repeat, within a call or across calls, old rows are untouched, each event has exactly one row, and `accepted` counts the rows added. |
| `WebhookInbox.NewRowsTell` | channel-webhook-service.js:70-75 | Every row that a call adds is one of its events, of that channel and tenant, pending, without attempts of eight, due now and free. |
| `WebhookInbox.RedeliveryChangesNothing` | channel-webhook-service.js:70-82 | A redelivery of known events changes nothing and counts none as accepted. |
| `WebhookInbox.Inbox.Receive` | channel-webhook-service.js:68-82 | The loop inserts exactly the new events and splits the call into accepted and duplicate ones. |
| `WebhookInbox.EarliestIsNext` | webhook-worker.js:10-20 | The row chosen is the next event, where lapsed leases are claimable again. |
| `WebhookInbox.Inbox.ClaimNextWebhook` | webhook-worker.js:8-25 | Leases the chosen row without counting an attempt: it was pending or failed and due, or processing with a lock more than 120000 ms old; it had attempts left; nobody else has it locked; and no such row came before it. No other row changes. |
| `WebhookInbox.Inbox.MarkWebhookProcessed` | webhook-worker.js:27-32 | Accepted exactly under the lease: then that row alone changes, to processed and free; otherwise nothing does. |
| `WebhookInbox.Inbox.MarkWebhookFailed` | webhook-worker.js:34-50 | Accepted exactly under the lease: then that row alone changes, to one attempt more, its delay, no lease, and dead exactly at the last attempt; otherwise nothing does. |
| `InboundProtocol.StepKeeps` | webhook-processor.js:24-88 | Every step of any number of workers keeps the invariant: exact counters, leases, advisory locks held to the end of the transaction, a negative duplicate check staying true until commit, unique messages, one event per message. |
| `InboundProtocol.AppearTogether` | webhook-processor.js:64-81 | A message and its `inbox.message.created` event appear in the same commit, one of each, and never otherwise. |
| `InboundProtocol.MessagesGrow` | webhook-processor.js:64-81 | No step removes or changes a stored message or event. |
| `InboundProtocol.LostLeaseStaysLost` | webhook-worker.js:8-50 | In every run, a lease that a token has lost is not held under that token ever after. |
| `InboundProtocol.LostWorkerIsHarmless` | webhook-worker.js:27-50 | In every run, a worker that has lost its lease changes no row and counts no failure by any later mark, whatever happens in between. |
| `InboundProtocol.ExactlyOnce` | webhook-processor.js:24-88 | In every run, with redelivery, lapsed leases and two workers on one event: at most one message per channel and provider message id, messages and events in one-to-one correspondence, and a `processed` message event has its message stored. |
| `InboundProtocol.AttemptsExact` | webhook-worker.js:34-50 | In every run `attempts` is the number of accepted failures and never exceeds the budget, and exactly `processing` rows hold a lease. |
| `InboundProtocol.TerminalForever` | webhook-worker.js:8-50 | In every run `processed` and `dead_letter` rows never change again. |
| `InboundProgress.RunOwned` | webhook-processor.js:37-88 | In every run each advisory lock belongs to a transaction under way for an event with that lock: none outlives its transaction, whether that commits, rolls back or its worker crashes. |
| `InboundProgress.NeverStuck` | webhook-processor.js:24-88 | In every run every worker has a next step of its own or waits for a lock whose owner can end at once, after which the lock can be had; it can crash at any time, which leaves the tables alone and frees its lock. So no workers wait for each other. |
| `InboundMessage.NoticeBody` | webhook-processor.js:17-22 | A message of an unlisted kind has a notice of at least eleven characters for its body, so only the listed kinds can lack one. |
| `InboundMessage.IncomingBodyTells` | webhook-processor.js:17-22 | What body a message gets, kind by kind: its non-empty text whatever the type says; a button's text; the title of a button reply before that of a list reply; else a notice naming the kind. |
| `InboundMessage.NameTells` | webhook-processor.js:28 | The name is that of the first contact with the sender's number, and the number itself when that contact has none. |
| `InboundMessage.NameWithoutContact` | webhook-processor.js:28 | Without such a contact the name is the number, or `Contato` when there is none. |
| `InboundMessage.UnreadableContacts` | webhook-processor.js:28 | Reading the name throws for contacts that are neither absent nor a list, and for a list with null before the sender's contact. |
| `InboundMessage.EmptyName` | webhook-processor.js:28 | A contact name is empty only when a contact of the list has a truthy name that prints as nothing. |
| `InboundMessage.FlowReplyHasNoBody` | webhook-processor.js:20 | An interactive answer of a kind that is not read has an empty body, which is not acceptable. |
| `InboundProtocol.UnacceptableNeverStored` | migrate.js:126-136 | In every run, a message event with an empty or over-long body, unreadable contacts or a time out of range is never stored and never processed. |
| `InboundProtocol.SameTimestampNeverCommits` | domain-schema.js:241 | Once a conversation has an event at a timestamp, no transaction adding a message with that timestamp to it ever commits. |
| `InboundExample.SecondInOneInstant` | domain-schema.js:241 | A run from the empty tables to such a transaction, whose event and rows are otherwise acceptable. |
| `InboundExample.FlowReplyNeverStored` | migrate.js:126-136 | In every run, an answer to a flow is never stored and never processed. |
| `InboundExample.FlowReplyRefused` | migrate.js:126-136 | No state and time let the rows of an answer to a flow be accepted. |
| `InboundProtocol.TakenForever` | domain-schema.js:241 | In every run a version taken in a conversation stays taken. |
| `WebhookWorker.OthersKeep` | webhook-worker.js:52-63 | Whatever steps others take, a worker is where it was in its round. |
| `WebhookWorker.InsertableIff` | webhook-processor.js:46-81 | The rows of a new message meet all constraints if and only if no event of the conversation has that version, body and, for a new conversation, contact name have acceptable lengths, and the time is in range. |
| `WebhookWorker.InsertedIsRecorded` | webhook-processor.js:46-81 | The rows of a new message, field by field: the body by the kind of message, the open conversation of tenant, channel and sender when there is one and else a new one, and one event at the message's time. |
| `WebhookWorker.Search` | webhook-processor.js:34-45 | Lock and search, whatever others do, are steps of the protocol; the search is right about the state it finds. |
| `WebhookWorker.Store` | webhook-processor.js:46-81 | From search to end, whatever others do, the transaction takes steps of the protocol; it commits exactly when no constraint refuses its rows at the end, and then the message is stored, else nothing is. |
| `WebhookWorker.ProcessInbound` | webhook-processor.js:24-88 | With any steps of any others between its statements, it is a run of protocol steps that succeeds exactly when tenant and contacts can be read and the message is found stored or no constraint refuses its rows at the end, and then the message is stored. Undisturbed, it fails exactly when tenant or contacts cannot be read or, for a message not stored yet, the version is taken, the length of body or new contact name is not acceptable or the time is out of range; and what it newly stores has the body, sender, conversation, time and event that the message says, field by field. |
| `WebhookWorker.MarkedEnds` | webhook-worker.js:27-50 | Under a lease still held the row ends as reported and no other row changes; without it no row changes. |
| `WebhookWorker.ProcessOneWebhook` | webhook-worker.js:52-63 | With any steps of any others between its statements, the round is a run of protocol steps, and its report is true: a lost lease is reported as such and the mark changes nothing, otherwise the row ends as reported, and a message event reported processed has its message stored; undisturbed, the lease is held. |
| `SseProtocol.FeedFrame` | modules/realtime/sse-protocol.js:7-16 | Read by sections 9.2.5 and 9.2.6 of the WHATWG HTML Standard from between two frames, one frame dispatches exactly its (id, type, data) and leaves the reader between frames. |
| `SseProtocol.FeedHeartbeat` | modules/realtime/sse-protocol.js:18-20 | A heartbeat dispatches nothing and disturbs nothing. |
| `SseProtocol.FeedField` | modules/realtime/sse-protocol.js:15 | A field line sets its field to exactly the value, whatever colons and spaces it holds. |
| `SseProtocol.DecodeWire` | modules/realtime/sse-protocol.js:7-20 | Any concatenation of frames with heartbeats between them decodes to exactly the list of events sent. |
| `SseProtocol.DecodeCutWire` | modules/realtime/sse-protocol.js:7-20 | Cut at any character, the stream decodes to an initial part of the events sent. |
| `Decimals.DecimalRoundTrip` | modules/realtime/sse-protocol.js:15 | The printed sequence reads back as the sequence. |
| `ConnectionRegistry.RunFifo` | modules/realtime/connection-registry.js:43-74 | In every run of sends, drains and closes with arbitrary answers of `write`: written followed by queued is what was accepted, in order; the byte counter is the byte sum; both bounds hold; unblocked means an empty queue; blocked means the last write was answered `false`. |
| `ConnectionRegistry.NothingAfterClose` | modules/realtime/connection-registry.js:43-74 | Once closed, a connection writes nothing and accepts nothing. |
| `ConnectionRegistry.AcceptedPrefix` | modules/realtime/connection-registry.js:57-74 | What a connection accepts is an initial part of what was meant for it: a refusal is final. |
| `ConnectionRegistry.OpenMeansComplete` | modules/realtime/connection-registry.js:57-74 | A connection still open has dropped nothing. |
| `ConnectionRegistry.WithoutCounts` | modules/realtime/connection-registry.js:31-35 | Removing a connection raises no count. |
| `ConnectionRegistry.CountsTell` | modules/realtime/connection-registry.js:15-29 | The counts are the numbers of places at which a connection of that tenant and user, or of that tenant, is registered. |
| `ConnectionRegistry.PushQuotas` | modules/realtime/connection-registry.js:76-86 | Adding a connection under both limits keeps the quotas of every user and tenant. |
| `ConnectionRegistry.ByteLengthConcat` | modules/realtime/connection-registry.js:47 | Byte lengths add up over concatenation, so a frame counts the UTF-8 lengths of its characters. |
| `ConnectionRegistry.Connection.Flush` | modules/realtime/connection-registry.js:43-55 | Writes a prefix of the queue, stopping after the first write answered `false` and only then before the queue is empty; is blocked afterwards if and only if that happened; and keeps the byte counter. A closed connection is left alone. |
| `ConnectionRegistry.Registry.ConnectionCount` | modules/realtime/connection-registry.js:19-23 | Counts the connections of the user. |
| `ConnectionRegistry.Registry.TenantConnectionCount` | modules/realtime/connection-registry.js:25-29 | Counts the connections of the tenant. |
| `ConnectionRegistry.Registry.Register` | modules/realtime/connection-registry.js:76-86 | Refuses exactly a missing identity or a full quota, and keeps at most the allowed connections per user and tenant. |
| `ConnectionRegistry.Registry.Enqueue` | modules/realtime/connection-registry.js:57-67 | Queues exactly what fits; an overflow closes the connection, ends its response and removes it. |
| `ConnectionRegistry.Registry.SendConnection` | modules/realtime/connection-registry.js:69-74 | One step of the run machine on that connection, and no other connection is touched. |
| `ConnectionRegistry.Registry.OnDrain` | modules/realtime/connection-registry.js:81 | A drain event is one step of the run machine. |
| `ConnectionRegistry.Registry.OnClose` | modules/realtime/connection-registry.js:82 | The close event marks the connection and removes it, once or repeatedly. |
| `ConnectionRegistry.Registry.Close` | modules/realtime/connection-registry.js:103-107 | Closes exactly a registered connection. |
| `ConnectionRegistry.Registry.SendTo` | modules/realtime/connection-registry.js:98-101 | Sends only to a registered connection. |
| `SseHub.EntriesMembers` | modules/realtime/connection-registry.js:94-96 | The entries of a tenant are exactly its connections, each once; of no tenant, all connections. |
| `SseHub.EntriesConcat` | modules/realtime/connection-registry.js:94-96 | They come in the order of registration: the entries of a concatenation are the concatenation of the entries. |
| `SseHub.Publish` | modules/realtime/sse-hub.js:21-39 | Handles the tenant's connections in order: the event to exactly those whose audience and authorization allow it, a notice and closure for those no longer authorized, nothing for all others; counts the deliveries; and throws exactly at the first frame that cannot be printed. |
| `SseHub.NoticeIsIgnored` | modules/realtime/sse-hub.js:26-33 | The revocation notice has no aggregate, so a client that receives it does nothing, not even close its stream. |
| `RealtimeInbox.Client.Receive` | public/js/realtime-inbox.js:34-54 | An event without data, id, aggregate or positive version, one with an id seen before and one with a version not above the known one is ignored, in that order of checks and with what each leaves behind; any other is applied, its version becomes the known one, and its id and cursor are kept. Each call is one message received. |
| `RealtimeInbox.Converges` | public/js/realtime-inbox.js:34-47 | If an event id determines aggregate and version, then after any deliveries the version map is the pointwise maximum of the well-formed versions seen. |
| `RealtimeInbox.OrderFree` | public/js/realtime-inbox.js:34-47 | Then reordering or duplicating deliveries leaves the final map unchanged. |
| `RealtimeInbox.ReusedIdSeesOrder` | public/js/realtime-inbox.js:38-43 | For two deliveries that share an id, the order shows in the map if and only if they differ in aggregate or version: the premise is needed. |
| `RealtimeInbox.EffectsOrdered` | public/js/realtime-inbox.js:38-53 | For any deliveries at all, no event id is applied twice and the versions applied to one aggregate strictly increase. |
| `EventStore.Log.AppendEvent` | modules/realtime/event-store.js:21-33 | Stores a row exactly when its type is a known one, its version is not negative, and neither its id nor its aggregate and version are taken, under a sequence above all others; a refused row changes nothing but uses up a sequence. |
| `EventStore.Log.CurrentSequence` | modules/realtime/event-store.js:35-41 | The greatest sequence of the tenant, or zero. |
| `EventStore.Log.ReplayEvents` | modules/realtime/event-store.js:43-70 | Reports an expired cursor exactly when a stored event past it has expired; otherwise hands out the first events past it, up to the bounded limit; either way it names the tenant's current cursor. |
| `EventStore.PastExact` | modules/realtime/event-store.js:54-59 | What lies past a cursor is exactly the tenant's rows with greater sequence, once each, increasing. |
| `EventStore.PastFrom` | modules/realtime/event-store.js:54-59 | Taking the k-th such row as the new cursor leaves exactly the rows after it: no gap, no repeat. |
| `EventStore.KeptValid` | modules/realtime/event-store.js:72-78 | Pruning keeps the table valid. |
| `EventStore.KeptExact` | modules/realtime/event-store.js:72-78 | Pruning keeps exactly the rows that are another tenant's or expire later. |
| `EventStore.PruneInvisible` | modules/realtime/event-store.js:72-78 | Pruning removes nothing a replay could still hand out. |
| `EventStore.PrunedGapUnnoticed` | modules/realtime/event-store.js:47-52 | After pruning no cursor is reported as expired although rows past it are gone; before pruning it is, exactly when the live rows are not all rows. |
| `EventStore.PrunedGapExample` | modules/realtime/event-store.js:47-78 | A valid table and a cursor told to start over before pruning and served with a gap after it. |
| `ReplayPaging.CursorRoundTrip` | modules/realtime/routes.js:8-13 | The cursor a client holds after an event parses to that event's sequence. |
| `ReplayPaging.CursorTells` | modules/realtime/routes.js:8-13 | No cursor is the start; a text that is not all digits or stands for more than 9007199254740991 is rejected; any other is read as its number. |
| `ReplayPaging.DeliveryTells` | modules/realtime/event-store.js:12-19 | A stored event is delivered under its sequence, its type, its aggregate and version, and its payload's own id or else its row's. |
| `ReplayPaging.PageStep` | public/js/realtime-inbox.js:60-66 | One page extends what has been handed out by exactly the next events and leaves exactly the rest past the new cursor. |
| `ReplayPaging.ReplayBeyondLimit` | public/js/realtime-inbox.js:56-68 | Whatever the page size, the client receives exactly the tenant's events past the start, each once and in order, and ends accordingly; when some of those have expired it receives nothing; the loop ends, by the events remaining. |
| `DeliveryPipeline.FrameDeterminesMessage` | modules/realtime/sse-protocol.js:7-16 | A frame's text determines id, type and data. |
| `DeliveryPipeline.StreamDelivers` | modules/realtime/sse-protocol.js:7-20 | A stream carrying the frames of some events hands the client, through JSON, an initial part of those very events, and all of them when it arrives whole. |
| `DeliveryPipeline.EndToEnd` | modules/realtime/connection-registry.js:43-74 | For any run of a connection, any heartbeats and any cut of the stream between characters: the client has been handed exactly the first k events meant for it and holds the greatest version of each of their aggregates; k is all of them when the connection is open, drained and fully received. |
| `DeliveryPipeline.OverlapHarmless` | public/js/realtime-inbox.js:34-47 | Events that arrive both by replay and live leave the client as if each had come once. |
| `OperationRunner.Database.Claim` | modules/shared/idempotency-service.js:8-27 | Claims exactly a free key, else returns the record that is there. |
| `OperationRunner.Database.Resolve` | modules/shared/idempotency-service.js:29-35 | Completes only a claim in progress. |
| `OperationRunner.Database.Run` | modules/cli/operation-runner.js:12-40 | One operation alone equals the atomic specification: replay, conflict, failure without trace, or effect with completed claim. |
| `OperationRunner.StepKeeps` | modules/cli/operation-runner.js:12-40 | Every step of concurrent transactions keeps: committed claims completed and matching their effects, at most one holder per key, and every answer readable off the committed effects. |
| `OperationRunner.AtMostOneEffect` | modules/cli/operation-runner.js:12-40 | In every run: at most one effect per (tenant, key, operation) commits, and each was answered as carried out exactly once or its acknowledgement was lost; `OPERATION_IN_PROGRESS` and `OPERATION_PREVIOUSLY_FAILED` are never answered; two results under one key are the same result of the same request. |
| `OperationRunner.ClaimsPermanent` | modules/shared/idempotency-service.js:11-15 | In every run a committed claim never changes. |
| `OperationRunner.FailureFreesKey` | modules/cli/operation-runner.js:30 | A failed effect or lost connection lets the next waiting transaction claim the key. |
| `OperationRunner.StepRefines` | modules/cli/operation-runner.js:12-40 | Each step of concurrent transactions either changes nothing committed and answers nobody, or does at once what the whole operation alone would have done, if perhaps without its acknowledgement arriving. |
| `LoginLimiter.SlidingBound` | security.js:31-46 | Windows at least one length apart with at most `limit` failures each: any half-open interval of that length holds at most twice the limit. |
| `LoginLimiter.SlidingBoundTight` | security.js:31-46 | Twice the limit is reached. |
| `LoginLimiter.Limiter.EntryFor` | security.js:33-41 | A new window exactly when there is none or the current one is as old as `windowMs`; entries match the recorded windows. |
| `LoginLimiter.Limiter.IsBlocked` | security.js:43 | Blocked exactly when the current window has counted the limit. |
| `LoginLimiter.Limiter.RecordFailure` | security.js:44 | Counts one failure, at the current time, in the current or a new window. |
| `LoginLimiter.Limiter.Login` | server.js:180 | Turned away exactly when the address has counted the limit in a window that has not ended when the limiter looks, whatever the password; otherwise the password decides. The recorded failures of the address are the earlier ones and, exactly after a failure, the present one; no window of any address ever counts more than the limit, even when a window ends between check and record. |
| `LoginLimiter.StaysFull` | security.js:31-46 | A window that has counted the limit stays as it is as long as it lasts, whatever is asked in between. |
| `LoginLimiter.AllTurnedAway` | server.js:180 | After the limit of failures answered to an address in one window, every answer to it until that window ends is that there were too many. |
| `LoginLimiter.TotalIsCount` | security.js:31-46 | Counting over windows is counting over the failures they hold. |
| `LoginLimiter.Serve` | server.js:180 | For any requests to a new limiter, one at a time, and any clock that does not run backwards: each answer is the one due; once an address has been answered the limit of failures in one window, every answer to it until that window ends is that there were too many, right password or not; and at every point, of the failures answered to an address since it last logged in, at most twice the limit lie in any half-open interval of length `windowMs`. |
| `LoginLimiter.LimiterBound` | security.js:31-46 | As long as an address is not reset, any half-open interval of length `windowMs` holds at most twice the limit of its failures. |
| `Percentile.Bracketed` | modules/reporting/metric-service.js:5-9 | The value lies between the two order statistics around its position. |
| `Percentile.PercentileInterpolates` | modules/reporting/metric-service.js:5-9 | A share t of the way from the k-th order statistic to the next, the percentile is (1 - t) of the one plus t of the other. |
| `Percentile.SummaryTells` | modules/reporting/metric-service.js:37 | The number of durations, and p50, p90 and p95 as values between explicitly given order statistics: for n gaps, n/2, 9n/10 and 19n/20 of the way. |
| `Percentile.DurationsCounted` | modules/reporting/metric-service.js:30-36 | Each duration occurs as often as there are events of the tenant and type, in the period that excludes its end and with all the dimensions, that lasted so long. |
| `Percentile.PercentileMonotone` | modules/reporting/metric-service.js:3-10 | For a sorted list and ranks within [0, 1], percentiles lie between first and last and grow with the rank, across cells. |
| `Percentile.PercentileHits` | modules/reporting/metric-service.js:5-8 | At the rank of an order statistic the percentile is that order statistic. |
| `Percentile.SummaryOrdered` | modules/reporting/metric-service.js:35-37 | For any events p50, p90 and p95 are ordered and lie between the shortest and longest selected duration, or all are null. |
| `Percentile.SummaryOrderFree` | modules/reporting/metric-service.js:29-37 | The summary does not depend on the order of the events. |

## Left out

- Graph pipeline: numbers inside node configs are kept as their canonical text, and object prototypes, `undefined` members and symbols do not occur; the trace's event id and time are not modelled.
- Queues: `processDelivery` with delivery events and status updates, `metaEvents`, `wahaEvents` and signatures; the names and times that conversations keep; what the provider adapters send. A delivery or unknown event is one step of the inbound worker.
- `updated_at`, `last_error`, `processing_error` and payload columns, which no modelled statement reads.
- Which open conversation an inbound message joins when a phone has several: the model lets it be any of them.
- `Outbox.Store.Enqueue`: an id that already exists under another key raises in the database; here it changes nothing and finds nothing.
- `WebhookWorker.ProcessInbound`: a message's timestamp is what `Number` makes of it, and an object in a message has no `toString` of its own; the earliest storable time is PostgreSQL's.
- Column types, integer ranges and foreign keys of all tables, beyond the checks and unique constraints named above.
- The two editors: a name is taken as already trimmed, `publishedAt` is omitted, and copies handed out by `structuredClone` are values.
- Campaign content normalisation and channel profiles: two arbitrary functions of the campaign editor.
- `ConnectionRegistry`: `drain` and `close` events do not fire inside a call of `write`; one response belongs to one connection; listener bookkeeping and `send` to all connections of a user.
- Heartbeats are written by routes.js past the registry, and so may follow an end of the response; here they are chunks of the stream between frames.
- `SseHub.Publish`: does not model operations of other requests while an authorization is awaited; each connection's own order of steps is covered by the runs of `ConnectionRegistry`.
- `EventStore.Log.AppendEvent`: events become visible in the order of their sequence; transactions that commit out of that order are not modelled.
- `EventStore.Log.ReplayEvents` and `ReplayPaging.ReplayBeyondLimit`: no audience filter, under which a page can come out empty and end the loop early; the clock stands still during one paged replay.
- `fetchPage` is supplied by the client's caller; the model's one reads the cursor as routes.js does, adds `eventId` (rows of `replayEvents` carry `id`) and sets `hasMore` whenever events remain.
- The gap between the replay of routes.js, capped at 100 events, and registration for live events: the code does not close it.
- `connect`, connection states, the stale timer and `EventSource` reconnection in the client.
- `queues drain` and `privacy request` run on the pool rather than on the transaction's client (bin/crm-cli.js:102-103), so their effects are outside the transaction that `OperationRunner` is about.
- A caller whose commit was not acknowledged is answered nothing in the model of concurrent operations; the code answers it an error.
- `OperationRunner.Database.Run`: a stored result is the result itself, without the JSON round trip.
- `LoginLimiter.Limiter.Login`: a positive window; requests handled one at a time; the handler awaits a database query between check and record, so concurrent requests can exceed the limit.
- `Percentile`: exact arithmetic instead of floating point; time zone checks, the counts of opened and resolved conversations and invalid time bounds.
- `modules/operations/job-store.js`, `job-runtime.js` and `modules/automation/engine.js`: further queues and actions without the guarantees stated here.
- HTTP routing, rendering, setup, cryptography, retention and privacy deletion, roles, SLA, quota and redaction services: no deep invariant of their own.
