/**
 * Every interleaving of webhook workers running the inbound transaction (webhook-processor.js): redelivery,
 * lapsed leases, two workers on one event, crashes and rollbacks, over READ COMMITTED tables with an advisory
 * lock held until the transaction ends.
 */
module InboundProtocol {
  import opened Wrappers
  import opened Retry
  import opened InboundMessage
  import opened WebhookInbox

  datatype Conversation = Conversation(tenantId: string, channelId: string, phone: string, isOpen: bool)

  datatype Message = Message(tenantId: string, channelId: string, providerMessageId: string, conversationId: string, body: string)

  /** An `inbox.message.created` event on the conversation it belongs to. */
  datatype Created = Created(tenantId: string, conversationId: string, version: int, messageId: string)

  /** What a transaction has inserted and not yet committed. `opens` holds when it also inserts the conversation. */
  datatype Insert = Insert(messageId: string, conversationId: string, opens: bool, eventId: string, time: int)

  datatype Stage =
    | Claimed
    | Locked
    | Checked
    | Writing(insert: Insert)
    | Finished
    | Errored

  datatype Work = Work(eventId: string, worker: string, row: Row, stage: Stage)

  /** Committed tables, the running workers by lease token, the advisory locks, and the tokens issued so far. */
  datatype State = State(rows: map<string, Row>, conversations: map<string, Conversation>, messages: map<string, Message>,
                         created: map<string, Created>, working: map<string, Work>, locks: map<int, string>,
                         issued: set<string>, failures: map<string, nat>)

  /** `hashtextextended`: any function of channel and provider event id; collisions only serialise more. */
  type LockHash = (string, string) -> int

  datatype Step =
    | Receive(channelId: string, tenantId: string, events: seq<Payload>, ids: seq<string>, now: int)
    | Claim(worker: string, token: string, now: int, locked: set<string>, choice: Option<string>)
    | AcquireLock(token: string)
    | FindDuplicate(token: string)
    | FindNoDuplicate(token: string)
    | InsertRows(token: string, insert: Insert, now: int)
    | Commit(token: string)
    | Rollback(token: string)
    | ProcessOther(token: string)
    | MarkProcessed(token: string)
    | MarkRaises(token: string)
    | MarkFailed(token: string, now: int)
    | CloseConversation(id: string)
    | Vanish(token: string)

  function LockOf(w: Work, hash: LockHash): int { hash(w.row.channelId, w.row.payload.providerEventId) }

  predicate HasLock(stage: Stage) { stage.Locked? || stage.Checked? || stage.Writing? }

  predicate Stored(s: State, channelId: string, providerMessageId: string) {
    exists m | m in s.messages :: s.messages[m].channelId == channelId && s.messages[m].providerMessageId == providerMessageId
  }

  predicate StoredFor(s: State, row: Row) { Stored(s, row.channelId, row.payload.providerEventId) }

  /** `Math.max(0, timestamp)`. */
  function VersionAt(time: int): int { if time < 0 then 0 else time }

  /** The unique constraint on (tenant, aggregate, version). */
  predicate VersionTaken(s: State, tenantId: string, conversationId: string, version: int) {
    exists e | e in s.created ::
      s.created[e].tenantId == tenantId && s.created[e].conversationId == conversationId && s.created[e].version == version
  }

  /** No constraint refuses the inserted rows. */
  predicate Insertable(s: State, w: Work)
    requires w.stage.Writing?
  {
    var x := w.stage.insert;
    && x.messageId !in s.messages
    && x.eventId !in s.created
    && (if x.opens then x.conversationId !in s.conversations else x.conversationId in s.conversations)
    && !VersionTaken(s, w.row.tenantId, x.conversationId, VersionAt(x.time))
    && Storable(w.row.payload, x)
  }

  /** The checks on the columns: the lengths of body and contact name, and the range of timestamps. */
  predicate Storable(p: Payload, x: Insert) { BodyOk(p) && (x.opens ==> NameOk(p)) && TimeOk(x.time) }

  /** The conversation a new message joins: an open one of the same tenant, channel and phone, else a new one. */
  predicate Joins(s: State, w: Work, x: Insert) {
    var phone := PhoneOf(w.row.payload);
    if x.opens then
      forall c | c in s.conversations :: s.conversations[c] != Conversation(w.row.tenantId, w.row.channelId, phone, true)
    else
      x.conversationId in s.conversations && s.conversations[x.conversationId] == Conversation(w.row.tenantId, w.row.channelId, phone, true)
  }

  predicate Enabled(s: State, step: Step, hash: LockHash) {
    match step
    case Receive(_, _, events, ids, _) => |ids| == |events| && FreshIds(s.rows, ids)
    case Claim(_, token, now, locked, choice) => token !in s.issued && IsNext(s.rows, now, locked, choice)
    case AcquireLock(token) =>
      && token in s.working && s.working[token].stage == Claimed
      && s.working[token].row.payload.kind == MessageKind && s.working[token].row.tenantId != ""
      && NameOf(s.working[token].row.payload).Some?
      && LockOf(s.working[token], hash) !in s.locks
    case FindDuplicate(token) =>
      token in s.working && s.working[token].stage == Locked && StoredFor(s, s.working[token].row)
    case FindNoDuplicate(token) =>
      token in s.working && s.working[token].stage == Locked && !StoredFor(s, s.working[token].row)
    case InsertRows(token, x, now) =>
      && token in s.working && s.working[token].stage == Checked
      && Joins(s, s.working[token], x) && x.time == TimeOf(s.working[token].row.payload, now)
    case Commit(token) => token in s.working && s.working[token].stage.Writing? && Insertable(s, s.working[token])
    case Rollback(token) => token in s.working && (s.working[token].stage == Claimed || HasLock(s.working[token].stage))
    case ProcessOther(token) =>
      token in s.working && s.working[token].stage == Claimed && s.working[token].row.payload.kind != MessageKind
    case MarkProcessed(token) => token in s.working && s.working[token].stage == Finished
    case MarkRaises(token) => token in s.working && s.working[token].stage == Finished
    case MarkFailed(token, _) => token in s.working && s.working[token].stage == Errored
    case CloseConversation(id) => id in s.conversations
    case Vanish(token) => token in s.working
  }

  function Moved(working: map<string, Work>, token: string, stage: Stage): map<string, Work>
    requires token in working
  {
    working[token := working[token].(stage := stage)]
  }

  function Released(s: State, token: string, hash: LockHash): map<int, string>
    requires token in s.working
  {
    if HasLock(s.working[token].stage) then s.locks - {LockOf(s.working[token], hash)} else s.locks
  }

  function RowsAfter(s: State, step: Step, hash: LockHash): map<string, Row>
    requires Enabled(s, step, hash)
  {
    match step
    case Receive(channelId, tenantId, events, ids, now) => ReceiveAll(s.rows, channelId, tenantId, events, ids, now).0
    case Claim(worker, token, now, _, choice) => ClaimRows(s.rows, worker, token, now, choice)
    case MarkProcessed(token) => ProcessedRows(s.rows, s.working[token].eventId, s.working[token].worker, token)
    case MarkFailed(token, now) =>
      var w := s.working[token];
      FailedRows(s.rows, w.eventId, w.worker, token, w.row, now)
    case _ => s.rows
  }

  function WorkingAfter(s: State, step: Step, hash: LockHash): map<string, Work>
    requires Enabled(s, step, hash)
  {
    match step
    case Receive(_, _, _, _, _) => s.working
    case Claim(worker, token, _, _, choice) =>
      if choice.None? then s.working
      else s.working[token := Work(choice.value, worker, RowsAfter(s, step, hash)[choice.value], Claimed)]
    case AcquireLock(token) => Moved(s.working, token, Locked)
    case FindDuplicate(token) => Moved(s.working, token, Finished)
    case FindNoDuplicate(token) => Moved(s.working, token, Checked)
    case InsertRows(token, x, _) => Moved(s.working, token, Writing(x))
    case Commit(token) => Moved(s.working, token, Finished)
    case Rollback(token) => Moved(s.working, token, Errored)
    case ProcessOther(token) => Moved(s.working, token, Finished)
    case MarkProcessed(token) => s.working - {token}
    case MarkRaises(token) => Moved(s.working, token, Errored)
    case MarkFailed(token, _) => s.working - {token}
    case CloseConversation(_) => s.working
    case Vanish(token) => s.working - {token}
  }

  /** Ending a transaction, either way, releases its advisory lock. */
  function LocksAfter(s: State, step: Step, hash: LockHash): map<int, string>
    requires Enabled(s, step, hash)
  {
    match step
    case AcquireLock(token) => s.locks[LockOf(s.working[token], hash) := token]
    case FindDuplicate(token) => Released(s, token, hash)
    case Commit(token) => Released(s, token, hash)
    case Rollback(token) => Released(s, token, hash)
    case Vanish(token) => Released(s, token, hash)
    case _ => s.locks
  }

  function ConversationsAfter(s: State, step: Step, hash: LockHash): map<string, Conversation>
    requires Enabled(s, step, hash)
  {
    match step
    case Commit(token) =>
      var w := s.working[token];
      var x := w.stage.insert;
      if x.opens then s.conversations[x.conversationId := Conversation(w.row.tenantId, w.row.channelId, PhoneOf(w.row.payload), true)]
      else s.conversations
    case CloseConversation(id) => s.conversations[id := s.conversations[id].(isOpen := false)]
    case _ => s.conversations
  }

  function MessagesAfter(s: State, step: Step, hash: LockHash): map<string, Message>
    requires Enabled(s, step, hash)
  {
    match step
    case Commit(token) =>
      var w := s.working[token];
      var x := w.stage.insert;
      s.messages[x.messageId := Message(w.row.tenantId, w.row.channelId, w.row.payload.providerEventId, x.conversationId,
                                           BodyOf(w.row.payload))]
    case _ => s.messages
  }

  function CreatedAfter(s: State, step: Step, hash: LockHash): map<string, Created>
    requires Enabled(s, step, hash)
  {
    match step
    case Commit(token) =>
      var w := s.working[token];
      var x := w.stage.insert;
      s.created[x.eventId := Created(w.row.tenantId, x.conversationId, VersionAt(x.time), x.messageId)]
    case _ => s.created
  }

  function IssuedAfter(s: State, step: Step): set<string> {
    if step.Claim? && step.choice.Some? then s.issued + {step.token} else s.issued
  }

  function FailuresAfter(s: State, step: Step, hash: LockHash): map<string, nat>
    requires Enabled(s, step, hash)
  {
    match step
    case MarkFailed(token, now) =>
      var w := s.working[token];
      if Holds(s.rows, w.eventId, w.worker, token) then s.failures[w.eventId := FailureCount(s, w.eventId) + 1] else s.failures
    case _ => s.failures
  }

  function Apply(s: State, step: Step, hash: LockHash): State
    requires Enabled(s, step, hash)
  {
    State(RowsAfter(s, step, hash), ConversationsAfter(s, step, hash), MessagesAfter(s, step, hash), CreatedAfter(s, step, hash),
          WorkingAfter(s, step, hash), LocksAfter(s, step, hash), IssuedAfter(s, step), FailuresAfter(s, step, hash))
  }

  /** How many failures the queue has accepted for a row. */
  function FailureCount(s: State, id: string): nat { if id in s.failures then s.failures[id] else 0 }

  ghost predicate Next(s: State, t: State, hash: LockHash) { exists step :: Enabled(s, step, hash) && t == Apply(s, step, hash) }

  predicate Init(s: State) {
    s.rows == map[] && s.messages == map[] && s.created == map[] && s.working == map[] && s.locks == map[]
    && s.issued == {} && s.failures == map[]
  }

  ghost predicate IsRun(run: seq<State>, hash: LockHash) {
    && run != [] && Init(run[0])
    && forall i | 0 <= i < |run| - 1 :: Next(run[i], run[i + 1], hash)
  }

  // ----- the invariant, in layers

  predicate RowOk(row: Row) {
    && 0 <= row.attempts
    && (row.lease.Held? <==> row.status == Processing)
    && (row.status == Pending ==> row.attempts == 0)
    && (row.status in {Processing, Processed, Failed} ==> row.attempts < row.maxAttempts)
    && (row.status == DeadLetter ==> 1 <= row.attempts == row.maxAttempts)
  }

  /** Counters are exact: `attempts` is the number of failures accepted for the row. */
  ghost predicate RowsOk(s: State) {
    && (forall id | id in s.rows :: RowOk(s.rows[id]) && s.rows[id].attempts == FailureCount(s, id))
    && (forall id | id !in s.rows :: FailureCount(s, id) == 0)
    && (forall id | id in s.rows && s.rows[id].lease.Held? :: s.rows[id].lease.token in s.issued)
  }

  predicate SameEvent(a: Row, b: Row) { a.channelId == b.channelId && a.tenantId == b.tenantId && a.payload == b.payload }

  ghost predicate WorkOk(s: State) {
    forall token | token in s.working ::
      var w := s.working[token];
      && token in s.issued && w.eventId in s.rows && SameEvent(w.row, s.rows[w.eventId])
      && (Holds(s.rows, w.eventId, w.worker, token) ==>
            w.row.attempts == s.rows[w.eventId].attempts && w.row.maxAttempts == s.rows[w.eventId].maxAttempts)
  }

  /** A transaction past its lock statement owns the lock for its event, so no two such transactions share an event. */
  ghost predicate LocksOk(s: State, hash: LockHash) {
    forall token | token in s.working && HasLock(s.working[token].stage) ::
      LockOf(s.working[token], hash) in s.locks && s.locks[LockOf(s.working[token], hash)] == token
  }

  /** A transaction that found no duplicate still has none to find. */
  ghost predicate ChecksOk(s: State) {
    forall token | token in s.working && (s.working[token].stage.Checked? || s.working[token].stage.Writing?) ::
      !StoredFor(s, s.working[token].row)
  }

  /** At most one message per channel and provider message id. */
  ghost predicate MessagesUnique(s: State) {
    forall a, b | a in s.messages && b in s.messages && s.messages[a].channelId == s.messages[b].channelId
                  && s.messages[a].providerMessageId == s.messages[b].providerMessageId :: a == b
  }

  /** Messages and `inbox.message.created` events correspond one to one and agree on tenant and conversation. */
  ghost predicate EventsMatch(s: State) { Matched(s.messages, s.created) }

  ghost predicate Matched(messages: map<string, Message>, created: map<string, Created>) {
    && (forall m | m in messages :: exists e | e in created :: created[e].messageId == m)
    && (forall e | e in created ::
          && created[e].messageId in messages
          && created[e].tenantId == messages[created[e].messageId].tenantId
          && created[e].conversationId == messages[created[e].messageId].conversationId)
    && (forall d, e | d in created && e in created && created[d].messageId == created[e].messageId :: d == e)
  }

  /** Finished work on a message, and a processed message row, mean the message is stored. */
  ghost predicate FinishedStored(s: State) {
    && (forall token | token in s.working && s.working[token].stage == Finished && s.working[token].row.payload.kind == MessageKind ::
          StoredFor(s, s.working[token].row))
    && (forall id | id in s.rows && s.rows[id].status == Processed && s.rows[id].payload.kind == MessageKind ::
          StoredFor(s, s.rows[id]))
  }

  ghost predicate Inv(s: State, hash: LockHash) {
    && UniqueEvents(s.rows) && RowsOk(s) && WorkOk(s) && LocksOk(s, hash) && ChecksOk(s) && MessagesUnique(s) && EventsMatch(s) && FinishedStored(s)
  }

  lemma InitInv(s: State, hash: LockHash)
    requires Init(s)
    ensures Inv(s, hash)
  {
  }

  // ----- what one step does

  /** Steps that leave the queue itself alone. */
  predicate QueueIdle(step: Step) {
    !step.Receive? && !step.Claim? && !step.MarkProcessed? && !step.MarkFailed?
  }

  /** Nothing that is stored is ever removed or changed. */
  lemma MessagesGrow(s: State, step: Step, hash: LockHash)
    requires Enabled(s, step, hash)
    ensures forall m | m in s.messages :: m in Apply(s, step, hash).messages && Apply(s, step, hash).messages[m] == s.messages[m]
    ensures forall e | e in s.created :: e in Apply(s, step, hash).created && Apply(s, step, hash).created[e] == s.created[e]
  {
    hide RowsAfter, WorkingAfter, LocksAfter, ConversationsAfter, IssuedAfter, FailuresAfter, IsNext, Joins, StoredFor, FreshIds;
  }

  /** A message and its realtime event appear in the same step, one of each, and only by a commit. */
  lemma AppearTogether(s: State, step: Step, hash: LockHash)
    requires Enabled(s, step, hash)
    ensures var t := Apply(s, step, hash);
            if step.Commit? then
              var x := s.working[step.token].stage.insert;
              && t.messages.Keys == s.messages.Keys + {x.messageId} && x.messageId !in s.messages
              && t.created.Keys == s.created.Keys + {x.eventId} && x.eventId !in s.created
              && t.created[x.eventId].messageId == x.messageId
            else t.messages == s.messages && t.created == s.created
  {
    hide RowsAfter, WorkingAfter, LocksAfter, ConversationsAfter, IssuedAfter, FailuresAfter, IsNext, Joins, StoredFor, FreshIds;
  }

  lemma StoredStays(s: State, step: Step, hash: LockHash, channelId: string, providerMessageId: string)
    requires Enabled(s, step, hash) && Stored(s, channelId, providerMessageId)
    ensures Stored(Apply(s, step, hash), channelId, providerMessageId)
  {
    MessagesGrow(s, step, hash);
    var m :| m in s.messages && s.messages[m].channelId == channelId && s.messages[m].providerMessageId == providerMessageId;
    assert m in Apply(s, step, hash).messages;
  }

  /** A mark by a worker that no longer holds the lease changes nothing in the queue. */
  lemma StaleMarkIsRejected(s: State, step: Step, token: string, hash: LockHash)
    requires Enabled(s, step, hash) && token in s.working
    requires step == MarkProcessed(token) || (step.MarkFailed? && step.token == token)
    requires !Holds(s.rows, s.working[token].eventId, s.working[token].worker, token)
    ensures Apply(s, step, hash).rows == s.rows && Apply(s, step, hash).failures == s.failures
  {
    hide WorkingAfter, LocksAfter, ConversationsAfter, MessagesAfter, CreatedAfter, IssuedAfter;
  }

  /** The ways one row changes; the event it carries never does. */
  predicate RowStep(before: Row, after: Row) {
    || after == before
    || (before.attempts < before.maxAttempts && (before.status == Pending || before.status == Failed || before.status == Processing)
        && after.lease.Held? && after == before.(status := Processing, lease := after.lease))
    || (before.status == Processing && after == before.(status := Processed, lease := Free))
    || (before.status == Processing && after.lease == Free && after.attempts == before.attempts + 1
        && after.status == (if before.attempts + 1 >= before.maxAttempts then DeadLetter else Failed)
        && after == before.(status := after.status, attempts := after.attempts, availableAt := after.availableAt, lease := Free))
  }

  lemma FailedRow(rows: map<string, Row>, id: string, worker: string, token: string, claimed: Row, now: int, other: string)
    requires Holds(rows, id, worker, token) ==>
               claimed.attempts == rows[id].attempts < rows[id].maxAttempts == claimed.maxAttempts
    ensures other in FailedRows(rows, id, worker, token, claimed, now) <==> other in rows
    ensures other in rows ==>
              var after := FailedRows(rows, id, worker, token, claimed, now)[other];
              if other == id && Holds(rows, id, worker, token) then
                RowStep(rows[other], after) && after.attempts == rows[other].attempts + 1 && after.status != Processed
              else after == rows[other]
  {
    hide RetryDelay;
  }

  lemma ClaimedRow(rows: map<string, Row>, worker: string, token: string, now: int, locked: set<string>, choice: Option<string>, other: string)
    requires IsNext(rows, now, locked, choice)
    ensures other in ClaimRows(rows, worker, token, now, choice) <==> other in rows
    ensures other in rows ==>
              var after := ClaimRows(rows, worker, token, now, choice)[other];
              && RowStep(rows[other], after) && after.attempts == rows[other].attempts
              && (after != rows[other] ==> after.status == Processing && after.lease == Held(worker, token, now))
  {
  }

  lemma ProcessedRow(rows: map<string, Row>, id: string, worker: string, token: string, other: string)
    ensures other in ProcessedRows(rows, id, worker, token) <==> other in rows
    ensures other in rows ==>
              var after := ProcessedRows(rows, id, worker, token)[other];
              RowStep(rows[other], after) && after.attempts == rows[other].attempts && (after != rows[other] ==> other == id && after.lease == Free)
  {
  }

  /** What a step does to one row, new or old, and to the count of its accepted failures. */
  ghost predicate RowEffect(s: State, step: Step, hash: LockHash, id: string)
    requires Enabled(s, step, hash)
  {
    var rows := RowsAfter(s, step, hash);
    if id !in s.rows then
      && (id in rows ==> rows[id].status == Pending && rows[id].attempts == 0 && rows[id].lease == Free)
      && CountAfter(s, step, id) == FailureCount(s, id)
    else
      && id in rows && RowStep(s.rows[id], rows[id])
      && rows[id].attempts - s.rows[id].attempts == CountAfter(s, step, id) - FailureCount(s, id)
      && (rows[id].lease.Held? && rows[id] != s.rows[id] ==>
            step.Claim? && step.choice.Some? && rows[id].lease.token == step.token && rows[id].lease.worker == step.worker)
      && (rows[id].status == Processed && s.rows[id].status != Processed ==>
            step.MarkProcessed? && s.working[step.token].eventId == id && s.working[step.token].stage == Finished)
  }

  function CountAfter(s: State, step: Step, id: string): nat {
    FailureCount(s, id) +
    if step.MarkFailed? && step.token in s.working && s.working[step.token].eventId == id
       && Holds(s.rows, id, s.working[step.token].worker, step.token) then 1 else 0
  }

  lemma CountIs(s: State, step: Step, hash: LockHash, id: string)
    requires Enabled(s, step, hash)
    ensures FailureCount(Apply(s, step, hash), id) == CountAfter(s, step, id)
  {
    hide RowsAfter, WorkingAfter, LocksAfter, ConversationsAfter, MessagesAfter, CreatedAfter, IssuedAfter, Holds;
  }

  lemma MarkFailedEffect(s: State, token: string, now: int, hash: LockHash, id: string)
    requires Enabled(s, MarkFailed(token, now), hash) && RowsOk(s) && WorkOk(s)
    ensures RowEffect(s, MarkFailed(token, now), hash, id)
  {
    hide RetryDelay, RowStep;
    var w := s.working[token];
    if Holds(s.rows, w.eventId, w.worker, token) { assert RowOk(s.rows[w.eventId]); }
    FailedRow(s.rows, w.eventId, w.worker, token, w.row, now, id);
    RowStepRefl(s.rows, id);
  }

  lemma ClaimEffect(s: State, step: Step, hash: LockHash, id: string)
    requires Enabled(s, step, hash) && step.Claim?
    ensures RowEffect(s, step, hash, id)
  {
    hide RowStep;
    ClaimedRow(s.rows, step.worker, step.token, step.now, step.locked, step.choice, id);
  }

  lemma MarkProcessedEffect(s: State, step: Step, hash: LockHash, id: string)
    requires Enabled(s, step, hash) && step.MarkProcessed?
    ensures RowEffect(s, step, hash, id)
  {
    hide RowStep;
    var w := s.working[step.token];
    ProcessedRow(s.rows, w.eventId, w.worker, step.token, id);
    RowStepRefl(s.rows, id);
  }

  lemma ReceiveEffect(s: State, step: Step, hash: LockHash, id: string)
    requires Enabled(s, step, hash) && step.Receive?
    ensures RowEffect(s, step, hash, id)
  {
    hide RowStep, ReceiveAll;
    ReceiveRow(s.rows, step.channelId, step.tenantId, step.events, step.ids, step.now, id);
    RowStepRefl(s.rows, id);
  }

  lemma RowStepRefl(rows: map<string, Row>, id: string)
    ensures id in rows ==> RowStep(rows[id], rows[id])
  {
  }

  lemma IdleEffect(s: State, step: Step, hash: LockHash, id: string)
    requires Enabled(s, step, hash) && QueueIdle(step)
    ensures RowEffect(s, step, hash, id)
  {
    hide RowStep, Enabled;
    RowStepRefl(s.rows, id);
  }

  lemma StepEffect(s: State, step: Step, hash: LockHash, id: string)
    requires Enabled(s, step, hash) && RowsOk(s) && WorkOk(s)
    ensures RowEffect(s, step, hash, id)
    ensures Apply(s, step, hash).rows == RowsAfter(s, step, hash)
    ensures FailureCount(Apply(s, step, hash), id) == CountAfter(s, step, id)
  {
    hide Enabled, RowsOk, WorkOk, RowEffect, RowsAfter, WorkingAfter, LocksAfter, ConversationsAfter, MessagesAfter, CreatedAfter,
      IssuedAfter, FailuresAfter, FailureCount, CountAfter;
    CountIs(s, step, hash, id);
    if step.Receive? { ReceiveEffect(s, step, hash, id); }
    else if step.Claim? { ClaimEffect(s, step, hash, id); }
    else if step.MarkProcessed? { MarkProcessedEffect(s, step, hash, id); }
    else if step.MarkFailed? { MarkFailedEffect(s, step.token, step.now, hash, id); }
    else { IdleEffect(s, step, hash, id); }
  }

  /** `processed` and `dead_letter` are terminal. */
  lemma TerminalStays(s: State, step: Step, hash: LockHash, id: string)
    requires Enabled(s, step, hash) && Inv(s, hash) && id in s.rows && (s.rows[id].status == Processed || s.rows[id].status == DeadLetter)
    ensures id in Apply(s, step, hash).rows && Apply(s, step, hash).rows[id] == s.rows[id]
  {
    hide Apply, Enabled, UniqueEvents, LocksOk, ChecksOk, MessagesUnique, EventsMatch, FinishedStored;
    StepEffect(s, step, hash, id);
  }

  // ----- every step keeps the invariant

  lemma KeepUniqueRows(s: State, step: Step, hash: LockHash)
    requires Enabled(s, step, hash) && RowsOk(s) && WorkOk(s) && UniqueEvents(s.rows)
    ensures UniqueEvents(Apply(s, step, hash).rows)
  {
    var t := Apply(s, step, hash);
    if step.Receive? {
      ReceiveDeduplicates(s.rows, step.channelId, step.tenantId, step.events, step.ids, step.now);
    } else {
      forall id | id in t.rows ensures id in s.rows && SameEvent(t.rows[id], s.rows[id]) { RowsOnlyReceived(s, step, hash, id); }
    }
    hide Apply, Enabled, RowsOk, WorkOk;
  }

  lemma RowsOnlyReceived(s: State, step: Step, hash: LockHash, id: string)
    requires Enabled(s, step, hash) && RowsOk(s) && WorkOk(s) && !step.Receive? && id in Apply(s, step, hash).rows
    ensures id in s.rows && SameEvent(Apply(s, step, hash).rows[id], s.rows[id])
  {
    hide WorkingAfter, LocksAfter, ConversationsAfter, MessagesAfter, CreatedAfter, IssuedAfter, FailuresAfter, RetryDelay, ReceiveAll, Joins, StoredFor, Insertable, RowsOk, WorkOk;
  }

  lemma KeepRows(s: State, step: Step, hash: LockHash)
    requires Enabled(s, step, hash) && RowsOk(s) && WorkOk(s)
    ensures RowsOk(Apply(s, step, hash))
  {
    hide RowsAfter, WorkingAfter, LocksAfter, ConversationsAfter, MessagesAfter, CreatedAfter, IssuedAfter, FailuresAfter, Enabled, WorkOk, RowStep, FailureCount, CountAfter, RowOk, Holds;
    var t := Apply(s, step, hash);
    IssuedGrows(s, step, hash);
    forall id ensures
      && (id in t.rows ==> RowOk(t.rows[id]) && t.rows[id].attempts == FailureCount(t, id))
      && (id !in t.rows ==> FailureCount(t, id) == 0)
      && (id in t.rows && t.rows[id].lease.Held? ==> t.rows[id].lease.token in t.issued)
    {
      StepEffect(s, step, hash, id);
      RowOkAt(s, id);
      if id in s.rows { RowKept(s.rows[id], t.rows[id]); } else if id in t.rows { NewRowOk(t.rows[id]); }
    }
  }

  lemma RowKept(before: Row, after: Row)
    requires RowOk(before) && RowStep(before, after)
    ensures RowOk(after)
  {
  }

  lemma RowOkAt(s: State, id: string)
    requires RowsOk(s)
    ensures id in s.rows ==> RowOk(s.rows[id]) && s.rows[id].attempts == FailureCount(s, id)
                             && (s.rows[id].lease.Held? ==> s.rows[id].lease.token in s.issued)
    ensures id !in s.rows ==> FailureCount(s, id) == 0
  {
  }

  lemma NewRowOk(row: Row)
    requires row.status == Pending && row.attempts == 0 && row.lease == Free
    ensures RowOk(row)
  {
  }

  lemma IssuedGrows(s: State, step: Step, hash: LockHash)
    requires Enabled(s, step, hash)
    ensures s.issued <= Apply(s, step, hash).issued
    ensures step.Claim? && step.choice.Some? ==> step.token in Apply(s, step, hash).issued
  {
    hide RowsAfter, WorkingAfter, LocksAfter, ConversationsAfter, MessagesAfter, CreatedAfter, FailuresAfter, ReceiveAll, IsNext, Joins, StoredFor, FailedRows;
  }

  /** Work after a step was under way before it, or has just been claimed with a fresh token. */
  lemma WorkAfter(s: State, step: Step, hash: LockHash, token: string)
    requires Enabled(s, step, hash) && WorkOk(s) && token in Apply(s, step, hash).working
    ensures var w := Apply(s, step, hash).working[token];
            if step.Claim? && step.choice.Some? && step.token == token then
              && w.stage == Claimed && w.eventId == step.choice.value && w.worker == step.worker
              && w.eventId in Apply(s, step, hash).rows && w.row == Apply(s, step, hash).rows[w.eventId]
            else
              token in s.working && w.eventId == s.working[token].eventId && w.worker == s.working[token].worker
              && w.row == s.working[token].row
  {
    hide LocksAfter, ConversationsAfter, MessagesAfter, CreatedAfter, IssuedAfter, FailuresAfter, ReceiveAll, Joins, StoredFor, Insertable, FailedRows, ProcessedRows, WorkOk;
  }

  lemma KeepWork(s: State, step: Step, hash: LockHash)
    requires Enabled(s, step, hash) && RowsOk(s) && WorkOk(s)
    ensures WorkOk(Apply(s, step, hash))
  {
    hide RowsAfter, WorkingAfter, LocksAfter, ConversationsAfter, MessagesAfter, CreatedAfter, IssuedAfter, FailuresAfter, Enabled, RowOk, FailureCount, CountAfter, RowsOk;
    var t := Apply(s, step, hash);
    IssuedGrows(s, step, hash);
    forall token | token in t.working
      ensures var w := t.working[token];
              && token in t.issued && w.eventId in t.rows && SameEvent(w.row, t.rows[w.eventId])
              && (Holds(t.rows, w.eventId, w.worker, token) ==>
                    w.row.attempts == t.rows[w.eventId].attempts && w.row.maxAttempts == t.rows[w.eventId].maxAttempts)
    {
      WorkAfter(s, step, hash, token);
      var w := t.working[token];
      if token in s.working { FreshClaim(s, step, hash, token); StepEffect(s, step, hash, w.eventId); }
    }
  }

  lemma FreshClaim(s: State, step: Step, hash: LockHash, token: string)
    requires Enabled(s, step, hash) && WorkOk(s) && token in s.working
    ensures step.Claim? ==> step.token != token
    ensures s.working[token].eventId in s.rows
  {
  }

  /** The stage of one worker changes only by its own step. */
  lemma StageAfter(s: State, step: Step, hash: LockHash, token: string)
    requires Enabled(s, step, hash) && WorkOk(s) && token in Apply(s, step, hash).working
    ensures var stage := Apply(s, step, hash).working[token].stage;
            && (HasLock(stage) ==> token in s.working && (HasLock(s.working[token].stage) || step == AcquireLock(token)))
            && (stage.Checked? || stage.Writing? ==>
                  token in s.working && (s.working[token].stage.Checked? || s.working[token].stage.Writing? || step == FindNoDuplicate(token)))
            && (stage == Finished ==>
                  token in s.working && (s.working[token].stage == Finished || step == FindDuplicate(token) || step == Commit(token)
                                         || step == ProcessOther(token)))
            && (step == Commit(token) || step == FindDuplicate(token) || step == Rollback(token) ==> !HasLock(stage))
  {
    hide RowsAfter, LocksAfter, ConversationsAfter, MessagesAfter, CreatedAfter, IssuedAfter, FailuresAfter, ReceiveAll, Joins, StoredFor, Insertable, FailedRows, ProcessedRows, ClaimRows, WorkOk;
  }

  /** A lock is taken only when free and given up only by its owner. */
  lemma LockAfter(s: State, step: Step, hash: LockHash, key: int)
    requires Enabled(s, step, hash) && LocksOk(s, hash) && key in s.locks
    ensures var locks := Apply(s, step, hash).locks;
            (key in locks && locks[key] == s.locks[key])
            || (step.Commit? && step.token == s.locks[key]) || (step.Rollback? && step.token == s.locks[key])
            || (step.FindDuplicate? && step.token == s.locks[key]) || (step.Vanish? && step.token == s.locks[key])
  {
    hide RowsAfter, WorkingAfter, ConversationsAfter, MessagesAfter, CreatedAfter, IssuedAfter, FailuresAfter, ReceiveAll, IsNext, Joins, StoredFor, Insertable, FreshIds;
  }

  lemma LockTaken(s: State, hash: LockHash, token: string)
    requires Enabled(s, AcquireLock(token), hash)
    ensures var t := Apply(s, AcquireLock(token), hash);
            token in t.working && LockOf(t.working[token], hash) in t.locks && t.locks[LockOf(t.working[token], hash)] == token
  {
    hide RowsAfter, ConversationsAfter, MessagesAfter, CreatedAfter, IssuedAfter, FailuresAfter;
  }

  lemma VanishedGone(s: State, hash: LockHash, token: string)
    requires Enabled(s, Vanish(token), hash)
    ensures token !in Apply(s, Vanish(token), hash).working
  {
    hide RowsAfter, LocksAfter, ConversationsAfter, MessagesAfter, CreatedAfter, IssuedAfter, FailuresAfter;
  }

  lemma KeepLocks(s: State, step: Step, hash: LockHash)
    requires Enabled(s, step, hash) && WorkOk(s) && LocksOk(s, hash)
    ensures LocksOk(Apply(s, step, hash), hash)
  {
    hide RowsAfter, WorkingAfter, LocksAfter, ConversationsAfter, MessagesAfter, CreatedAfter, IssuedAfter, FailuresAfter, Enabled, WorkOk, HasLock;
    var t := Apply(s, step, hash);
    forall token | token in t.working && HasLock(t.working[token].stage)
      ensures LockOf(t.working[token], hash) in t.locks && t.locks[LockOf(t.working[token], hash)] == token
    {
      WorkAfter(s, step, hash, token);
      StageAfter(s, step, hash, token);
      NoLockYet();
      if step == AcquireLock(token) {
        LockTaken(s, hash, token);
      } else {
        LockAfter(s, step, hash, LockOf(s.working[token], hash));
        if step == Vanish(token) { VanishedGone(s, hash, token); }
      }
    }
  }

  lemma NoLockYet()
    ensures !HasLock(Claimed)
  {
  }

  /** What a commit stores is found exactly by the events it was written for. */
  lemma StoredAfter(s: State, step: Step, hash: LockHash, row: Row)
    requires Enabled(s, step, hash)
    ensures StoredFor(Apply(s, step, hash), row) ==>
              StoredFor(s, row)
              || (step.Commit? && s.working[step.token].row.channelId == row.channelId
                  && s.working[step.token].row.payload.providerEventId == row.payload.providerEventId)
    ensures step.Commit? && s.working[step.token].row == row ==> StoredFor(Apply(s, step, hash), row)
  {
    hide RowsAfter, WorkingAfter, LocksAfter, ConversationsAfter, CreatedAfter, IssuedAfter, FailuresAfter, ReceiveAll, IsNext, Joins, FailedRows, ProcessedRows, ClaimRows;
    if step.Commit? {
      var x := s.working[step.token].stage.insert;
      assert x.messageId in Apply(s, step, hash).messages;
    } else {
      AppearTogether(s, step, hash);
    }
  }

  lemma SameLock(s: State, hash: LockHash, a: string, b: string)
    requires LocksOk(s, hash) && a in s.working && b in s.working
    requires HasLock(s.working[a].stage) && HasLock(s.working[b].stage)
    requires s.working[a].row.channelId == s.working[b].row.channelId
    requires s.working[a].row.payload.providerEventId == s.working[b].row.payload.providerEventId
    ensures a == b
  {
  }

  lemma KeepChecks(s: State, step: Step, hash: LockHash)
    requires Enabled(s, step, hash) && WorkOk(s) && LocksOk(s, hash) && ChecksOk(s)
    ensures ChecksOk(Apply(s, step, hash))
  {
    hide RowsAfter, WorkingAfter, LocksAfter, ConversationsAfter, MessagesAfter, CreatedAfter, IssuedAfter, FailuresAfter, Enabled, WorkOk, LocksOk, StoredFor;
    var t := Apply(s, step, hash);
    forall token | token in t.working && (t.working[token].stage.Checked? || t.working[token].stage.Writing?)
      ensures !StoredFor(t, t.working[token].row)
    {
      KeepCheck(s, step, hash, token);
    }
  }

  lemma KeepCheck(s: State, step: Step, hash: LockHash, token: string)
    requires Enabled(s, step, hash) && WorkOk(s) && LocksOk(s, hash) && ChecksOk(s)
    requires token in Apply(s, step, hash).working
    requires Apply(s, step, hash).working[token].stage.Checked? || Apply(s, step, hash).working[token].stage.Writing?
    ensures !StoredFor(Apply(s, step, hash), Apply(s, step, hash).working[token].row)
  {
    hide RowsAfter, WorkingAfter, LocksAfter, ConversationsAfter, MessagesAfter, CreatedAfter, IssuedAfter, FailuresAfter, Enabled, WorkOk, LocksOk, StoredFor, ChecksOk;
    WorkAfter(s, step, hash, token);
    StageAfter(s, step, hash, token);
    var row := s.working[token].row;
    StoredAfter(s, step, hash, row);
    CommitStage(s, step, hash);
    NotStoredYet(s, step, hash, token);
    if step.Commit? && s.working[step.token].row.channelId == row.channelId
       && s.working[step.token].row.payload.providerEventId == row.payload.providerEventId {
      SameLock(s, hash, token, step.token);
    }
  }

  lemma CommitStage(s: State, step: Step, hash: LockHash)
    requires Enabled(s, step, hash)
    ensures step.Commit? ==> step.token in s.working && s.working[step.token].stage.Writing?
    ensures step.FindNoDuplicate? ==> step.token in s.working && s.working[step.token].stage.Locked?
  {
  }

  lemma NotStoredYet(s: State, step: Step, hash: LockHash, token: string)
    requires Enabled(s, step, hash) && ChecksOk(s) && token in s.working
    requires s.working[token].stage.Checked? || s.working[token].stage.Writing? || step == FindNoDuplicate(token)
    ensures !StoredFor(s, s.working[token].row)
  {
  }

  lemma KeepMessages(s: State, step: Step, hash: LockHash)
    requires Enabled(s, step, hash) && ChecksOk(s) && MessagesUnique(s)
    ensures MessagesUnique(Apply(s, step, hash))
  {
    hide RowsAfter, WorkingAfter, LocksAfter, ConversationsAfter, CreatedAfter, IssuedAfter, FailuresAfter, ReceiveAll, IsNext, Joins, FailedRows, ProcessedRows, ClaimRows;
    if step.Commit? {
      assert !StoredFor(s, s.working[step.token].row);
    } else {
      AppearTogether(s, step, hash);
    }
  }

  lemma KeepEvents(s: State, step: Step, hash: LockHash)
    requires Enabled(s, step, hash) && EventsMatch(s)
    ensures EventsMatch(Apply(s, step, hash))
  {
    hide ReceiveAll, IsNext, Joins, FailedRows, ProcessedRows, ClaimRows;
    if step.Commit? {
      CommitEvents(s, step.token, hash);
    } else {
      AppearTogether(s, step, hash);
    }
  }

  lemma CommitEvents(s: State, token: string, hash: LockHash)
    requires Enabled(s, Commit(token), hash) && EventsMatch(s)
    ensures EventsMatch(Apply(s, Commit(token), hash))
  {
    hide RowsAfter, WorkingAfter, LocksAfter, ConversationsAfter, IssuedAfter, FailuresAfter, Enabled;
    var t := Apply(s, Commit(token), hash);
    CommitInserts(s, token, hash);
    var x := s.working[token].stage.insert;
    AddPair(s.messages, s.created, x.messageId, t.messages[x.messageId], x.eventId, t.created[x.eventId]);
  }

  lemma CommitInserts(s: State, token: string, hash: LockHash)
    requires Enabled(s, Commit(token), hash)
    ensures token in s.working && s.working[token].stage.Writing?
    ensures var x := s.working[token].stage.insert;
            var t := Apply(s, Commit(token), hash);
            && x.messageId !in s.messages && x.eventId !in s.created
            && x.messageId in t.messages && t.messages == s.messages[x.messageId := t.messages[x.messageId]]
            && x.eventId in t.created && t.created == s.created[x.eventId := t.created[x.eventId]]
            && t.created[x.eventId].messageId == x.messageId
            && t.created[x.eventId].tenantId == t.messages[x.messageId].tenantId
            && t.created[x.eventId].conversationId == t.messages[x.messageId].conversationId
  {
    hide RowsAfter, WorkingAfter, LocksAfter, ConversationsAfter, IssuedAfter, FailuresAfter;
  }

  /** Adding a message together with its event keeps the correspondence. */
  lemma AddPair(messages: map<string, Message>, created: map<string, Created>, m: string, message: Message, e: string, event: Created)
    requires Matched(messages, created) && m !in messages && e !in created
    requires event.messageId == m && event.tenantId == message.tenantId && event.conversationId == message.conversationId
    ensures Matched(messages[m := message], created[e := event])
  {
    var ms, es := messages[m := message], created[e := event];
    forall k | k in ms ensures exists d | d in es :: es[d].messageId == k {
      if k == m {
        assert es[e].messageId == k;
      } else {
        var d :| d in created && created[d].messageId == k;
        assert es[d].messageId == k;
      }
    }
  }

  lemma KeepFinished(s: State, step: Step, hash: LockHash)
    requires Enabled(s, step, hash) && RowsOk(s) && WorkOk(s) && FinishedStored(s)
    ensures FinishedStored(Apply(s, step, hash))
  {
    hide RowsAfter, WorkingAfter, LocksAfter, ConversationsAfter, MessagesAfter, CreatedAfter, IssuedAfter, FailuresAfter, Enabled, WorkOk, RowsOk, StoredFor;
    var t := Apply(s, step, hash);
    forall token | token in t.working && t.working[token].stage == Finished && t.working[token].row.payload.kind == MessageKind
      ensures StoredFor(t, t.working[token].row)
    {
      FinishedAfter(s, step, hash, token);
    }
    forall id | id in t.rows && t.rows[id].status == Processed && t.rows[id].payload.kind == MessageKind
      ensures StoredFor(t, t.rows[id])
    {
      ProcessedAfter(s, step, hash, id);
    }
  }

  lemma FinishedAfter(s: State, step: Step, hash: LockHash, token: string)
    requires Enabled(s, step, hash) && WorkOk(s) && FinishedStored(s) && token in Apply(s, step, hash).working
    requires Apply(s, step, hash).working[token].stage == Finished
    requires Apply(s, step, hash).working[token].row.payload.kind == MessageKind
    ensures StoredFor(Apply(s, step, hash), Apply(s, step, hash).working[token].row)
  {
    hide RowsAfter, WorkingAfter, LocksAfter, ConversationsAfter, MessagesAfter, CreatedAfter, IssuedAfter, FailuresAfter, Enabled, WorkOk, FinishedStored;
    WorkAfter(s, step, hash, token);
    StageAfter(s, step, hash, token);
    var row := s.working[token].row;
    StoredAfter(s, step, hash, row);
    StoredBefore(s, step, hash, token);
    if StoredFor(s, row) { StoredStays(s, step, hash, row.channelId, row.payload.providerEventId); }
  }

  lemma StoredBefore(s: State, step: Step, hash: LockHash, token: string)
    requires Enabled(s, step, hash) && FinishedStored(s) && token in s.working && s.working[token].row.payload.kind == MessageKind
    ensures s.working[token].stage == Finished || step == FindDuplicate(token) ==> StoredFor(s, s.working[token].row)
    ensures step != ProcessOther(token)
  {
  }

  lemma ProcessedAfter(s: State, step: Step, hash: LockHash, id: string)
    requires Enabled(s, step, hash) && RowsOk(s) && WorkOk(s) && FinishedStored(s) && id in Apply(s, step, hash).rows
    requires Apply(s, step, hash).rows[id].status == Processed && Apply(s, step, hash).rows[id].payload.kind == MessageKind
    ensures StoredFor(Apply(s, step, hash), Apply(s, step, hash).rows[id])
  {
    hide RowsAfter, WorkingAfter, LocksAfter, ConversationsAfter, MessagesAfter, CreatedAfter, IssuedAfter, FailuresAfter, RowsOk, CountAfter, FailureCount;
    StepEffect(s, step, hash, id);
    var row := s.rows[id];
    assert StoredFor(s, row) by {
      if row.status != Processed { FreshClaim(s, step, hash, step.token); }
    }
    StoredStays(s, step, hash, row.channelId, row.payload.providerEventId);
  }

  lemma StepKeeps(s: State, step: Step, hash: LockHash)
    requires Enabled(s, step, hash) && Inv(s, hash)
    ensures Inv(Apply(s, step, hash), hash)
  {
    hide Apply, Enabled, UniqueEvents, RowsOk, WorkOk, LocksOk, ChecksOk, MessagesUnique, EventsMatch, FinishedStored;
    KeepUniqueRows(s, step, hash);
    KeepRows(s, step, hash);
    KeepWork(s, step, hash);
    KeepLocks(s, step, hash);
    KeepChecks(s, step, hash);
    KeepMessages(s, step, hash);
    KeepEvents(s, step, hash);
    KeepFinished(s, step, hash);
  }

  // ----- whole runs

  lemma {:induction false} RunStep(run: seq<State>, i: nat, hash: LockHash) returns (step: Step)
    requires IsRun(run, hash) && i + 1 < |run|
    ensures Enabled(run[i], step, hash) && run[i + 1] == Apply(run[i], step, hash)
  {
    hide Enabled, Apply, Init;
    assert Next(run[i], run[i + 1], hash);
    step :| Enabled(run[i], step, hash) && run[i + 1] == Apply(run[i], step, hash);
  }

  lemma {:induction false} RunInv(run: seq<State>, i: nat, hash: LockHash)
    requires IsRun(run, hash) && i < |run|
    ensures Inv(run[i], hash)
  {
    hide Inv, Apply, Enabled, Next, Init;
    if i == 0 {
      InitInv(run[0], hash);
    } else {
      RunInv(run, i - 1, hash);
      var step := RunStep(run, i - 1, hash);
      StepKeeps(run[i - 1], step, hash);
    }
  }

  /**
   * In every run: at most one message per channel and provider message id; messages and their
   * `inbox.message.created` events in one-to-one correspondence; a processed message event has its message stored.
   */
  lemma {:induction false} ExactlyOnce(run: seq<State>, i: nat, hash: LockHash)
    requires IsRun(run, hash) && i < |run|
    ensures MessagesUnique(run[i]) && EventsMatch(run[i])
    ensures forall id | id in run[i].rows && run[i].rows[id].status == Processed && run[i].rows[id].payload.kind == MessageKind ::
              StoredFor(run[i], run[i].rows[id])
  {
    hide IsRun, MessagesUnique, EventsMatch, UniqueEvents, RowsOk, WorkOk, LocksOk, ChecksOk;
    RunInv(run, i, hash);
  }

  /** In every run `attempts` is exactly the number of failures accepted for the event, and within its budget. */
  lemma {:induction false} AttemptsExact(run: seq<State>, i: nat, hash: LockHash, id: string)
    requires IsRun(run, hash) && i < |run| && id in run[i].rows
    ensures var row := run[i].rows[id];
            && row.attempts == FailureCount(run[i], id)
            && row.attempts <= (if row.maxAttempts < 0 then 0 else row.maxAttempts)
            && (row.lease.Held? <==> row.status == Processing)
            && (row.status == DeadLetter ==> row.attempts == row.maxAttempts)
  {
    hide IsRun, UniqueEvents, RowsOk, WorkOk, LocksOk, ChecksOk, MessagesUnique, EventsMatch, FinishedStored, FailureCount;
    RunInv(run, i, hash);
    RowOkAt(run[i], id);
  }

  /** `processed` and `dead_letter` rows never change again. */
  lemma {:induction false} TerminalForever(run: seq<State>, i: nat, j: nat, hash: LockHash, id: string)
    requires IsRun(run, hash) && i <= j < |run| && id in run[i].rows
    requires run[i].rows[id].status == Processed || run[i].rows[id].status == DeadLetter
    ensures id in run[j].rows && run[j].rows[id] == run[i].rows[id]
  {
    hide *;
    if i < j {
      TerminalForever(run, i, j - 1, hash, id);
      RunInv(run, j - 1, hash);
      var step := RunStep(run, j - 1, hash);
      TerminalStays(run[j - 1], step, hash, id);
    }
  }

  /** A taken (tenant, conversation, version) stays taken. */
  lemma {:induction false} TakenForever(run: seq<State>, i: nat, j: nat, hash: LockHash, tenantId: string, conversationId: string, version: int)
    requires IsRun(run, hash) && i <= j < |run| && VersionTaken(run[i], tenantId, conversationId, version)
    ensures VersionTaken(run[j], tenantId, conversationId, version)
  {
    hide IsRun, Apply, Enabled, VersionTaken;
    if i < j {
      TakenForever(run, i, j - 1, hash, tenantId, conversationId, version);
      var step := RunStep(run, j - 1, hash);
      TakenStays(run[j - 1], step, hash, tenantId, conversationId, version);
    }
  }

  lemma TakenStays(s: State, step: Step, hash: LockHash, tenantId: string, conversationId: string, version: int)
    requires Enabled(s, step, hash) && VersionTaken(s, tenantId, conversationId, version)
    ensures VersionTaken(Apply(s, step, hash), tenantId, conversationId, version)
  {
    hide RowsAfter, WorkingAfter, LocksAfter, ConversationsAfter, MessagesAfter, CreatedAfter, IssuedAfter, FailuresAfter, Enabled;
    MessagesGrow(s, step, hash);
    var e :| e in s.created && s.created[e].tenantId == tenantId && s.created[e].conversationId == conversationId
             && s.created[e].version == version;
    assert e in Apply(s, step, hash).created;
  }

  /**
   * Why "every event is eventually stored" is not promised: once a conversation has an event at some timestamp,
   * no transaction that would add a message to that conversation at the same timestamp can ever commit.
   */
  lemma {:induction false} SameTimestampNeverCommits(run: seq<State>, i: nat, j: nat, hash: LockHash, token: string)
    requires IsRun(run, hash) && i <= j < |run|
    requires token in run[j].working && run[j].working[token].stage.Writing?
    requires VersionTaken(run[i], run[j].working[token].row.tenantId, run[j].working[token].stage.insert.conversationId,
                          VersionAt(run[j].working[token].stage.insert.time))
    ensures !Enabled(run[j], Commit(token), hash)
  {
    hide IsRun, VersionTaken;
    var w := run[j].working[token];
    TakenForever(run, i, j, hash, w.row.tenantId, w.stage.insert.conversationId, VersionAt(w.stage.insert.time));
  }

  // ----- lost leases

  lemma StepLosesLease(s: State, step: Step, hash: LockHash, id: string, worker: string, token: string)
    requires Enabled(s, step, hash) && Inv(s, hash) && token in s.issued && !Holds(s.rows, id, worker, token)
    ensures !Holds(Apply(s, step, hash).rows, id, worker, token) && token in Apply(s, step, hash).issued
  {
    hide Apply, UniqueEvents, LocksOk, ChecksOk, MessagesUnique, EventsMatch, FinishedStored, RowStep, IsNext, CountAfter;
    IssuedGrows(s, step, hash);
    StepEffect(s, step, hash, id);
  }

  /** In every run, a lease that a token has lost, or never had, is not held under that token ever after. */
  lemma {:induction false} LostLeaseStaysLost(run: seq<State>, i: nat, j: nat, hash: LockHash, id: string, worker: string,
                                              token: string)
    requires IsRun(run, hash) && i <= j < |run| && token in run[i].issued && !Holds(run[i].rows, id, worker, token)
    ensures !Holds(run[j].rows, id, worker, token) && token in run[j].issued
    decreases j
  {
    hide Inv, Apply, Enabled, Holds, Next, Init;
    if i < j {
      LostLeaseStaysLost(run, i, j - 1, hash, id, worker, token);
      RunInv(run, j - 1, hash);
      var step := RunStep(run, j - 1, hash);
      StepLosesLease(run[j - 1], step, hash, id, worker, token);
    }
  }

  /**
   * A worker that has lost its lease never does anything to the queue again: whatever happens in between, its mark
   * changes no row and counts no failure.
   */
  lemma {:induction false} LostWorkerIsHarmless(run: seq<State>, i: nat, j: nat, hash: LockHash, token: string, step: Step)
    requires IsRun(run, hash) && i <= j < |run| && token in run[i].issued && token in run[j].working
    requires !Holds(run[i].rows, run[j].working[token].eventId, run[j].working[token].worker, token)
    requires Enabled(run[j], step, hash) && (step == MarkProcessed(token) || (step.MarkFailed? && step.token == token))
    ensures var t := Apply(run[j], step, hash);
      t.rows == run[j].rows && t.failures == run[j].failures && t.messages == run[j].messages && t.created == run[j].created
  {
    hide IsRun, Holds, Apply, Enabled;
    var w := run[j].working[token];
    LostLeaseStaysLost(run, i, j, hash, w.eventId, w.worker, token);
    StaleMarkIsRejected(run[j], step, token, hash);
    AppearTogether(run[j], step, hash);
  }

  // ----- events that can never be stored

  /** Every stored message is that of a queued event that the tables accept. */
  ghost predicate Sourced(s: State) { forall m | m in s.messages :: exists id | id in s.rows :: SourceOf(s.messages[m], s.rows[id]) }

  predicate SourceOf(m: Message, row: Row) {
    && row.channelId == m.channelId && row.payload.providerEventId == m.providerMessageId
    && m.body == BodyOf(row.payload) && Acceptable(row.payload)
  }

  /** The insert a transaction has made is that of its event, whose contacts could be read. */
  ghost predicate WritesOk(s: State) {
    forall token | token in s.working && HasLock(s.working[token].stage) ::
      && NameOf(s.working[token].row.payload).Some?
      && (s.working[token].stage.Writing? && s.working[token].row.payload.timestampMs.Some? ==>
            s.working[token].stage.insert.time == s.working[token].row.payload.timestampMs.value)
  }

  lemma KeepWrites(s: State, step: Step, hash: LockHash)
    requires Enabled(s, step, hash) && WorkOk(s) && WritesOk(s)
    ensures WritesOk(Apply(s, step, hash))
  {
    hide RowsAfter, LocksAfter, ConversationsAfter, MessagesAfter, CreatedAfter, IssuedAfter, FailuresAfter, ReceiveAll, Joins,
      StoredFor, Insertable, FailedRows, ProcessedRows, ClaimRows, WorkOk, NameOf;
  }

  lemma RowStays(s: State, step: Step, hash: LockHash, id: string)
    requires Enabled(s, step, hash) && RowsOk(s) && WorkOk(s) && id in s.rows
    ensures id in Apply(s, step, hash).rows && SameEvent(Apply(s, step, hash).rows[id], s.rows[id])
  {
    hide Apply, Enabled, RowsOk, WorkOk;
    StepEffect(s, step, hash, id);
  }

  lemma CommitSource(s: State, token: string, hash: LockHash)
    requires Enabled(s, Commit(token), hash) && WorkOk(s) && WritesOk(s)
    ensures token in s.working && s.working[token].stage.Writing?
    ensures var w := s.working[token];
      var m := Message(w.row.tenantId, w.row.channelId, w.row.payload.providerEventId, w.stage.insert.conversationId,
                       BodyOf(w.row.payload));
      && MessagesAfter(s, Commit(token), hash) == s.messages[w.stage.insert.messageId := m]
      && w.eventId in s.rows && SourceOf(m, s.rows[w.eventId])
  {
    hide NameOf, BodyOf, VersionTaken, Holds;
  }

  lemma KeepSources(s: State, step: Step, hash: LockHash)
    requires Enabled(s, step, hash) && RowsOk(s) && WorkOk(s) && WritesOk(s) && Sourced(s)
    ensures Sourced(Apply(s, step, hash))
  {
    hide RowsAfter, WorkingAfter, LocksAfter, ConversationsAfter, MessagesAfter, CreatedAfter, IssuedAfter, FailuresAfter, Enabled,
      RowsOk, WorkOk, WritesOk, Acceptable, BodyOf;
    var t := Apply(s, step, hash);
    AppearTogether(s, step, hash);
    if step.Commit? { CommitSource(s, step.token, hash); }
    forall m | m in t.messages ensures exists id | id in t.rows :: SourceOf(t.messages[m], t.rows[id]) {
      var id := if m in s.messages && t.messages[m] == s.messages[m]
                then (var k :| k in s.rows && SourceOf(s.messages[m], s.rows[k]); k)
                else s.working[step.token].eventId;
      RowStays(s, step, hash, id);
      assert SourceOf(t.messages[m], t.rows[id]);
    }
  }

  lemma {:induction false} RunSources(run: seq<State>, i: nat, hash: LockHash)
    requires IsRun(run, hash) && i < |run|
    ensures WritesOk(run[i]) && Sourced(run[i])
  {
    hide Inv, Apply, Enabled, Next, WritesOk, Sourced;
    if i == 0 {
      StartSources(run[0]);
    } else {
      RunSources(run, i - 1, hash);
      RunInv(run, i - 1, hash);
      InvLayers(run[i - 1], hash);
      var step := RunStep(run, i - 1, hash);
      KeepWrites(run[i - 1], step, hash);
      KeepSources(run[i - 1], step, hash);
    }
  }

  lemma StartSources(s: State)
    requires Init(s)
    ensures WritesOk(s) && Sourced(s)
  {
  }

  lemma InvLayers(s: State, hash: LockHash)
    requires Inv(s, hash)
    ensures RowsOk(s) && WorkOk(s) && UniqueEvents(s.rows)
  {
    hide RowsOk, WorkOk, UniqueEvents, LocksOk, ChecksOk, MessagesUnique, EventsMatch, FinishedStored;
  }

  /**
   * In every run, a message event with an empty or over-long body, unreadable contacts or a time out of range is never
   * stored and never processed, however often it is delivered and retried.
   */
  lemma {:induction false} UnacceptableNeverStored(run: seq<State>, i: nat, hash: LockHash, id: string)
    requires IsRun(run, hash) && i < |run| && id in run[i].rows && !Acceptable(run[i].rows[id].payload)
    ensures !StoredFor(run[i], run[i].rows[id])
    ensures run[i].rows[id].payload.kind == MessageKind ==> run[i].rows[id].status != Processed
  {
    hide IsRun, Acceptable, BodyOf, RowsOk, WorkOk, LocksOk, ChecksOk, MessagesUnique, EventsMatch, WritesOk;
    RunInv(run, i, hash);
    RunSources(run, i, hash);
    if StoredFor(run[i], run[i].rows[id]) { StoredIsAcceptable(run[i], id); }
  }

  lemma StoredIsAcceptable(s: State, id: string)
    requires UniqueEvents(s.rows) && Sourced(s) && id in s.rows && StoredFor(s, s.rows[id])
    ensures Acceptable(s.rows[id].payload)
  {
    hide Acceptable, BodyOf;
    var m :| m in s.messages && s.messages[m].channelId == s.rows[id].channelId
             && s.messages[m].providerMessageId == s.rows[id].payload.providerEventId;
    var k :| k in s.rows && SourceOf(s.messages[m], s.rows[k]);
    assert k == id;
  }
}
