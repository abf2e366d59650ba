/**
 * One round of a webhook worker (webhook-worker.js) with its inbound transaction (webhook-processor.js), and why it is
 * a run of the protocol's steps whatever others do in between.
 */
module WebhookWorker {
  import opened Wrappers
  import opened Retry
  import opened Leasing
  import opened JsonValue
  import opened InboundMessage
  import opened WebhookInbox
  import opened InboundProtocol

  // ----- runs of steps, and whose they are

  /** The steps lead from one state to the other. */
  predicate Path(s: State, steps: seq<Step>, t: State, hash: LockHash)
    decreases |steps|
  {
    if steps == [] then s == t else Enabled(s, steps[0], hash) && Path(Apply(s, steps[0], hash), steps[1..], t, hash)
  }

  lemma {:induction false} PathConcat(s: State, a: seq<Step>, t: State, b: seq<Step>, u: State, hash: LockHash)
    requires Path(s, a, t, hash) && Path(t, b, u, hash)
    ensures Path(s, a + b, u, hash)
    decreases |a|
  {
    hide Enabled, Apply;
    if a == [] {
      assert a + b == b;
    } else {
      assert (a + b)[1..] == a[1..] + b;
      PathConcat(Apply(s, a[0], hash), a[1..], t, b, u, hash);
    }
  }

  lemma PathPush(s: State, steps: seq<Step>, t: State, step: Step, hash: LockHash)
    requires Path(s, steps, t, hash) && Enabled(t, step, hash)
    ensures Path(s, steps + [step], Apply(t, step, hash), hash)
  {
    hide Enabled, Apply;
    assert [step][1..] == [];
    PathConcat(s, steps, t, [step], Apply(t, step, hash), hash);
  }

  lemma {:induction false} PathKeeps(s: State, steps: seq<Step>, t: State, hash: LockHash)
    requires Path(s, steps, t, hash) && Inv(s, hash)
    ensures Inv(t, hash)
    decreases |steps|
  {
    hide Enabled, Apply, Inv;
    if steps != [] {
      StepKeeps(s, steps[0], hash);
      PathKeeps(Apply(s, steps[0], hash), steps[1..], t, hash);
    }
  }

  /** Whether a step is taken by the worker with this token. */
  predicate By(step: Step, token: string) {
    match step
    case Receive(_, _, _, _, _) => false
    case Claim(_, t, _, _, _) => t == token
    case AcquireLock(t) => t == token
    case FindDuplicate(t) => t == token
    case FindNoDuplicate(t) => t == token
    case InsertRows(t, _, _) => t == token
    case Commit(t) => t == token
    case Rollback(t) => t == token
    case ProcessOther(t) => t == token
    case MarkProcessed(t) => t == token
    case MarkRaises(t) => t == token
    case MarkFailed(t, _) => t == token
    case CloseConversation(_) => false
    case Vanish(t) => t == token
  }

  /** The steps of one worker among all. */
  function Own(steps: seq<Step>, token: string): seq<Step> {
    if steps == [] then [] else OwnOf(steps[0], token) + Own(steps[1..], token)
  }

  function OwnOf(step: Step, token: string): seq<Step> { if By(step, token) then [step] else [] }

  lemma {:induction false} OwnConcat(a: seq<Step>, b: seq<Step>, token: string)
    ensures Own(a + b, token) == Own(a, token) + Own(b, token)
    decreases |a|
  {
    hide OwnOf;
    if a == [] {
      assert a + b == b;
    } else {
      assert (a + b)[0] == a[0] && (a + b)[1..] == a[1..] + b;
      OwnConcat(a[1..], b, token);
    }
  }

  lemma {:induction false} OwnShorter(steps: seq<Step>, token: string)
    ensures |Own(steps, token)| <= |steps|
    decreases |steps|
  {
    hide By;
    if steps != [] { OwnShorter(steps[1..], token); }
  }

  /** Steps that lead from one state to the other, of which the worker's own are those given. */
  predicate Leads(s: State, steps: seq<Step>, t: State, token: string, own: seq<Step>, hash: LockHash) {
    Path(s, steps, t, hash) && Own(steps, token) == own
  }

  lemma LeadsJoin(s: State, a: seq<Step>, t: State, b: seq<Step>, u: State, token: string, ownA: seq<Step>,
                  ownB: seq<Step>, hash: LockHash)
    requires Leads(s, a, t, token, ownA, hash) && Leads(t, b, u, token, ownB, hash)
    ensures Leads(s, a + b, u, token, ownA + ownB, hash)
    ensures |a + b| == |ownA + ownB| ==> |a| == |ownA| && |b| == |ownB|
  {
    hide Path, Own;
    PathConcat(s, a, t, b, u, hash);
    OwnConcat(a, b, token);
    OwnShorter(a, token);
    OwnShorter(b, token);
  }

  lemma OthersStep(s: State, step: Step, token: string, hash: LockHash)
    requires Enabled(s, step, hash) && !By(step, token) && token in s.working
    ensures token in Apply(s, step, hash).working && Apply(s, step, hash).working[token] == s.working[token]
  {
    hide RowsAfter, LocksAfter, ConversationsAfter, MessagesAfter, CreatedAfter, IssuedAfter, FailuresAfter, ReceiveAll, IsNext,
      FreshIds, Joins, Insertable, StoredFor;
  }

  /** Whatever others do, a worker is where it was. */
  lemma {:induction false} OthersKeep(s: State, steps: seq<Step>, t: State, token: string, hash: LockHash)
    requires Path(s, steps, t, hash) && Own(steps, token) == [] && token in s.working
    ensures token in t.working && t.working[token] == s.working[token]
    decreases |steps|
  {
    hide Enabled, Apply, By;
    if steps != [] {
      OthersStep(s, steps[0], token, hash);
      OthersKeep(Apply(s, steps[0], hash), steps[1..], t, token, hash);
    }
  }

  // ----- what each statement does to the state

  predicate SameTables(s: State, t: State) {
    t.conversations == s.conversations && t.messages == s.messages && t.created == s.created
  }

  function KeyOf(row: Row, hash: LockHash): int { hash(row.channelId, row.payload.providerEventId) }

  predicate IsAt(s: State, token: string, stage: Stage) { token in s.working && s.working[token].stage == stage }

  function To(s: State, token: string, stage: Stage): State
    requires token in s.working
  {
    s.(working := Moved(s.working, token, stage))
  }

  lemma Claiming(s: State, claim: Step, hash: LockHash)
    requires claim.Claim? && claim.token !in s.issued && IsNext(s.rows, claim.now, claim.locked, claim.choice)
    ensures Enabled(s, claim, hash) && (claim.choice.Some? ==> claim.choice.value in s.rows)
    ensures var rows := ClaimRows(s.rows, claim.worker, claim.token, claim.now, claim.choice);
      match claim.choice
      case None => Apply(s, claim, hash) == s
      case Some(id) =>
        && id in rows
        && Apply(s, claim, hash)
           == s.(rows := rows, issued := s.issued + {claim.token},
                 working := s.working[claim.token := Work(id, claim.worker, rows[id], Claimed)])
  {
    hide Joins, StoredFor, FreshIds, ReceiveAll, RetryDelay, Insertable;
  }

  lemma Locking(s: State, token: string, hash: LockHash)
    requires IsAt(s, token, Claimed) && KeyOf(s.working[token].row, hash) !in s.locks
    requires var row := s.working[token].row;
      row.payload.kind == MessageKind && row.tenantId != "" && NameOf(row.payload).Some?
    ensures Enabled(s, AcquireLock(token), hash)
    ensures Apply(s, AcquireLock(token), hash)
      == To(s, token, Locked).(locks := s.locks[KeyOf(s.working[token].row, hash) := token])
  {
    hide Joins, StoredFor, FreshIds, ReceiveAll, RetryDelay, Insertable, IsNext, NameOf;
  }

  lemma Looking(s: State, token: string, hash: LockHash)
    requires IsAt(s, token, Locked)
    ensures var row := s.working[token].row;
      if StoredFor(s, row) then
        Enabled(s, FindDuplicate(token), hash)
        && Apply(s, FindDuplicate(token), hash) == To(s, token, Finished).(locks := s.locks - {KeyOf(row, hash)})
      else
        Enabled(s, FindNoDuplicate(token), hash) && Apply(s, FindNoDuplicate(token), hash) == To(s, token, Checked)
  {
    hide Joins, StoredFor, FreshIds, ReceiveAll, RetryDelay, Insertable, IsNext;
  }

  lemma Inserting(s: State, token: string, x: Insert, now: int, hash: LockHash)
    requires IsAt(s, token, Checked) && Joins(s, s.working[token], x)
    requires x.time == TimeOf(s.working[token].row.payload, now)
    ensures Enabled(s, InsertRows(token, x, now), hash)
    ensures Apply(s, InsertRows(token, x, now), hash) == To(s, token, Writing(x))
  {
    hide Joins, StoredFor, FreshIds, ReceiveAll, RetryDelay, Insertable, IsNext, TimeOf;
  }

  /** What committing the rows of a new message makes of the tables. */
  predicate Inserted(s: State, t: State, row: Row, x: Insert) {
    && t.messages
         == s.messages[x.messageId := Message(row.tenantId, row.channelId, row.payload.providerEventId, x.conversationId,
                                              BodyOf(row.payload))]
    && t.created == s.created[x.eventId := Created(row.tenantId, x.conversationId, VersionAt(x.time), x.messageId)]
    && t.conversations
         == if x.opens
            then s.conversations[x.conversationId := Conversation(row.tenantId, row.channelId, PhoneOf(row.payload), true)]
            else s.conversations
  }

  lemma Committing(s: State, token: string, x: Insert, hash: LockHash)
    requires IsAt(s, token, Writing(x)) && Insertable(s, s.working[token])
    ensures Enabled(s, Commit(token), hash)
    ensures var t, row := Apply(s, Commit(token), hash), s.working[token].row;
      && Inserted(s, t, row, x) && StoredFor(t, row)
      && t == To(s, token, Finished).(locks := s.locks - {KeyOf(row, hash)}, conversations := t.conversations,
                                      messages := t.messages, created := t.created)
  {
    hide Joins, FreshIds, ReceiveAll, RetryDelay, Insertable, IsNext, BodyOf, PhoneOf;
    assert x.messageId in Apply(s, Commit(token), hash).messages;
  }

  lemma RollingBack(s: State, token: string, hash: LockHash)
    requires token in s.working && (s.working[token].stage == Claimed || HasLock(s.working[token].stage))
    ensures Enabled(s, Rollback(token), hash)
    ensures Apply(s, Rollback(token), hash) == To(s, token, Errored).(locks := Released(s, token, hash))
  {
    hide Joins, StoredFor, FreshIds, ReceiveAll, RetryDelay, Insertable, IsNext;
  }

  lemma Skipping(s: State, token: string, hash: LockHash)
    requires IsAt(s, token, Claimed) && s.working[token].row.payload.kind != MessageKind
    ensures Enabled(s, ProcessOther(token), hash) && Apply(s, ProcessOther(token), hash) == To(s, token, Finished)
  {
    hide Joins, StoredFor, FreshIds, ReceiveAll, RetryDelay, Insertable, IsNext;
  }

  lemma MarkingProcessed(s: State, token: string, hash: LockHash)
    requires IsAt(s, token, Finished)
    ensures Enabled(s, MarkProcessed(token), hash)
    ensures var w := s.working[token];
      Apply(s, MarkProcessed(token), hash)
      == s.(rows := ProcessedRows(s.rows, w.eventId, w.worker, token), working := s.working - {token})
  {
    hide Joins, StoredFor, FreshIds, ReceiveAll, RetryDelay, Insertable, IsNext, ProcessedRows;
  }

  lemma Raising(s: State, token: string, hash: LockHash)
    requires IsAt(s, token, Finished)
    ensures Enabled(s, MarkRaises(token), hash) && Apply(s, MarkRaises(token), hash) == To(s, token, Errored)
  {
    hide Joins, StoredFor, FreshIds, ReceiveAll, RetryDelay, Insertable, IsNext;
  }

  lemma MarkingFailed(s: State, token: string, later: int, hash: LockHash)
    requires IsAt(s, token, Errored)
    ensures Enabled(s, MarkFailed(token, later), hash)
    ensures var w := s.working[token];
      Apply(s, MarkFailed(token, later), hash)
      == s.(rows := FailedRows(s.rows, w.eventId, w.worker, token, w.row, later), working := s.working - {token},
            failures := FailuresAfter(s, MarkFailed(token, later), hash))
  {
    hide Joins, StoredFor, FreshIds, ReceiveAll, RetryDelay, Insertable, IsNext, FailedRows, FailuresAfter;
  }

  // ----- the server, and one worker's statements

  /** Random UUIDs drawn for one transaction. */
  datatype Draw = Draw(conversationId: string, messageId: string, eventId: string)

  predicate Unused(s: State, d: Draw) {
    d.conversationId !in s.conversations && d.messageId !in s.messages && d.eventId !in s.created
  }

  lemma OwnOne(others: seq<Step>, step: Step, token: string)
    requires Own(others, token) == []
    ensures Own(others + [step], token) == if By(step, token) then [step] else []
  {
    hide By;
    OwnConcat(others, [step], token);
    assert [step][1..] == [];
  }

  /** The tables, the advisory locks, and the other workers. */
  class World {
    const hash: LockHash
    const inbox: Inbox
    var conversations: map<string, Conversation>
    var messages: map<string, Message>
    var created: map<string, Created>
    var working: map<string, Work>
    var locks: map<int, string>
    var issued: set<string>
    var failures: map<string, nat>

    constructor (hash: LockHash, inbox: Inbox)
      ensures this.hash == hash && this.inbox == inbox
      ensures View() == State(inbox.rows, map[], map[], map[], map[], map[], {}, map[])
    {
      this.hash, this.inbox := hash, inbox;
      conversations, messages, created, working, locks, issued, failures := map[], map[], map[], map[], map[], {}, map[];
    }

    function View(): State
      reads this, inbox
    {
      State(inbox.rows, conversations, messages, created, working, locks, issued, failures)
    }

    method Become(t: State)
      modifies this, inbox
      ensures View() == t
    {
      inbox.rows := t.rows;
      conversations, messages, created := t.conversations, t.messages, t.created;
      working, locks, issued, failures := t.working, t.locks, t.issued, t.failures;
    }

    /** Any number of any steps of any others. */
    method Others(token: string) returns (ghost steps: seq<Step>)
      modifies this, inbox
      ensures Path(old(View()), steps, View(), hash) && Own(steps, token) == []
      ensures steps == [] ==> View() == old(View())
      ensures token in old(working) ==> token in working && working[token] == old(working)[token]
    {
      hide Enabled, Apply, By;
      steps := [];
      var n: int := *;
      while n > 0
        invariant Path(old(View()), steps, View(), hash) && Own(steps, token) == []
      {
        var step: Step := *;
        ghost var before := View();
        if Enabled(View(), step, hash) && !By(step, token) {
          Become(Apply(View(), step, hash));
          PathPush(old(View()), steps, before, step, hash);
          OwnOne(steps, step, token);
          steps := steps + [step];
        }
        n := n - 1;
      }
      if token in old(working) { OthersKeep(old(View()), steps, View(), token, hash); }
    }

    /**
     * `pg_advisory_xact_lock`, if it is granted by now; `found` is the state that a statement finds, and `steps` leads
     * from the state before to the state after it.
     */
    method Lock(token: string) returns (granted: bool, ghost steps: seq<Step>, ghost found: State)
      requires IsAt(View(), token, Claimed)
      requires var row := working[token].row;
        row.payload.kind == MessageKind && row.tenantId != "" && NameOf(row.payload).Some?
      modifies this, inbox
      ensures Leads(old(View()), steps, View(), token, if granted then [AcquireLock(token)] else [], hash)
      ensures inbox.rows == found.rows && (|steps| == (if granted then 1 else 0) ==> found == old(View()))
      ensures token in working && SameTables(found, View())
      ensures working[token] == old(working)[token].(stage := if granted then Locked else Claimed)
      ensures !granted ==> KeyOf(working[token].row, hash) in locks
    {
      hide Enabled, Apply, Path, NameOf;
      steps := Others(token);
      found := View();
      var key := KeyOf(working[token].row, hash);
      if key in locks { return false, steps, found; }
      Locking(found, token, hash);
      locks := locks[key := token];
      working := Moved(working, token, Locked);
      PathPush(old(View()), steps, found, AcquireLock(token), hash);
      OwnOne(steps, AcquireLock(token), token);
      return true, steps + [AcquireLock(token)], found;
    }

    /** The search for a duplicate; one that is found ends the transaction. */
    method Look(token: string) returns (duplicate: bool, ghost steps: seq<Step>, ghost found: State)
      requires IsAt(View(), token, Locked)
      modifies this, inbox
      ensures Leads(old(View()), steps, View(), token,
                    [if duplicate then FindDuplicate(token) else FindNoDuplicate(token)], hash)
      ensures inbox.rows == found.rows && (|steps| == 1 ==> found == old(View()))
      ensures token in working && SameTables(found, View()) && duplicate == StoredFor(found, working[token].row)
      ensures working[token] == old(working)[token].(stage := if duplicate then Finished else Checked)
    {
      hide Enabled, Apply, Path;
      steps := Others(token);
      found := View();
      var row := working[token].row;
      Looking(found, token, hash);
      duplicate := exists m | m in messages ::
        messages[m].channelId == row.channelId && messages[m].providerMessageId == row.payload.providerEventId;
      if duplicate { locks := locks - {KeyOf(row, hash)}; }
      working := Moved(working, token, if duplicate then Finished else Checked);
      ghost var step := if duplicate then FindDuplicate(token) else FindNoDuplicate(token);
      PathPush(old(View()), steps, found, step, hash);
      OwnOne(steps, step, token);
      return duplicate, steps + [step], found;
    }

    /** The open conversation the message joins, or a new one, and the rows to insert. */
    method Fill(token: string, draw: Draw, now: int) returns (x: Insert, ghost steps: seq<Step>, ghost found: State)
      requires IsAt(View(), token, Checked)
      modifies this, inbox
      ensures Leads(old(View()), steps, View(), token, [InsertRows(token, x, now)], hash)
      ensures inbox.rows == found.rows && (|steps| == 1 ==> found == old(View()))
      ensures token in working && SameTables(found, View())
      ensures working[token] == old(working)[token].(stage := Writing(x)) && Joins(found, working[token], x)
      ensures x.messageId == draw.messageId && x.eventId == draw.eventId
      ensures x.time == TimeOf(working[token].row.payload, now) && (x.opens ==> x.conversationId == draw.conversationId)
    {
      hide Enabled, Apply, Path;
      steps := Others(token);
      found := View();
      var row := working[token].row;
      var joined := FindOpen(conversations, Conversation(row.tenantId, row.channelId, PhoneOf(row.payload), true));
      x := Insert(draw.messageId, if joined.Some? then joined.value else draw.conversationId, joined.None?, draw.eventId,
                  TimeOf(row.payload, now));
      Inserting(found, token, x, now, hash);
      working := Moved(working, token, Writing(x));
      PathPush(old(View()), steps, found, InsertRows(token, x, now), hash);
      OwnOne(steps, InsertRows(token, x, now), token);
      steps := steps + [InsertRows(token, x, now)];
    }

    /** The end of the transaction: by its commit when no constraint refuses its rows, else by a rollback. */
    method Finish(token: string, x: Insert) returns (ok: bool, ghost steps: seq<Step>, ghost found: State)
      requires IsAt(View(), token, Writing(x))
      modifies this, inbox
      ensures Leads(old(View()), steps, View(), token, [if ok then Commit(token) else Rollback(token)], hash)
      ensures inbox.rows == found.rows && (|steps| == 1 ==> found == old(View()))
      ensures IsAt(found, token, Writing(x)) && found.working[token] == old(working)[token]
      ensures ok == Insertable(found, found.working[token])
      ensures token in working && working[token] == old(working)[token].(stage := if ok then Finished else Errored)
      ensures if ok then Inserted(found, View(), working[token].row, x) && StoredFor(View(), working[token].row)
              else SameTables(found, View())
    {
      hide Enabled, Apply, Path, Insertable, BodyOf, PhoneOf, StoredFor, VersionAt;
      steps := Others(token);
      found := View();
      var row := working[token].row;
      ok := Insertable(View(), working[token]);
      if ok { Committing(found, token, x, hash); } else { RollingBack(found, token, hash); }
      if ok {
        if x.opens {
          conversations := conversations[x.conversationId := Conversation(row.tenantId, row.channelId, PhoneOf(row.payload), true)];
        }
        messages := messages[x.messageId := Message(row.tenantId, row.channelId, row.payload.providerEventId,
                                                    x.conversationId, BodyOf(row.payload))];
        created := created[x.eventId := Created(row.tenantId, x.conversationId, VersionAt(x.time), x.messageId)];
      }
      locks := locks - {KeyOf(row, hash)};
      working := Moved(working, token, if ok then Finished else Errored);
      ghost var step := if ok then Commit(token) else Rollback(token);
      PathPush(old(View()), steps, found, step, hash);
      OwnOne(steps, step, token);
      steps := steps + [step];
    }

    /** `claimNextWebhook`, and what the worker keeps of it. */
    method ClaimOne(worker: string, token: string, locked: set<string>, now: int) returns (choice: Option<string>)
      requires token !in issued
      modifies this, inbox
      ensures IsNext(old(inbox.rows), now, locked, choice)
      ensures var claim := Claim(worker, token, now, locked, choice);
        Enabled(old(View()), claim, hash) && View() == Apply(old(View()), claim, hash)
      ensures inbox.rows == ClaimRows(old(inbox.rows), worker, token, now, choice)
      ensures choice.None? ==> View() == old(View())
      ensures choice.Some? ==>
        && token in working && choice.value in inbox.rows
        && working[token] == Work(choice.value, worker, inbox.rows[choice.value], Claimed)
    {
      hide Enabled, Apply, IsNext, ClaimRows;
      choice := inbox.ClaimNextWebhook(worker, token, now, locked);
      Claiming(old(View()), Claim(worker, token, now, locked, choice), hash);
      if choice.Some? {
        issued := issued + {token};
        working := working[token := Work(choice.value, worker, inbox.rows[choice.value], Claimed)];
      } else {
        ClaimNone(old(inbox.rows), worker, token, now);
      }
    }

    /** An event that is no message. */
    method Skip(token: string) returns (ghost steps: seq<Step>)
      requires IsAt(View(), token, Claimed) && working[token].row.payload.kind != MessageKind
      modifies this, inbox
      ensures Leads(old(View()), steps, View(), token, [ProcessOther(token)], hash)
      ensures token in working && working[token] == old(working)[token].(stage := Finished)
      ensures |steps| == 1 ==> inbox.rows == old(inbox.rows)
    {
      hide Enabled, Apply, Path;
      steps := Others(token);
      ghost var found := View();
      Skipping(found, token, hash);
      working := Moved(working, token, Finished);
      PathPush(old(View()), steps, found, ProcessOther(token), hash);
      OwnOne(steps, ProcessOther(token), token);
      steps := steps + [ProcessOther(token)];
    }

    /** `markWebhookProcessed`. */
    method MarkDone(token: string) returns (accepted: bool, ghost steps: seq<Step>, ghost found: State)
      requires IsAt(View(), token, Finished)
      modifies this, inbox
      ensures Leads(old(View()), steps, View(), token, [MarkProcessed(token)], hash)
      ensures steps != [] && Path(old(View()), steps[..|steps| - 1], found, hash) && (|steps| == 1 ==> found == old(View()))
      ensures token in found.working && found.working[token] == old(working)[token]
      ensures var w := old(working)[token];
        && accepted == Holds(found.rows, w.eventId, w.worker, token)
        && inbox.rows == ProcessedRows(found.rows, w.eventId, w.worker, token)
      ensures SameTables(found, View())
    {
      hide Enabled, Apply, Path, ProcessedRows;
      steps := Others(token);
      found := View();
      MarkingProcessed(found, token, hash);
      var w := working[token];
      accepted := inbox.MarkWebhookProcessed(w.eventId, w.worker, token);
      working := working - {token};
      PathPush(old(View()), steps, found, MarkProcessed(token), hash);
      OwnOne(steps, MarkProcessed(token), token);
      assert (steps + [MarkProcessed(token)])[..|steps|] == steps;
      steps := steps + [MarkProcessed(token)];
    }

    /** Recording the success throws. */
    method Raise(token: string) returns (ghost steps: seq<Step>)
      requires IsAt(View(), token, Finished)
      modifies this, inbox
      ensures Leads(old(View()), steps, View(), token, [MarkRaises(token)], hash)
      ensures token in working && working[token] == old(working)[token].(stage := Errored)
      ensures |steps| == 1 ==> inbox.rows == old(inbox.rows)
    {
      hide Enabled, Apply, Path;
      steps := Others(token);
      ghost var found := View();
      Raising(found, token, hash);
      working := Moved(working, token, Errored);
      PathPush(old(View()), steps, found, MarkRaises(token), hash);
      OwnOne(steps, MarkRaises(token), token);
      steps := steps + [MarkRaises(token)];
    }

    /** `markWebhookFailed`. */
    method MarkError(token: string, later: int) returns (accepted: bool, dead: bool, ghost steps: seq<Step>, ghost found: State)
      requires IsAt(View(), token, Errored)
      modifies this, inbox
      ensures Leads(old(View()), steps, View(), token, [MarkFailed(token, later)], hash)
      ensures steps != [] && Path(old(View()), steps[..|steps| - 1], found, hash) && (|steps| == 1 ==> found == old(View()))
      ensures token in found.working && found.working[token] == old(working)[token]
      ensures var w := old(working)[token];
        && accepted == Holds(found.rows, w.eventId, w.worker, token) && dead == IsDead(w.row)
        && inbox.rows == FailedRows(found.rows, w.eventId, w.worker, token, w.row, later)
      ensures SameTables(found, View())
    {
      hide Enabled, Apply, Path, FailedRows;
      steps := Others(token);
      found := View();
      MarkingFailed(found, token, later, hash);
      var w := working[token];
      failures := FailuresAfter(View(), MarkFailed(token, later), hash);
      accepted, dead := inbox.MarkWebhookFailed(w.eventId, w.worker, token, w.row, later);
      working := working - {token};
      PathPush(old(View()), steps, found, MarkFailed(token, later), hash);
      OwnOne(steps, MarkFailed(token, later), token);
      assert (steps + [MarkFailed(token, later)])[..|steps|] == steps;
      steps := steps + [MarkFailed(token, later)];
    }

    /** An error before the transaction has begun. */
    method Refuse(token: string) returns (ghost steps: seq<Step>)
      requires IsAt(View(), token, Claimed)
      modifies this, inbox
      ensures Leads(old(View()), steps, View(), token, [Rollback(token)], hash)
      ensures token in working && working[token] == old(working)[token].(stage := Errored)
      ensures |steps| == 1 ==> SameTables(old(View()), View()) && inbox.rows == old(inbox.rows)
    {
      hide Enabled, Apply, Path;
      steps := Others(token);
      ghost var found := View();
      RollingBack(found, token, hash);
      working := Moved(working, token, Errored);
      PathPush(old(View()), steps, found, Rollback(token), hash);
      OwnOne(steps, Rollback(token), token);
      steps := steps + [Rollback(token)];
    }
  }

  /** The open conversation a message joins, if there is one. */
  method FindOpen(conversations: map<string, Conversation>, wanted: Conversation) returns (r: Option<string>)
    ensures r.Some? ==> r.value in conversations && conversations[r.value] == wanted
    ensures r.None? ==> forall c | c in conversations :: conversations[c] != wanted
  {
    if c :| c in conversations && conversations[c] == wanted { return Some(c); }
    return None;
  }

  // ----- the inbound transaction

  datatype Progress = Success | Failure | Waiting

  /** What the constraints ask of the rows of a new message, given that the ids drawn are unused. */
  predicate RowsAccepted(s: State, row: Row, conversationId: string, now: int) {
    var time := if row.payload.timestampMs.Some? then row.payload.timestampMs.value else now;
    && (forall e | e in s.created ::
          !(s.created[e].tenantId == row.tenantId && s.created[e].conversationId == conversationId
            && s.created[e].version == if time < 0 then 0 else time))
    && 1 <= |BodyOf(row.payload)| <= 4000 && -210_866_803_200_000 <= time <= 8_640_000_000_000_000
    && (conversationId !in s.conversations ==> NameOf(row.payload).Some? && 1 <= |NameOf(row.payload).value| <= 200)
  }

  /**
   * A message newly stored, field by field: what it says, the conversation of its sender that it is in, and its one
   * event. The conversation is an open one of the same tenant, channel and sender if there is any, and else a new one.
   */
  ghost predicate Recorded(s: State, t: State, row: Row, conversationId: string, draw: Draw, now: int) {
    var time := if row.payload.timestampMs.Some? then row.payload.timestampMs.value else now;
    && draw.messageId in t.messages && conversationId in t.conversations
    && var m, c := t.messages[draw.messageId], t.conversations[conversationId];
       && m.tenantId == c.tenantId == row.tenantId && m.channelId == c.channelId == row.channelId
       && m.providerMessageId == row.payload.providerEventId && m.conversationId == conversationId
       && BodyTells(row.payload.message, m.body)
       && c.isOpen && (forall phone | Get(row.payload.message, "from") == Str(phone) :: c.phone == phone)
       && t.messages == s.messages[draw.messageId := m]
       && t.created == s.created[draw.eventId :=
            Created(row.tenantId, conversationId, if time < 0 then 0 else time, draw.messageId)]
       && if conversationId in s.conversations then t.conversations == s.conversations
          else
            && conversationId == draw.conversationId && t.conversations == s.conversations[conversationId := c]
            && forall k | k in s.conversations :: s.conversations[k] != c
  }

  lemma InsertedIsRecorded(s: State, t: State, w: Work, x: Insert, draw: Draw, now: int)
    requires Inserted(s, t, w.row, x) && Joins(s, w, x) && (x.opens <==> x.conversationId !in s.conversations)
    requires x.messageId == draw.messageId && x.eventId == draw.eventId && x.time == TimeOf(w.row.payload, now)
    requires x.opens ==> x.conversationId == draw.conversationId
    ensures Recorded(s, t, w.row, x.conversationId, draw, now)
  {
    hide BodyOf, PhoneOf, BodyTells;
    BodyTold(w.row.payload);
    PhoneTells(w.row.payload);
  }

  lemma BodyTold(p: Payload)
    ensures BodyTells(p.message, BodyOf(p))
  {
    hide BodyTells, IncomingBody;
    IncomingBodyTells(p.message);
  }

  lemma InsertableIff(s: State, last: State, w: Work, x: Insert, now: int)
    requires w.stage == Writing(x) && x.time == TimeOf(w.row.payload, now) && SameTables(s, last) && Joins(s, w, x)
    requires x.messageId !in s.messages && x.eventId !in s.created && (x.opens ==> x.conversationId !in s.conversations)
    ensures Insertable(last, w) <==> RowsAccepted(s, w.row, x.conversationId, now)
    ensures x.opens <==> x.conversationId !in s.conversations
  {
    hide NameOf, BodyOf;
    LimitsTell(w.row.payload, x.time);
  }

  lemma JoinsStill(s: State, t: State, w: Work, x: Insert)
    requires Joins(s, w, x)
    ensures SameTables(s, t) ==> Joins(t, w, x)
  {
  }

  lemma InsertedSame(s: State, t: State, u: State, row: Row, x: Insert)
    requires SameTables(s, t)
    ensures Inserted(s, u, row, x) <==> Inserted(t, u, row, x)
  {
  }

  lemma SameStored(s: State, t: State, row: Row)
    requires SameTables(s, t)
    ensures StoredFor(s, row) <==> StoredFor(t, row)
  {
  }

  /** Reading the event throws before the transaction begins. */
  predicate Unreadable(row: Row) { row.tenantId == "" || NameOf(row.payload).None? }

  /** The insertion of the rows and the end of the transaction. */
  method Store(world: World, token: string, draw: Draw, now: int)
    returns (ok: bool, x: Insert, ghost steps: seq<Step>, ghost last: State)
    requires IsAt(world.View(), token, Checked)
    modifies world, world.inbox
    ensures Leads(old(world.View()), steps, world.View(), token,
                  [InsertRows(token, x, now), if ok then Commit(token) else Rollback(token)], world.hash)
    ensures token in world.working && world.working[token]
      == old(world.working)[token].(stage := if ok then Finished else Errored)
    ensures IsAt(last, token, Writing(x)) && ok == Insertable(last, last.working[token])
    ensures ok ==> StoredFor(world.View(), world.working[token].row)
    ensures !ok ==> SameTables(last, world.View())
    ensures |steps| == 2 ==> world.inbox.rows == old(world.inbox.rows)
    ensures |steps| == 2 && Unused(old(world.View()), draw) ==>
      var s, row := old(world.View()), world.working[token].row;
      && ok == RowsAccepted(s, row, x.conversationId, now) && (!ok ==> SameTables(s, world.View()))
      && (ok ==> Inserted(s, world.View(), row, x) && Recorded(s, world.View(), row, x.conversationId, draw, now)
                 && x == Insert(draw.messageId, x.conversationId, x.conversationId !in s.conversations, draw.eventId,
                                TimeOf(row.payload, now)))
  {
    hide Path, Own, Leads, Insertable, RowsAccepted, Inserted, Recorded, TimeOf, Joins, StoredFor;
    ghost var s := world.View();
    ghost var found, more;
    x, steps, found := world.Fill(token, draw, now);
    ghost var s1 := world.View();
    ghost var w := world.working[token];
    ok, more, last := world.Finish(token, x);
    ghost var end := if ok then Commit(token) else Rollback(token);
    LeadsJoin(s, steps, s1, more, world.View(), token, [InsertRows(token, x, now)], [end], world.hash);
    assert [InsertRows(token, x, now)] + [end] == [InsertRows(token, x, now), end];
    if |steps + more| == 2 && Unused(s, draw) {
      JoinsStill(found, s, w, x);
      InsertableIff(s, last, w, x, now);
      InsertedSame(last, s, world.View(), w.row, x);
      if ok { InsertedIsRecorded(s, world.View(), w, x, draw, now); }
    }
    steps := steps + more;
  }

  /** The advisory lock and the search for a duplicate. */
  method Search(world: World, token: string)
    returns (granted: bool, duplicate: bool, ghost steps: seq<Step>, ghost checked: State)
    requires IsAt(world.View(), token, Claimed)
    requires var row := world.working[token].row; row.payload.kind == MessageKind && !Unreadable(row)
    modifies world, world.inbox
    ensures Leads(old(world.View()), steps, world.View(), token,
                  if !granted then [] else [AcquireLock(token), if duplicate then FindDuplicate(token) else FindNoDuplicate(token)],
                  world.hash)
    ensures token in world.working && world.working[token]
      == old(world.working)[token].(stage := if !granted then Claimed else if duplicate then Finished else Checked)
    ensures !granted ==> KeyOf(world.working[token].row, world.hash) in world.locks
    ensures granted ==> SameTables(checked, world.View()) && duplicate == StoredFor(checked, world.working[token].row)
    ensures granted && |steps| == 2 ==> SameTables(old(world.View()), checked) && world.inbox.rows == old(world.inbox.rows)
  {
    hide Path, Own, Leads, StoredFor, NameOf;
    ghost var s := world.View();
    ghost var found, more;
    duplicate, checked := false, s;
    granted, steps, found := world.Lock(token);
    if !granted { return granted, duplicate, steps, checked; }
    ghost var s1 := world.View();
    duplicate, more, checked := world.Look(token);
    ghost var look := if duplicate then FindDuplicate(token) else FindNoDuplicate(token);
    LeadsJoin(s, steps, s1, more, world.View(), token, [AcquireLock(token)], [look], world.hash);
    assert [AcquireLock(token)] + [look] == [AcquireLock(token), look];
    steps := steps + more;
  }

  /** The worker's own steps, given what its search for a duplicate and its end came to. */
  function OwnSteps(token: string, row: Row, stored: bool, x: Insert, now: int, ok: bool): seq<Step> {
    if Unreadable(row) then [Rollback(token)]
    else if stored then [AcquireLock(token), FindDuplicate(token)]
    else
      [AcquireLock(token), FindNoDuplicate(token)]
      + [InsertRows(token, x, now), if ok then Commit(token) else Rollback(token)]
  }

  /**
   * `processInbound`, with any steps of any others between its statements; `Waiting` means that the advisory lock has
   * not been granted yet. `checked` is the state its search for a duplicate finds, `last` the one its end finds.
   * It succeeds exactly when the event is readable and is found to be stored already or no constraint refuses its rows
   * at the end. Undisturbed, that is: exactly when no event of the conversation has the message's time for its version,
   * body and contact name have acceptable lengths, and the time is in range.
   */
  method ProcessInbound(world: World, token: string, draw: Draw, now: int)
    returns (r: Progress, x: Insert, ghost steps: seq<Step>, ghost checked: State, ghost last: State)
    requires IsAt(world.View(), token, Claimed) && world.working[token].row.payload.kind == MessageKind
    modifies world, world.inbox
    ensures var row := old(world.working)[token].row;
      Leads(old(world.View()), steps, world.View(), token,
            if r == Waiting then [] else OwnSteps(token, row, StoredFor(checked, row), x, now, r == Success), world.hash)
    ensures token in world.working && world.working[token]
      == old(world.working)[token].(stage := match r case Success => Finished case Failure => Errored case Waiting => Claimed)
    ensures r == Waiting ==> KeyOf(world.working[token].row, world.hash) in world.locks
    ensures r != Waiting ==>
      var row := world.working[token].row;
      && (!Unreadable(row) && !StoredFor(checked, row) ==> IsAt(last, token, Writing(x)))
      && (r == Success <==> !Unreadable(row) && (StoredFor(checked, row) || Insertable(last, last.working[token])))
      && (r == Success ==> StoredFor(world.View(), row))
      && (r == Failure && !Unreadable(row) ==> SameTables(last, world.View()))
    ensures r != Waiting ==>
      var row := old(world.working)[token].row;
      |steps| == |OwnSteps(token, row, StoredFor(checked, row), x, now, r == Success)| ==>
        world.inbox.rows == old(world.inbox.rows)
    ensures var s, row := old(world.View()), old(world.working)[token].row;
      r != Waiting && |steps| == |OwnSteps(token, row, StoredFor(checked, row), x, now, r == Success)| && Unused(s, draw) ==>
        && (r == Success <==> !Unreadable(row) && (StoredFor(s, row) || RowsAccepted(s, row, x.conversationId, now)))
        && (r == Failure || StoredFor(s, row) ==> SameTables(s, world.View()))
        && (r == Success && !StoredFor(s, row) ==>
              && Inserted(s, world.View(), row, x) && Recorded(s, world.View(), row, x.conversationId, draw, now)
              && x == Insert(draw.messageId, x.conversationId, x.conversationId !in s.conversations, draw.eventId,
                             TimeOf(row.payload, now)))
  {
    hide Path, Own, Leads, NameOf, Insertable, RowsAccepted, Inserted, Recorded, TimeOf, StoredFor;
    var row := world.working[token].row;
    ghost var s := world.View();
    checked, last, x := s, s, Insert("", "", false, "", 0);
    if row.tenantId == "" || NameOf(row.payload).None? {
      steps := world.Refuse(token);
      return Failure, x, steps, checked, last;
    }
    var granted, duplicate;
    granted, duplicate, steps, checked := Search(world, token);
    if !granted { return Waiting, x, steps, checked, last; }
    ghost var s1 := world.View();
    SameStored(checked, s1, row);
    if duplicate {
      if |steps| == 2 { SameStored(s, checked, row); }
      return Success, x, steps, checked, last;
    }
    var ok;
    ghost var more;
    ok, x, more, last := Store(world, token, draw, now);
    ghost var end := if ok then Commit(token) else Rollback(token);
    LeadsJoin(s, steps, s1, more, world.View(), token, [AcquireLock(token), FindNoDuplicate(token)],
              [InsertRows(token, x, now), end], world.hash);
    if |steps| == 2 {
      SameStored(s, checked, row);
      AcceptedSame(s, s1, row, x, now, world.View());
    }
    return if ok then Success else Failure, x, steps + more, checked, last;
  }

  lemma AcceptedSame(s: State, t: State, row: Row, x: Insert, now: int, u: State)
    requires SameTables(s, t)
    ensures RowsAccepted(s, row, x.conversationId, now) <==> RowsAccepted(t, row, x.conversationId, now)
    ensures Inserted(s, u, row, x) <==> Inserted(t, u, row, x)
    ensures forall draw :: Recorded(s, u, row, x.conversationId, draw, now) <==> Recorded(t, u, row, x.conversationId, draw, now)
  {
    hide BodyOf, NameOf, BodyTells;
  }

  // ----- the round

  lemma ClaimNone(rows: map<string, Row>, worker: string, token: string, now: int)
    ensures ClaimRows(rows, worker, token, now, None) == rows
  {
  }

  /** What a round came to: nothing to do, still waiting for the advisory lock, or a report. */
  datatype Report = Idle | Blocked(id: string) | Report(id: string, status: string)

  /** The row at the end of a round whose lease was still held. */
  predicate Ended(before: Row, after: Row, status: string, later: int) {
    && after.lease == Free && after.payload == before.payload && after.maxAttempts == before.maxAttempts
    && if status == "processed" then after.status == Processed && after.attempts == before.attempts
       else
         && after.attempts == before.attempts + 1 <= before.maxAttempts
         && after.availableAt == later + RetryDelay(after.attempts)
         && (if after.attempts == before.maxAttempts then status == "dead_letter" && after.status == DeadLetter
             else status == "retrying" && after.status == Failed)
  }

  function Reported(w: Work, ok: bool): string {
    if ok then "processed" else if IsDead(w.row) then "dead_letter" else "retrying"
  }

  function MarkedRows(s: State, w: Work, token: string, later: int, ok: bool): map<string, Row> {
    if ok then ProcessedRows(s.rows, w.eventId, w.worker, token)
    else FailedRows(s.rows, w.eventId, w.worker, token, w.row, later)
  }

  /** Under the lease the row ends as reported and no other row changes; without it nothing changes. */
  lemma MarkedEnds(s: State, token: string, later: int, ok: bool, hash: LockHash)
    requires Inv(s, hash) && token in s.working
    ensures var w := s.working[token];
      var rows := MarkedRows(s, w, token, later, ok);
      if Holds(s.rows, w.eventId, w.worker, token)
      then OnlyChanges(s.rows, rows, w.eventId) && Ended(s.rows[w.eventId], rows[w.eventId], Reported(w, ok), later)
      else rows == s.rows
  {
    hide RetryDelay, UniqueEvents, LocksOk, ChecksOk, MessagesUnique, EventsMatch, FinishedStored;
    var w := s.working[token];
    if Holds(s.rows, w.eventId, w.worker, token) { assert RowOk(s.rows[w.eventId]); }
  }

  lemma LeadsInv(s: State, steps: seq<Step>, t: State, token: string, own: seq<Step>, hash: LockHash)
    requires Leads(s, steps, t, token, own, hash) && Inv(s, hash)
    ensures Inv(t, hash)
  {
    hide Inv, Path;
    PathKeeps(s, steps, t, hash);
  }

  lemma LeadsNothing(s: State, token: string, hash: LockHash)
    ensures Leads(s, [], s, token, [], hash)
  {
  }

  /** The last statement of a round, or the last two when recording the success throws. */
  method MarkEnd(world: World, token: string, later: int, raises: bool)
    returns (status: string, ghost steps: seq<Step>, ghost own: seq<Step>, ghost last: State)
    requires token in world.working && (world.working[token].stage == Finished || world.working[token].stage == Errored)
    requires Inv(world.View(), world.hash)
    modifies world, world.inbox
    ensures Leads(old(world.View()), steps, world.View(), token, own, world.hash) && Inv(world.View(), world.hash)
    ensures SameTables(last, world.View())
    ensures var w := old(world.working)[token];
      if Holds(last.rows, w.eventId, w.worker, token) then
        && OnlyChanges(last.rows, world.inbox.rows, w.eventId)
        && Ended(last.rows[w.eventId], world.inbox.rows[w.eventId], status, later)
        && (status == "processed" <==> w.stage == Finished && !raises) && status != "lease_lost"
      else status == "lease_lost" && world.inbox.rows == last.rows
    ensures |steps| == |own| ==> last.rows == old(world.inbox.rows)
  {
    hide Leads, Inv, OnlyChanges, Ended, Holds, ProcessedRows, FailedRows, Path;
    ghost var s := world.View();
    var w := world.working[token];
    var accepted, dead;
    ghost var more;
    if w.stage == Finished && !raises {
      accepted, steps, last := world.MarkDone(token);
      own := [MarkProcessed(token)];
      LeadsInv(s, steps, world.View(), token, own, world.hash);
      PathKeeps(s, steps[..|steps| - 1], last, world.hash);
      MarkedEnds(last, token, later, true, world.hash);
      return if accepted then "processed" else "lease_lost", steps, own, last;
    }
    steps, own := [], [];
    if w.stage == Finished {
      steps := world.Raise(token);
      own := [MarkRaises(token)];
    } else {
      LeadsNothing(s, token, world.hash);
    }
    ghost var s1 := world.View();
    LeadsInv(s, steps, s1, token, own, world.hash);
    accepted, dead, more, last := world.MarkError(token, later);
    LeadsJoin(s, steps, s1, more, world.View(), token, own, [MarkFailed(token, later)], world.hash);
    LeadsInv(s1, more, world.View(), token, [MarkFailed(token, later)], world.hash);
    PathKeeps(s1, more[..|more| - 1], last, world.hash);
    MarkedEnds(last, token, later, false, world.hash);
    steps, own := steps + more, own + [MarkFailed(token, later)];
    return if !accepted then "lease_lost" else if dead then "dead_letter" else "retrying", steps, own, last;
  }

  /**
   * `processOneWebhook`, with any steps of any others between its statements; `raises` tells whether recording a
   * success throws. Together with theirs its statements are steps of the protocol. Its report is always true: a lost
   * lease is reported as such and then no row changes by its mark, and otherwise the row ends as reported; a message
   * event that is reported as processed has its message stored.
   */
  method ProcessOneWebhook(world: World, worker: string, token: string, locked: set<string>, draw: Draw, now: int,
                           later: int, raises: bool)
    returns (report: Report, ghost steps: seq<Step>, ghost own: seq<Step>, ghost last: State)
    requires Inv(world.View(), world.hash) && token !in world.issued
    modifies world, world.inbox
    ensures Leads(old(world.View()), steps, world.View(), token, own, world.hash) && Inv(world.View(), world.hash)
    ensures IsNext(old(world.inbox.rows), now, locked, if report.Idle? then None else Some(report.id))
    ensures report.Idle? ==> world.View() == old(world.View())
    ensures report.Report? ==>
      if report.status == "lease_lost" then !Holds(last.rows, report.id, worker, token) && world.inbox.rows == last.rows
      else
        && Holds(last.rows, report.id, worker, token) && OnlyChanges(last.rows, world.inbox.rows, report.id)
        && Ended(last.rows[report.id], world.inbox.rows[report.id], report.status, later)
        && (report.status == "processed" && world.inbox.rows[report.id].payload.kind == MessageKind ==>
              StoredFor(world.View(), world.inbox.rows[report.id]))
    ensures report.Report? && |steps| == |own| ==>
      var was := old(world.inbox.rows);
      && report.status != "lease_lost" && report.id in was && OnlyChanges(was, world.inbox.rows, report.id)
      && Ended(was[report.id], world.inbox.rows[report.id], report.status, later)
  {
    hide Leads, Inv, OnlyChanges, Ended, Holds, IsNext, ClaimRows, StoredFor, Enabled, Apply, Path, OwnSteps, Unused, Insertable,
      RowsAccepted, Inserted, Recorded, Unreadable;
    ghost var s := world.View();
    last := s;
    var choice := world.ClaimOne(worker, token, locked, now);
    if choice.None? {
      LeadsNothing(s, token, world.hash);
      return Idle, [], [], last;
    }
    var id := choice.value;
    ghost var claim := Claim(worker, token, now, locked, choice);
    ghost var s1 := world.View();
    LeadsClaim(s, claim, world.hash);
    var row := world.working[token].row;
    var r, x := Success, Insert("", "", false, "", 0);
    ghost var middle, mine, checked, end;
    if row.payload.kind == MessageKind {
      r, x, middle, checked, end := ProcessInbound(world, token, draw, now);
      mine := if r == Waiting then [] else OwnSteps(token, row, StoredFor(checked, row), x, now, r == Success);
    } else {
      middle := world.Skip(token);
      mine := [ProcessOther(token)];
    }
    ghost var s2 := world.View();
    LeadsJoin(s, [claim], s1, middle, s2, token, [claim], mine, world.hash);
    LeadsInv(s, [claim] + middle, s2, token, [claim] + mine, world.hash);
    if r == Waiting { return Blocked(id), [claim] + middle, [claim] + mine, last; }
    var status;
    ghost var more, marks;
    status, more, marks, last := MarkEnd(world, token, later, raises);
    LeadsJoin(s, [claim] + middle, s2, more, world.View(), token, [claim] + mine, marks, world.hash);
    steps, own := [claim] + middle + more, [claim] + mine + marks;
    ProcessedStored(world.View(), id, world.hash);
    EndedProcessed(world.View(), last, id, status, later);
    HeldRow(last, id, worker, token);
    if |steps| == |own| {
      ClaimedRows(s.rows, worker, token, now, locked, id, world.inbox.rows, status, later);
    }
    return Report(id, status), steps, own, last;
  }

  lemma LeadsClaim(s: State, claim: Step, hash: LockHash)
    requires claim.Claim? && Enabled(s, claim, hash)
    ensures Leads(s, [claim], Apply(s, claim, hash), claim.token, [claim], hash)
  {
    hide Enabled, Apply;
    PathPush(s, [], s, claim, hash);
    OwnOne([], claim, claim.token);
    assert [] + [claim] == [claim];
  }

  lemma ProcessedStored(s: State, id: string, hash: LockHash)
    requires Inv(s, hash)
    ensures id in s.rows && s.rows[id].status == Processed && s.rows[id].payload.kind == MessageKind ==> StoredFor(s, s.rows[id])
  {
    hide UniqueEvents, RowsOk, WorkOk, LocksOk, ChecksOk, MessagesUnique, EventsMatch, StoredFor;
  }

  lemma EndedProcessed(s: State, last: State, id: string, status: string, later: int)
    ensures OnlyChanges(last.rows, s.rows, id) && id in last.rows && Ended(last.rows[id], s.rows[id], status, later) ==>
      id in s.rows && (status == "processed" ==> s.rows[id].status == Processed)
  {
  }

  lemma HeldRow(s: State, id: string, worker: string, token: string)
    ensures Holds(s.rows, id, worker, token) ==> id in s.rows
  {
  }

  lemma ClaimedRows(rows: map<string, Row>, worker: string, token: string, now: int, locked: set<string>, id: string,
                    after: map<string, Row>, status: string, later: int)
    requires IsNext(rows, now, locked, Some(id))
    ensures id in rows
    ensures var claimed := ClaimRows(rows, worker, token, now, Some(id));
      && id in claimed && Holds(claimed, id, worker, token)
      && (OnlyChanges(claimed, after, id) && Ended(claimed[id], after[id], status, later) ==>
            OnlyChanges(rows, after, id) && Ended(rows[id], after[id], status, later))
  {
    hide RetryDelay, Claimable;
  }
}
