/**
 * That the inbound workers never block one another for good: every advisory lock has a transaction under way that owns
 * it, that transaction can end at once, and every worker has a next step or waits for one that can end.
 */
module InboundProgress {
  import opened Wrappers
  import opened InboundMessage
  import opened WebhookInbox
  import opened InboundProtocol

  predicate Owns(s: State, token: string, key: int, hash: LockHash) {
    token in s.working && HasLock(s.working[token].stage) && LockOf(s.working[token], hash) == key
  }

  ghost predicate LocksOwned(s: State, hash: LockHash) {
    forall key | key in s.locks :: Owns(s, s.locks[key], key, hash)
  }

  // ----- no lock outlives its transaction

  predicate Ends(step: Step, token: string) {
    step == FindDuplicate(token) || step == Commit(token) || step == Rollback(token) || step == Vanish(token)
  }

  /** A transaction that owns a lock goes on owning it until it ends. */
  lemma OwnerStays(s: State, step: Step, hash: LockHash, token: string)
    requires Enabled(s, step, hash) && !Ends(step, token)
    requires token in s.working && HasLock(s.working[token].stage) && token in s.issued
    ensures token in Apply(s, step, hash).working && HasLock(Apply(s, step, hash).working[token].stage)
    ensures Apply(s, step, hash).working[token].row == s.working[token].row
  {
    hide RowsAfter, LocksAfter, ConversationsAfter, MessagesAfter, CreatedAfter, IssuedAfter, FailuresAfter, ReceiveAll, IsNext,
      Joins, StoredFor, Insertable, FreshIds, ProcessedRows, FailedRows, ClaimRows, NameOf, LockOf, TimeOf;
  }

  lemma EndFrees(s: State, step: Step, hash: LockHash, token: string)
    requires Enabled(s, step, hash) && Ends(step, token) && token in s.working && HasLock(s.working[token].stage)
    ensures LockOf(s.working[token], hash) !in Apply(s, step, hash).locks
  {
    hide RowsAfter, WorkingAfter, ConversationsAfter, MessagesAfter, CreatedAfter, IssuedAfter, FailuresAfter, ReceiveAll, IsNext,
      Joins, StoredFor, Insertable, FreshIds, ProcessedRows, FailedRows, ClaimRows, NameOf, LockOf, TimeOf, HasLock;
  }

  lemma OwnerAfter(s: State, step: Step, hash: LockHash, token: string, key: int)
    requires Enabled(s, step, hash) && WorkOk(s) && Owns(s, token, key, hash) && key in s.locks
    ensures key in Apply(s, step, hash).locks ==> Owns(Apply(s, step, hash), token, key, hash)
  {
    hide Enabled, Apply, HasLock, Ends;
    if Ends(step, token) {
      EndFrees(s, step, hash, token);
    } else {
      OwnerStays(s, step, hash, token);
    }
  }

  lemma KeyAfter(s: State, step: Step, hash: LockHash, key: int)
    requires Enabled(s, step, hash) && key in Apply(s, step, hash).locks
    ensures (key in s.locks && Apply(s, step, hash).locks[key] == s.locks[key])
            || (step.AcquireLock? && Owns(Apply(s, step, hash), step.token, key, hash)
                && Apply(s, step, hash).locks[key] == step.token)
  {
    hide RowsAfter, ConversationsAfter, MessagesAfter, CreatedAfter, IssuedAfter, FailuresAfter, ReceiveAll, IsNext, Joins,
      StoredFor, Insertable, FreshIds, ProcessedRows, FailedRows, ClaimRows, NameOf;
  }

  lemma KeepOwned(s: State, step: Step, hash: LockHash)
    requires Enabled(s, step, hash) && WorkOk(s) && LocksOwned(s, hash)
    ensures LocksOwned(Apply(s, step, hash), hash)
  {
    hide Apply, Enabled, WorkOk, Owns;
    var t := Apply(s, step, hash);
    forall key | key in t.locks ensures Owns(t, t.locks[key], key, hash) {
      KeyAfter(s, step, hash, key);
      if key in s.locks && t.locks[key] == s.locks[key] { OwnerAfter(s, step, hash, s.locks[key], key); }
    }
  }

  lemma {:induction false} RunOwned(run: seq<State>, i: nat, hash: LockHash)
    requires IsRun(run, hash) && i < |run|
    ensures LocksOwned(run[i], hash)
  {
    hide Inv, Apply, Enabled, Next, Owns, WorkOk, RowsOk, UniqueEvents;
    if i > 0 {
      RunOwned(run, i - 1, hash);
      RunInv(run, i - 1, hash);
      InvLayers(run[i - 1], hash);
      var step := RunStep(run, i - 1, hash);
      KeepOwned(run[i - 1], step, hash);
    }
  }

  // ----- what a worker can do next

  /** Some other transaction owns the lock, and however it ends, by itself or by a crash, the lock can be had at once. */
  ghost predicate WaitsForOneThatCanEnd(s: State, token: string, hash: LockHash)
    requires token in s.working
  {
    exists owner :: owner != token && Owns(s, owner, LockOf(s.working[token], hash), hash)
      && CanEnd(s, Rollback(owner), token, hash) && CanEnd(s, Vanish(owner), token, hash)
  }

  ghost predicate CanEnd(s: State, end: Step, token: string, hash: LockHash) {
    Enabled(s, end, hash) && Enabled(Apply(s, end, hash), AcquireLock(token), hash)
  }

  ghost predicate HasRows(s: State, token: string, now: int, hash: LockHash) {
    exists x :: Enabled(s, InsertRows(token, x, now), hash)
  }

  ghost predicate CanGoOn(s: State, token: string, hash: LockHash)
    requires token in s.working
  {
    var w := s.working[token];
    match w.stage
    case Claimed =>
      if w.row.payload.kind != MessageKind then Enabled(s, ProcessOther(token), hash)
      else if w.row.tenantId == "" || NameOf(w.row.payload) == None then Enabled(s, Rollback(token), hash)
      else Enabled(s, AcquireLock(token), hash) || WaitsForOneThatCanEnd(s, token, hash)
    case Locked =>
      if StoredFor(s, w.row) then Enabled(s, FindDuplicate(token), hash) else Enabled(s, FindNoDuplicate(token), hash)
    case Checked => forall now :: HasRows(s, token, now, hash)
    case Writing(_) => Enabled(s, Rollback(token), hash) && (Insertable(s, w) ==> Enabled(s, Commit(token), hash))
    case Finished => Enabled(s, MarkProcessed(token), hash) && Enabled(s, MarkRaises(token), hash)
    case Errored => forall now :: Enabled(s, MarkFailed(token, now), hash)
  }

  lemma OwnerCanEnd(s: State, end: Step, owner: string, token: string, hash: LockHash)
    requires token in s.working && s.working[token].stage == Claimed && s.working[token].row.payload.kind == MessageKind
    requires s.working[token].row.tenantId != "" && NameOf(s.working[token].row.payload).Some?
    requires owner != token && Owns(s, owner, LockOf(s.working[token], hash), hash)
    requires end == Rollback(owner) || end == Vanish(owner)
    ensures CanEnd(s, end, token, hash)
  {
    hide NameOf, RowsAfter, ConversationsAfter, MessagesAfter, CreatedAfter, IssuedAfter, FailuresAfter;
  }

  lemma CanWait(s: State, token: string, hash: LockHash)
    requires LocksOwned(s, hash) && token in s.working && s.working[token].stage == Claimed
    requires s.working[token].row.payload.kind == MessageKind
    requires s.working[token].row.tenantId != "" && NameOf(s.working[token].row.payload).Some?
    ensures Enabled(s, AcquireLock(token), hash) || WaitsForOneThatCanEnd(s, token, hash)
  {
    hide NameOf, CanEnd;
    var key := LockOf(s.working[token], hash);
    if key in s.locks {
      var owner := s.locks[key];
      OwnerCanEnd(s, Rollback(owner), owner, token, hash);
      OwnerCanEnd(s, Vanish(owner), owner, token, hash);
    }
  }

  /** There is always a conversation to join, or one to open. */
  lemma CanInsert(s: State, token: string, hash: LockHash, now: int)
    requires token in s.working && s.working[token].stage == Checked
    ensures HasRows(s, token, now, hash)
  {
    hide PhoneOf;
    var w := s.working[token];
    var wanted := Conversation(w.row.tenantId, w.row.channelId, PhoneOf(w.row.payload), true);
    var time := TimeOf(w.row.payload, now);
    var x := if c :| c in s.conversations && s.conversations[c] == wanted then Insert("", c, false, "", time)
             else Insert("", "", true, "", time);
    assert Enabled(s, InsertRows(token, x, now), hash);
  }

  /**
   * In every run, every worker can go on, or waits for a lock whose owner can end; it can crash at any time, which leaves
   * the tables alone and frees its lock. So no lock is ever left behind and no workers wait for each other.
   */
  lemma {:induction false} NeverStuck(run: seq<State>, i: nat, hash: LockHash, token: string)
    requires IsRun(run, hash) && i < |run| && token in run[i].working
    ensures CanGoOn(run[i], token, hash) && Enabled(run[i], Vanish(token), hash)
    ensures var s, t := run[i], Apply(run[i], Vanish(token), hash);
      t.rows == s.rows && t.messages == s.messages && t.working.Keys == s.working.Keys - {token}
      && forall key | key in t.locks :: t.locks[key] != token
  {
    hide *;
    RunOwned(run, i, hash);
    Leaves(run[i], token, hash);
    GoesOn(run[i], token, hash);
  }

  lemma GoesOn(s: State, token: string, hash: LockHash)
    requires LocksOwned(s, hash) && token in s.working
    ensures CanGoOn(s, token, hash)
  {
    hide CanEnd, NameOf, HasRows, Insertable, StoredFor, LocksOwned;
    match s.working[token].stage
    case Claimed =>
      var row := s.working[token].row;
      if row.payload.kind == MessageKind && row.tenantId != "" && NameOf(row.payload).Some? { CanWait(s, token, hash); }
    case Checked =>
      forall now ensures HasRows(s, token, now, hash) { CanInsert(s, token, hash, now); }
    case _ =>
  }

  lemma Leaves(s: State, token: string, hash: LockHash)
    requires LocksOwned(s, hash) && token in s.working
    ensures Enabled(s, Vanish(token), hash)
    ensures var t := Apply(s, Vanish(token), hash);
      t.rows == s.rows && t.messages == s.messages && t.working.Keys == s.working.Keys - {token}
      && forall key | key in t.locks :: t.locks[key] != token
  {
  }
}
