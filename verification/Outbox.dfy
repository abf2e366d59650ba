/**
 * The outbound queue (outbox.js) and the workers that drain it (outbox-worker.js). Every SQL statement is one
 * atomic step on the tables; workers, crashes, lease expiry and the clock interleave freely.
 */
module Outbox {
  import opened Wrappers
  import opened Retry
  import opened Leasing

  datatype Status = Pending | Processing | Sent | Failed | DeadLetter | DeliveryUnknown

  datatype Lease = Free | Held(worker: string, token: string, lockedAt: int)

  datatype Job = Job(tenantId: string, kind: string, key: string, status: Status, attempts: int, maxAttempts: int,
                     availableAt: int, createdAt: int, lease: Lease, providerMessageId: Option<string>)

  datatype Message = Message(tenantId: string, providerMessageId: Option<string>, deliveryStatus: string)

  /** `outbox_jobs`, `conversation_messages` and `failed_jobs`, each by primary (or unique) key. */
  datatype Tables = Tables(jobs: map<string, Job>, messages: map<string, Message>, failedJobs: set<string>)

  // ----- failures and retries

  /** The HTTP status an error carries, if any. */
  datatype SendError = SendError(status: Option<int>)

  predicate Terminal(e: SendError) {
    e.status.Some? && 400 <= e.status.value < 500 && e.status.value !in {408, 409, 425, 429}
  }

  // ----- the statements

  predicate Expired(job: Job, now: int) {
    job.status == Processing && job.lease.Held? && job.lease.lockedAt < now - LEASE_MS
  }

  /** The outcome of a lapsed delivery is unknown, so the job is parked and not tried again. */
  function Park(job: Job): Job { job.(status := DeliveryUnknown, lease := Free) }

  function ParkExpired(jobs: map<string, Job>, now: int): map<string, Job> {
    map id | id in jobs :: if Expired(jobs[id], now) then Park(jobs[id]) else jobs[id]
  }

  predicate Claimable(job: Job, now: int) {
    (job.status == Pending || job.status == Failed) && job.availableAt <= now && job.attempts < job.maxAttempts
  }

  predicate Sooner(a: Job, b: Job) {
    a.availableAt < b.availableAt || (a.availableAt == b.availableAt && a.createdAt < b.createdAt)
  }

  /** `order by available_at, created_at for update skip locked limit 1`. */
  predicate IsNext(jobs: map<string, Job>, now: int, locked: set<string>, choice: Option<string>) {
    match choice
    case None => forall id | id in jobs && id !in locked :: !Claimable(jobs[id], now)
    case Some(id) =>
      && id in jobs && id !in locked && Claimable(jobs[id], now)
      && forall other | other in jobs && other !in locked && Claimable(jobs[other], now) :: !Sooner(jobs[other], jobs[id])
  }

  /** The rows a claim may take, with what they are ordered by. */
  function Candidates(jobs: map<string, Job>, now: int, locked: set<string>): (r: map<string, (int, int)>)
    ensures forall id :: id in r <==> id in jobs && id !in locked && Claimable(jobs[id], now)
    ensures forall id | id in r :: r[id] == (jobs[id].availableAt, jobs[id].createdAt)
  {
    map id | id in jobs && id !in locked && Claimable(jobs[id], now) :: (jobs[id].availableAt, jobs[id].createdAt)
  }

  lemma EarliestIsNext(jobs: map<string, Job>, now: int, locked: set<string>, choice: Option<string>)
    requires choice.None? <==> Candidates(jobs, now, locked) == map[]
    requires choice.Some? ==> choice.value in Candidates(jobs, now, locked)
    requires choice.Some? ==> forall id | id in Candidates(jobs, now, locked) ::
      !Earlier(Candidates(jobs, now, locked)[id], Candidates(jobs, now, locked)[choice.value])
    ensures IsNext(jobs, now, locked, choice)
  {
    var candidates := Candidates(jobs, now, locked);
    forall id | id in jobs && id !in locked && Claimable(jobs[id], now)
      ensures choice.Some? && !Sooner(jobs[id], jobs[choice.value])
    {
      assert id in candidates;
    }
  }

  function Leased(job: Job, worker: string, token: string, now: int): Job {
    job.(status := Processing, lease := Held(worker, token, now))
  }

  function ClaimJobs(jobs: map<string, Job>, worker: string, token: string, now: int, choice: Option<string>): map<string, Job>
    requires choice.Some? ==> choice.value in jobs
  {
    match choice
    case None => ParkExpired(jobs, now)
    case Some(id) => ParkExpired(jobs, now)[id := Leased(jobs[id], worker, token, now)]
  }

  /** The guard of every completion: the row is still processing under this worker's lease. */
  predicate Holds(jobs: map<string, Job>, id: string, worker: string, token: string) {
    && id in jobs && jobs[id].status == Processing
    && jobs[id].lease.Held? && jobs[id].lease.worker == worker && jobs[id].lease.token == token
  }

  lemma HoldsTells(jobs: map<string, Job>, id: string, worker: string, token: string)
    ensures Holds(jobs, id, worker, token) <==>
      id in jobs && jobs[id].status == Processing && exists at :: jobs[id].lease == Held(worker, token, at)
  {
  }

  function Linked(t: Tables, job: Job): Option<string> {
    if job.key in t.messages && t.messages[job.key].tenantId == job.tenantId then Some(job.key) else None
  }

  function DeliverTables(t: Tables, id: string, worker: string, token: string, providerMessageId: string): Tables {
    if !Holds(t.jobs, id, worker, token) then t
    else
      var job := t.jobs[id];
      var marked := t.(jobs := t.jobs[id := job.(status := Sent, providerMessageId := Some(providerMessageId), lease := Free)]);
      match Linked(t, job)
      case None => marked
      case Some(m) =>
        marked.(messages := t.messages[m := t.messages[m].(providerMessageId := Some(providerMessageId), deliveryStatus := "sent")])
  }

  /** `claimed` is the row as the worker received it; only its attempt counters matter here. */
  predicate IsDead(claimed: Job, e: SendError) { Terminal(e) || claimed.attempts + 1 >= claimed.maxAttempts }

  function FailTables(t: Tables, id: string, worker: string, token: string, claimed: Job, e: SendError, now: int): Tables {
    if !Holds(t.jobs, id, worker, token) then t
    else
      var job := t.jobs[id].(attempts := claimed.attempts + 1, lease := Free);
      if IsDead(claimed, e) then
        var buried := t.(jobs := t.jobs[id := job.(status := DeadLetter)], failedJobs := t.failedJobs + {id});
        match Linked(t, job)
        case None => buried
        case Some(m) => buried.(messages := t.messages[m := t.messages[m].(deliveryStatus := "failed")])
      else
        t.(jobs := t.jobs[id := job.(status := Failed, availableAt := now + RetryDelay(claimed.attempts + 1))])
  }

  predicate Enqueueable(jobs: map<string, Job>, id: string, tenantId: string, kind: string, key: string) {
    kind in {"text", "template"} && tenantId != "" && id !in jobs && forall other | other in jobs :: jobs[other].key != key
  }

  function NewJob(tenantId: string, kind: string, key: string, maxAttempts: int, now: int): Job {
    Job(tenantId, kind, key, Pending, 0, maxAttempts, now, now, Free, None)
  }

  /** The tables behind the exported functions of outbox.js. */
  class Store {
    var tables: Tables

    constructor (messages: map<string, Message>)
      ensures tables == Tables(map[], messages, {})
    {
      tables := Tables(map[], messages, {});
    }

    /** A repeated idempotency key finds the job already there and changes nothing. */
    method Enqueue(id: string, tenantId: string, kind: string, key: string, maxAttempts: int, now: int) returns (found: Option<string>)
      modifies this
      ensures old(Enqueueable(tables.jobs, id, tenantId, kind, key)) ==>
                && tables == old(tables).(jobs := old(tables).jobs[id := NewJob(tenantId, kind, key, maxAttempts, now)])
                && found == Some(id)
      ensures !old(Enqueueable(tables.jobs, id, tenantId, kind, key)) ==> unchanged(this)
      ensures found.Some? ==> found.value in tables.jobs && tables.jobs[found.value].key == key
      ensures (kind == "text" || kind == "template") && tenantId != "" ==>
        && ((exists other :: other in old(tables).jobs && old(tables).jobs[other].key == key) ==> found.Some? && unchanged(this))
        && ((forall other | other in old(tables).jobs :: old(tables).jobs[other].key != key) && id !in old(tables).jobs ==>
              && found == Some(id)
              && tables == old(tables).(jobs := old(tables).jobs[id :=
                   Job(tenantId, kind, key, Pending, 0, maxAttempts, now, now, Free, None)]))
      ensures !(kind == "text" || kind == "template") || tenantId == "" ==> found == None && unchanged(this)
    {
      if kind !in {"text", "template"} || tenantId == "" { return None; }
      if other :| other in tables.jobs && tables.jobs[other].key == key { return Some(other); }
      if id in tables.jobs { return None; }
      tables := tables.(jobs := tables.jobs[id := NewJob(tenantId, kind, key, maxAttempts, now)]);
      return Some(id);
    }

    /**
     * One statement parks every lease older than two minutes and leases the next job; `locked` are the rows other
     * statements hold at this moment.
     */
    method ClaimNextJob(worker: string, token: string, now: int, locked: set<string>) returns (choice: Option<string>)
      modifies this
      ensures tables.jobs.Keys == old(tables.jobs).Keys
      ensures tables.messages == old(tables.messages) && tables.failedJobs == old(tables.failedJobs)
      ensures forall id | id in old(tables.jobs) && choice != Some(id) ::
        var was := old(tables.jobs)[id];
        tables.jobs[id] == if was.status == Processing && was.lease.Held? && was.lease.lockedAt < now - 120_000
                           then was.(status := DeliveryUnknown, lease := Free) else was
      ensures choice.Some? ==> choice.value in old(tables.jobs) && choice.value !in locked
      ensures choice.Some? ==>
        var was := old(tables.jobs)[choice.value];
        && (was.status == Pending || was.status == Failed) && was.availableAt <= now && was.attempts < was.maxAttempts
        && tables.jobs[choice.value] == was.(status := Processing, lease := Held(worker, token, now))
      ensures forall id | id in old(tables.jobs) && id !in locked ::
        var job := old(tables.jobs)[id];
        (job.status == Pending || job.status == Failed) && job.availableAt <= now && job.attempts < job.maxAttempts ==>
          choice.Some?
          && var next := old(tables.jobs)[choice.value];
             next.availableAt < job.availableAt || (next.availableAt == job.availableAt && next.createdAt <= job.createdAt)
      ensures IsNext(old(tables).jobs, now, locked, choice)
      ensures tables == old(tables).(jobs := ClaimJobs(old(tables).jobs, worker, token, now, choice))
    {
      choice := Earliest(Candidates(tables.jobs, now, locked));
      EarliestIsNext(tables.jobs, now, locked, choice);
      tables := tables.(jobs := ClaimJobs(tables.jobs, worker, token, now, choice));
    }

    /** Reports whether a linked message was updated, which is false for a job without one even when it was accepted. */
    method MarkDelivered(id: string, worker: string, token: string, providerMessageId: string) returns (linked: bool)
      modifies this
      ensures !old(Holds(tables.jobs, id, worker, token)) ==> unchanged(this)
      ensures old(Holds(tables.jobs, id, worker, token)) ==>
        var was := old(tables).jobs[id];
        && OnlyChanges(old(tables).jobs, tables.jobs, id)
        && tables.jobs[id] == was.(status := Sent, providerMessageId := Some(providerMessageId), lease := Free)
        && tables.failedJobs == old(tables).failedJobs
        && tables.messages.Keys == old(tables).messages.Keys
        && forall m | m in tables.messages ::
             var before, after := old(tables).messages[m], tables.messages[m];
             if m == was.key && before.tenantId == was.tenantId
             then after.deliveryStatus == "sent" && after.providerMessageId == Some(providerMessageId)
                  && after.tenantId == before.tenantId
             else after == before
      ensures tables == DeliverTables(old(tables), id, worker, token, providerMessageId)
      ensures linked <==> old(Holds(tables.jobs, id, worker, token) && Linked(tables, tables.jobs[id]).Some?)
    {
      linked := Holds(tables.jobs, id, worker, token) && Linked(tables, tables.jobs[id]).Some?;
      tables := DeliverTables(tables, id, worker, token, providerMessageId);
    }

    method MarkFailed(id: string, worker: string, token: string, claimed: Job, e: SendError, now: int) returns (dead: bool)
      modifies this
      ensures !old(Holds(tables.jobs, id, worker, token)) ==> unchanged(this)
      ensures old(Holds(tables.jobs, id, worker, token)) ==> OnlyChanges(old(tables).jobs, tables.jobs, id)
      ensures old(Holds(tables.jobs, id, worker, token)) ==>
        var was, job := old(tables).jobs[id], tables.jobs[id];
        && job.lease == Free && job.attempts == claimed.attempts + 1 && job.key == was.key
        && job.status == (if dead then DeadLetter else Failed)
        && job.availableAt == (if dead then was.availableAt else now + RetryDelay(job.attempts))
        && job == was.(status := job.status, attempts := job.attempts, availableAt := job.availableAt, lease := Free)
        && tables.failedJobs == old(tables).failedJobs + (if job.status == DeadLetter then {id} else {})
        && tables.messages.Keys == old(tables).messages.Keys
        && forall m | m in tables.messages ::
             var before, after := old(tables).messages[m], tables.messages[m];
             if job.status == DeadLetter && m == was.key && before.tenantId == was.tenantId
             then after == before.(deliveryStatus := "failed")
             else after == before
      ensures tables == FailTables(old(tables), id, worker, token, claimed, e, now)
      ensures dead <==>
        claimed.attempts + 1 >= claimed.maxAttempts
        || (e.status.Some? && 400 <= e.status.value <= 499
            && e.status.value != 408 && e.status.value != 409 && e.status.value != 425 && e.status.value != 429)
    {
      dead := IsDead(claimed, e);
      tables := FailTables(tables, id, worker, token, claimed, e, now);
    }
  }
}
