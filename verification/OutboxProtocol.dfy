/** Every interleaving of outbox workers, as runs of a state machine over the statements of `Outbox`. */
module OutboxProtocol {
  import opened Wrappers
  import opened Retry
  import opened Outbox

  datatype Stage = Claimed | Delivered(providerMessageId: string) | Failing(error: SendError)

  /** One running `processOne`: the row it claimed, its lease, and how far it got. */
  datatype Work = Work(jobId: string, worker: string, row: Job, stage: Stage)

  /**
   * The tables, the running workers by lease token, every token ever issued with the job it was issued for,
   * and the log of send attempts (job, token).
   */
  datatype State = State(tables: Tables, working: map<string, Work>, issued: map<string, string>, sends: seq<(string, string)>)

  datatype Step =
    | Enqueue(id: string, tenantId: string, kind: string, key: string, maxAttempts: int, now: int)
    | Claim(worker: string, token: string, now: int, locked: set<string>, choice: Option<string>)
    | SendSucceeds(token: string, providerMessageId: string)
    | SendFails(token: string, error: SendError)
    | GiveUpBeforeSend(token: string, error: SendError)
    | MarkDelivered(token: string)
    | MarkDeliveredRaises(token: string, error: SendError)
    | MarkFailed(token: string, now: int)
    | Vanish(token: string)

  predicate At(s: State, token: string, claimed: bool, delivered: bool, failing: bool) {
    token in s.working &&
    match s.working[token].stage
    case Claimed => claimed
    case Delivered(_) => delivered
    case Failing(_) => failing
  }

  /** Tokens are random UUIDs: a claim never reuses one. A worker may vanish at any point (crash, lost connection). */
  predicate Enabled(s: State, step: Step) {
    match step
    case Enqueue(id, tenantId, kind, key, _, _) => Enqueueable(s.tables.jobs, id, tenantId, kind, key)
    case Claim(_, token, now, locked, choice) => token !in s.issued && IsNext(s.tables.jobs, now, locked, choice)
    case SendSucceeds(token, _) => At(s, token, true, false, false)
    case SendFails(token, _) => At(s, token, true, false, false)
    case GiveUpBeforeSend(token, _) => At(s, token, true, false, false)
    case MarkDelivered(token) => At(s, token, false, true, false)
    case MarkDeliveredRaises(token, _) => At(s, token, false, true, false)
    case MarkFailed(token, _) => At(s, token, false, false, true)
    case Vanish(token) => token in s.working
  }

  function Moved(s: State, token: string, stage: Stage): State
    requires token in s.working
  {
    s.(working := s.working[token := s.working[token].(stage := stage)])
  }

  function Apply(s: State, step: Step): State
    requires Enabled(s, step)
  {
    match step
    case Enqueue(id, tenantId, kind, key, maxAttempts, now) =>
      s.(tables := s.tables.(jobs := s.tables.jobs[id := NewJob(tenantId, kind, key, maxAttempts, now)]))
    case Claim(worker, token, now, _, choice) =>
      var jobs := ClaimJobs(s.tables.jobs, worker, token, now, choice);
      var t := s.tables.(jobs := jobs);
      if choice.None? then s.(tables := t)
      else s.(tables := t, issued := s.issued[token := choice.value],
              working := s.working[token := Work(choice.value, worker, jobs[choice.value], Claimed)])
    case SendSucceeds(token, providerMessageId) =>
      Moved(s, token, Delivered(providerMessageId)).(sends := s.sends + [(s.working[token].jobId, token)])
    case SendFails(token, error) =>
      Moved(s, token, Failing(error)).(sends := s.sends + [(s.working[token].jobId, token)])
    case GiveUpBeforeSend(token, error) => Moved(s, token, Failing(error))
    case MarkDelivered(token) =>
      var w := s.working[token];
      s.(tables := DeliverTables(s.tables, w.jobId, w.worker, token, w.stage.providerMessageId), working := s.working - {token})
    case MarkDeliveredRaises(token, error) => Moved(s, token, Failing(error))
    case MarkFailed(token, now) =>
      var w := s.working[token];
      s.(tables := FailTables(s.tables, w.jobId, w.worker, token, w.row, w.stage.error, now), working := s.working - {token})
    case Vanish(token) => s.(working := s.working - {token})
  }

  ghost predicate Next(s: State, t: State) { exists step :: Enabled(s, step) && t == Apply(s, step) }

  predicate Init(s: State) {
    s.tables.jobs == map[] && s.tables.failedJobs == {} && s.working == map[] && s.issued == map[] && s.sends == []
  }

  ghost predicate IsRun(run: seq<State>) {
    && run != [] && Init(run[0])
    && forall i | 0 <= i < |run| - 1 :: Next(run[i], run[i + 1])
  }

  /**
   * A worker always has a next step: with a job just claimed any of the three outcomes of sending, after a delivery the
   * mark or its failure, after a failure the other mark. And it can crash at any time, which leaves the tables alone.
   */
  lemma CanGoOn(s: State, token: string)
    requires token in s.working
    ensures s.working[token].stage == Claimed ==>
      && (forall id :: Enabled(s, SendSucceeds(token, id)))
      && (forall error :: Enabled(s, SendFails(token, error)) && Enabled(s, GiveUpBeforeSend(token, error)))
    ensures s.working[token].stage.Delivered? ==>
      Enabled(s, MarkDelivered(token)) && forall error :: Enabled(s, MarkDeliveredRaises(token, error))
    ensures s.working[token].stage.Failing? ==> forall now :: Enabled(s, MarkFailed(token, now))
    ensures Enabled(s, Vanish(token)) && Apply(s, Vanish(token)) == s.(working := s.working - {token})
  {
  }

  // ----- the invariant

  /** The claims ever made on a job. */
  function ClaimsOf(s: State, id: string): set<string> { set token | token in s.issued && s.issued[token] == id }

  predicate IsTerminal(status: Status) { status == Sent || status == DeadLetter || status == DeliveryUnknown }

  /** How many claims a row's counters stand for: a claim in progress, delivered or lost is not yet an attempt. */
  function ClaimCount(job: Job): int {
    if job.status == Processing || job.status == Sent || job.status == DeliveryUnknown then job.attempts + 1 else job.attempts
  }

  /** Unless untouched, a job's counters are within its budget; `failed` and anything claimed is strictly below it. */
  predicate RowOk(job: Job) {
    && 0 <= job.attempts
    && (job.lease.Held? <==> job.status == Processing)
    && (job.status == Pending ==> job.attempts == 0)
    && (job.status in {Processing, Sent, Failed, DeliveryUnknown} ==> job.attempts < job.maxAttempts)
    && (job.status == DeadLetter ==> 1 <= job.attempts <= job.maxAttempts)
  }

  ghost predicate RowsOk(s: State) {
    forall id | id in s.tables.jobs ::
      && RowOk(s.tables.jobs[id])
      && |ClaimsOf(s, id)| == ClaimCount(s.tables.jobs[id])
  }

  ghost predicate LeasesOk(s: State) {
    && (forall token | token in s.issued :: s.issued[token] in s.tables.jobs)
    && (forall id | id in s.tables.jobs && s.tables.jobs[id].lease.Held? ::
          s.tables.jobs[id].lease.token in s.issued && s.issued[s.tables.jobs[id].lease.token] == id)
  }

  /** A worker that still holds its lease sees the attempt counters it claimed. */
  ghost predicate WorkOk(s: State) {
    forall token | token in s.working ::
      var w := s.working[token];
      && token in s.issued && s.issued[token] == w.jobId
      && (Holds(s.tables.jobs, w.jobId, w.worker, token) ==>
            w.row.attempts == s.tables.jobs[w.jobId].attempts && w.row.maxAttempts == s.tables.jobs[w.jobId].maxAttempts)
  }

  /** Each claim is used for at most one send. */
  ghost predicate SendsOk(s: State) {
    && (forall i, j | 0 <= i < j < |s.sends| :: s.sends[i].1 != s.sends[j].1)
    && (forall i | 0 <= i < |s.sends| :: s.sends[i].1 in s.issued && s.issued[s.sends[i].1] == s.sends[i].0)
    && (forall i | 0 <= i < |s.sends| :: !At(s, s.sends[i].1, true, false, false))
  }

  ghost predicate Inv(s: State) { RowsOk(s) && LeasesOk(s) && WorkOk(s) && SendsOk(s) }

  lemma InitInv(s: State)
    requires Init(s)
    ensures Inv(s)
  {
  }

  // ----- what one step does to one job

  predicate Claims(step: Step, id: string) { step.Claim? && step.choice == Option.Some(id) }

  /** The only ways a row changes other than by being claimed. */
  predicate RowStep(before: Job, after: Job) {
    || after == before
    || (before.status == Processing && after == Park(before))
    || (before.status == Processing && after.status == Sent
        && after == before.(status := Sent, providerMessageId := after.providerMessageId, lease := Free))
    || (before.status == Processing && after.status == DeadLetter && before.attempts < before.maxAttempts
        && after == before.(status := DeadLetter, attempts := before.attempts + 1, lease := Free))
    || (before.status == Processing && after.status == Failed && before.attempts + 1 < before.maxAttempts
        && after == before.(status := Failed, attempts := before.attempts + 1, availableAt := after.availableAt, lease := Free))
  }

  lemma ClaimRow(s: State, step: Step, id: string)
    requires Enabled(s, step) && Claims(step, id)
    ensures id in s.tables.jobs && id in Apply(s, step).tables.jobs
    ensures var before := s.tables.jobs[id];
            && (before.status == Pending || before.status == Failed) && before.attempts < before.maxAttempts
            && Apply(s, step).tables.jobs[id] == Leased(before, step.worker, step.token, step.now)
  {
  }

  lemma DeliverRow(t: Tables, id: string, worker: string, token: string, p: string, other: string)
    requires other in t.jobs
    ensures other in DeliverTables(t, id, worker, token, p).jobs
    ensures RowStep(t.jobs[other], DeliverTables(t, id, worker, token, p).jobs[other])
    ensures DeliverTables(t, id, worker, token, p).jobs.Keys == t.jobs.Keys
  {
  }

  lemma FailRow(t: Tables, id: string, worker: string, token: string, claimed: Job, e: SendError, now: int, other: string)
    requires other in t.jobs
    requires Holds(t.jobs, id, worker, token) ==>
               claimed.attempts == t.jobs[id].attempts < t.jobs[id].maxAttempts == claimed.maxAttempts
    ensures other in FailTables(t, id, worker, token, claimed, e, now).jobs
    ensures RowStep(t.jobs[other], FailTables(t, id, worker, token, claimed, e, now).jobs[other])
    ensures FailTables(t, id, worker, token, claimed, e, now).jobs.Keys == t.jobs.Keys
  {
    hide RetryDelay;
  }

  lemma FailedRow(s: State, token: string, now: int, id: string)
    requires Enabled(s, MarkFailed(token, now)) && Inv(s) && id in s.tables.jobs
    ensures id in Apply(s, MarkFailed(token, now)).tables.jobs
    ensures RowStep(s.tables.jobs[id], Apply(s, MarkFailed(token, now)).tables.jobs[id])
  {
    hide SendsOk, FailTables, RowStep;
    var w := s.working[token];
    if Holds(s.tables.jobs, w.jobId, w.worker, token) { assert RowOk(s.tables.jobs[w.jobId]); }
    FailRow(s.tables, w.jobId, w.worker, token, w.row, w.stage.error, now, id);
  }

  lemma StepRows(s: State, step: Step, id: string)
    requires Enabled(s, step) && Inv(s) && id in s.tables.jobs && !Claims(step, id)
    ensures id in Apply(s, step).tables.jobs
    ensures RowStep(s.tables.jobs[id], Apply(s, step).tables.jobs[id])
  {
    hide *;
    match step
    case MarkFailed(token, now) => FailedRow(s, token, now, id);
    case _ => OtherRow(s, step, id);
  }

  lemma OtherRow(s: State, step: Step, id: string)
    requires Enabled(s, step) && !step.MarkFailed? && id in s.tables.jobs && !Claims(step, id)
    ensures id in Apply(s, step).tables.jobs
    ensures RowStep(s.tables.jobs[id], Apply(s, step).tables.jobs[id])
  {
    hide FailTables, DeliverTables;
    if step.MarkDelivered? {
      var w := s.working[step.token];
      DeliverRow(s.tables, w.jobId, w.worker, step.token, w.stage.providerMessageId, id);
    }
  }

  /** A row that was not there before is a fresh job. */
  lemma NewRows(s: State, step: Step, id: string)
    requires Enabled(s, step) && id !in s.tables.jobs && id in Apply(s, step).tables.jobs
    ensures step.Enqueue? && step.id == id
    ensures var job := Apply(s, step).tables.jobs[id];
            job == NewJob(step.tenantId, step.kind, step.key, step.maxAttempts, step.now)
  {
    hide RetryDelay;
  }

  /** Terminal statuses are never left: the row never changes again. */
  lemma {:induction false} TerminalStays(s: State, step: Step, id: string)
    requires Enabled(s, step) && Inv(s) && id in s.tables.jobs && IsTerminal(s.tables.jobs[id].status)
    ensures id in Apply(s, step).tables.jobs && Apply(s, step).tables.jobs[id] == s.tables.jobs[id]
  {
    hide Apply, Inv, Enabled;
    if Claims(step, id) { ClaimRow(s, step, id); } else { StepRows(s, step, id); }
  }

  /** A worker whose lease was lost changes neither the job nor its message, nor anything else in the tables. */
  lemma StaleWorkerIsHarmless(s: State, step: Step, token: string)
    requires Enabled(s, step) && token in s.working
    requires step == MarkDelivered(token) || (step.MarkFailed? && step.token == token)
    requires !Holds(s.tables.jobs, s.working[token].jobId, s.working[token].worker, token)
    ensures Apply(s, step).tables == s.tables
  {
  }

  // ----- every step keeps the invariant

  lemma ClaimsAfter(s: State, step: Step, id: string)
    requires Enabled(s, step)
    ensures ClaimsOf(Apply(s, step), id) == ClaimsOf(s, id) + if Claims(step, id) then {step.token} else {}
    ensures Claims(step, id) ==> step.token !in ClaimsOf(s, id)
  {
  }

  lemma KeepRows(s: State, step: Step)
    requires Enabled(s, step) && Inv(s)
    ensures RowsOk(Apply(s, step))
  {
    var t := Apply(s, step);
    forall id | id in t.tables.jobs ensures RowOk(t.tables.jobs[id]) && |ClaimsOf(t, id)| == ClaimCount(t.tables.jobs[id]) {
      KeepRow(s, step, id);
    }
    hide Apply, Inv, Enabled, RowOk, ClaimsOf, ClaimCount;
  }

  lemma KeepRow(s: State, step: Step, id: string)
    requires Enabled(s, step) && Inv(s) && id in Apply(s, step).tables.jobs
    ensures RowOk(Apply(s, step).tables.jobs[id])
    ensures |ClaimsOf(Apply(s, step), id)| == ClaimCount(Apply(s, step).tables.jobs[id])
  {
    ClaimsAfter(s, step, id);
    OldRow(s, id);
    hide Apply, Inv, Enabled, ClaimsOf, RowStep, RowOk;
    if id !in s.tables.jobs {
      NewRows(s, step, id);
      NewJobOk(step.tenantId, step.kind, step.key, step.maxAttempts, step.now);
      assert ClaimsOf(s, id) + {} == {};
    } else if Claims(step, id) {
      ClaimRow(s, step, id);
      LeasedOk(s.tables.jobs[id], step.worker, step.token, step.now);
    } else {
      StepRows(s, step, id);
      RowStepOk(s.tables.jobs[id], Apply(s, step).tables.jobs[id]);
      assert ClaimsOf(s, id) + {} == ClaimsOf(s, id);
    }
  }

  lemma NewJobOk(tenantId: string, kind: string, key: string, maxAttempts: int, now: int)
    ensures var job := NewJob(tenantId, kind, key, maxAttempts, now); RowOk(job) && ClaimCount(job) == 0
  {
  }

  lemma LeasedOk(job: Job, worker: string, token: string, now: int)
    requires RowOk(job) && (job.status == Pending || job.status == Failed) && job.attempts < job.maxAttempts
    ensures RowOk(Leased(job, worker, token, now)) && ClaimCount(Leased(job, worker, token, now)) == ClaimCount(job) + 1
  {
  }

  lemma RowStepOk(before: Job, after: Job)
    requires RowOk(before) && RowStep(before, after)
    ensures RowOk(after) && ClaimCount(after) == ClaimCount(before)
  {
  }

  lemma OldRow(s: State, id: string)
    requires Inv(s)
    ensures id in s.tables.jobs ==> RowOk(s.tables.jobs[id]) && |ClaimsOf(s, id)| == ClaimCount(s.tables.jobs[id])
    ensures id !in s.tables.jobs ==> ClaimsOf(s, id) == {}
  {
    hide SendsOk, WorkOk, RowOk;
  }

  lemma KeepLeases(s: State, step: Step)
    requires Enabled(s, step) && Inv(s)
    ensures LeasesOk(Apply(s, step))
  {
    var t := Apply(s, step);
    forall token | token in t.issued ensures t.issued[token] in t.tables.jobs {
      IssuedAfter(s, step, token);
      var id := t.issued[token];
      if Claims(step, id) { ClaimRow(s, step, id); } else { StepRows(s, step, id); }
    }
    forall id | id in t.tables.jobs && t.tables.jobs[id].lease.Held?
      ensures t.tables.jobs[id].lease.token in t.issued && t.issued[t.tables.jobs[id].lease.token] == id
    {
      HeldAfter(s, step, id);
    }
    hide Apply, Inv, Enabled;
  }

  lemma IssuedAfter(s: State, step: Step, token: string)
    requires Enabled(s, step) && Inv(s) && token in Apply(s, step).issued
    ensures var id := Apply(s, step).issued[token];
            id in s.tables.jobs && ((token in s.issued && s.issued[token] == id) || (Claims(step, id) && step.token == token))
  {
    hide SendsOk, WorkOk, RowsOk;
  }

  lemma IssuedKept(s: State, step: Step, token: string)
    requires Enabled(s, step)
    ensures token in s.issued ==> token in Apply(s, step).issued && Apply(s, step).issued[token] == s.issued[token]
    ensures step.Claim? && step.choice.Some? && step.token == token ==>
              token in Apply(s, step).issued && Apply(s, step).issued[token] == step.choice.value
  {
  }

  /** A lease found after the step was there before it, on an unchanged row, unless the step granted it. */
  lemma HeldAfter(s: State, step: Step, id: string)
    requires Enabled(s, step) && Inv(s) && id in Apply(s, step).tables.jobs && Apply(s, step).tables.jobs[id].lease.Held?
    ensures var lease := Apply(s, step).tables.jobs[id].lease;
            && lease.token in Apply(s, step).issued && Apply(s, step).issued[lease.token] == id
            && (if Claims(step, id) then lease.token == step.token && lease.worker == step.worker
                else id in s.tables.jobs && Apply(s, step).tables.jobs[id] == s.tables.jobs[id] && lease.token in s.issued)
  {
    hide Apply, Inv, Enabled, ClaimsOf;
    OldRow(s, id);
    OldLease(s, id);
    if id !in s.tables.jobs {
      NewRows(s, step, id);
    } else if Claims(step, id) {
      ClaimRow(s, step, id);
      IssuedKept(s, step, step.token);
    } else {
      StepRows(s, step, id);
      IssuedKept(s, step, s.tables.jobs[id].lease.token);
    }
  }

  lemma OldLease(s: State, id: string)
    requires Inv(s)
    ensures id in s.tables.jobs && s.tables.jobs[id].lease.Held? ==>
              s.tables.jobs[id].lease.token in s.issued && s.issued[s.tables.jobs[id].lease.token] == id
  {
    hide SendsOk, WorkOk, RowsOk;
  }

  lemma KeepWork(s: State, step: Step)
    requires Enabled(s, step) && Inv(s)
    ensures WorkOk(Apply(s, step))
  {
    var t := Apply(s, step);
    forall token | token in t.working
      ensures var w := t.working[token];
              && token in t.issued && t.issued[token] == w.jobId
              && (Holds(t.tables.jobs, w.jobId, w.worker, token) ==>
                    w.row.attempts == t.tables.jobs[w.jobId].attempts && w.row.maxAttempts == t.tables.jobs[w.jobId].maxAttempts)
    {
      var w := t.working[token];
      WorkAfter(s, step, token);
      IssuedKept(s, step, token);
      if Holds(t.tables.jobs, w.jobId, w.worker, token) {
        HeldAfter(s, step, w.jobId);
      }
      hide Apply, Inv, Enabled;
    }
    hide Apply, Inv, Enabled, Holds;
  }

  /** Work after the step was under way before it, or has just been claimed. */
  lemma WorkAfter(s: State, step: Step, token: string)
    requires Enabled(s, step) && Inv(s) && token in Apply(s, step).working
    ensures var w := Apply(s, step).working[token];
            if step.Claim? && step.token == token && step.choice.Some? then
              w.jobId == step.choice.value && w.worker == step.worker && token !in s.issued
              && w.jobId in Apply(s, step).tables.jobs && w.row == Apply(s, step).tables.jobs[w.jobId]
            else
              && token in s.issued && s.issued[token] == w.jobId
              && (Holds(s.tables.jobs, w.jobId, w.worker, token) ==>
                    w.row.attempts == s.tables.jobs[w.jobId].attempts && w.row.maxAttempts == s.tables.jobs[w.jobId].maxAttempts)
  {
    hide SendsOk, RowsOk, LeasesOk, FailTables, DeliverTables;
  }

  lemma KeepSends(s: State, step: Step)
    requires Enabled(s, step) && Inv(s)
    ensures SendsOk(Apply(s, step))
  {
    hide RowsOk, LeasesOk, FailTables, DeliverTables, ClaimJobs, IsNext;
  }

  lemma StepKeeps(s: State, step: Step)
    requires Enabled(s, step) && Inv(s)
    ensures Inv(Apply(s, step))
  {
    KeepRows(s, step);
    KeepLeases(s, step);
    KeepWork(s, step);
    KeepSends(s, step);
    hide Apply, Enabled, RowsOk, LeasesOk, WorkOk, SendsOk;
  }

  // ----- whole runs

  lemma {:induction false} RunStep(run: seq<State>, i: nat) returns (step: Step)
    requires IsRun(run) && i + 1 < |run|
    ensures Enabled(run[i], step) && run[i + 1] == Apply(run[i], step)
  {
    hide Enabled, Apply, Init;
    assert Next(run[i], run[i + 1]);
    step :| Enabled(run[i], step) && run[i + 1] == Apply(run[i], step);
  }

  lemma {:induction false} RunInv(run: seq<State>, i: nat)
    requires IsRun(run) && i < |run|
    ensures Inv(run[i])
  {
    if i == 0 {
      InitInv(run[0]);
    } else {
      hide Inv, Apply, Enabled, Next;
      RunInv(run, i - 1);
      var step := RunStep(run, i - 1);
      StepKeeps(run[i - 1], step);
    }
  }

  /** The sends made for one job. */
  function SendsFor(sends: seq<(string, string)>, id: string): seq<string> {
    if sends == [] then []
    else (if sends[0].0 == id then [sends[0].1] else []) + SendsFor(sends[1..], id)
  }

  /** Each send counts for its job and for no other. */
  lemma {:induction false} SendsForPush(sends: seq<(string, string)>, jobId: string, token: string, id: string)
    ensures SendsFor([], id) == []
    ensures SendsFor(sends + [(jobId, token)], id) == SendsFor(sends, id) + if jobId == id then [token] else []
    decreases sends
  {
    if sends != [] {
      assert (sends + [(jobId, token)])[1..] == sends[1..] + [(jobId, token)];
      SendsForPush(sends[1..], jobId, token, id);
    } else {
      assert sends + [(jobId, token)] == [(jobId, token)];
    }
  }

  lemma SendsForMembers(sends: seq<(string, string)>, id: string)
    requires forall i, j | 0 <= i < j < |sends| :: sends[i].1 != sends[j].1
    ensures forall t | t in SendsFor(sends, id) :: exists i | 0 <= i < |sends| :: sends[i] == (id, t)
    ensures forall i, j | 0 <= i < j < |SendsFor(sends, id)| :: SendsFor(sends, id)[i] != SendsFor(sends, id)[j]
  {
    if sends != [] {
      var rest := sends[1..];
      assert forall i | 0 <= i < |rest| :: rest[i] == sends[i + 1];
      SendsForMembers(rest, id);
      forall t | t in SendsFor(rest, id) ensures t != sends[0].1 && exists i | 0 <= i < |sends| :: sends[i] == (id, t) {
        var i :| 0 <= i < |rest| && rest[i] == (id, t);
        assert sends[i + 1] == (id, t);
      }
    }
  }

  lemma DistinctBounded(xs: seq<string>, s: set<string>)
    requires forall i, j | 0 <= i < j < |xs| :: xs[i] != xs[j]
    requires forall x | x in xs :: x in s
    ensures |xs| <= |s|
  {
    if xs != [] {
      assert xs == [xs[0]] + xs[1..];
      var rest := xs[1..];
      forall x | x in rest ensures x in s - {xs[0]} {
        var i :| 0 <= i < |rest| && rest[i] == x;
        assert xs[i + 1] == x;
      }
      DistinctBounded(rest, s - {xs[0]});
    }
  }

  lemma {:induction false} SendsAtMostClaims(s: State, id: string)
    requires SendsOk(s)
    ensures |SendsFor(s.sends, id)| <= |ClaimsOf(s, id)|
  {
    SendsForMembers(s.sends, id);
    forall t | t in SendsFor(s.sends, id) ensures t in ClaimsOf(s, id) {
      var i :| 0 <= i < |s.sends| && s.sends[i] == (id, t);
    }
    DistinctBounded(SendsFor(s.sends, id), ClaimsOf(s, id));
  }

  /**
   * In every run a job is sent at most as often as it is claimed, and claimed at most `max_attempts` times
   * (never, when the budget is not positive). A failed job still has attempts left.
   */
  lemma {:induction false} ClaimsAndSendsBounded(run: seq<State>, i: nat, id: string)
    requires IsRun(run) && i < |run| && id in run[i].tables.jobs
    ensures var job := run[i].tables.jobs[id];
            var max := if job.maxAttempts < 0 then 0 else job.maxAttempts;
            && |SendsFor(run[i].sends, id)| <= |ClaimsOf(run[i], id)| <= max
            && (job.status == Failed ==> job.attempts < job.maxAttempts)
  {
    RunInv(run, i);
    SendsAtMostClaims(run[i], id);
    OldRow(run[i], id);
    hide Inv, ClaimsOf, SendsFor;
  }

  /** `sent`, `dead_letter` and `delivery_unknown` are never left, in any run. */
  lemma {:induction false} TerminalForever(run: seq<State>, i: nat, j: nat, id: string)
    requires IsRun(run) && i <= j < |run| && id in run[i].tables.jobs && IsTerminal(run[i].tables.jobs[id].status)
    ensures id in run[j].tables.jobs && run[j].tables.jobs[id] == run[i].tables.jobs[id]
  {
    hide *;
    if i < j {
      TerminalForever(run, i, j - 1, id);
      RunInv(run, j - 1);
      var step := RunStep(run, j - 1);
      TerminalStays(run[j - 1], step, id);
    }
  }

  // ----- lost leases

  lemma StepLosesLease(s: State, step: Step, id: string, worker: string, token: string)
    requires Enabled(s, step) && Inv(s) && token in s.issued && !Holds(s.tables.jobs, id, worker, token)
    ensures !Holds(Apply(s, step).tables.jobs, id, worker, token) && token in Apply(s, step).issued
  {
    hide Apply, Inv, ClaimsOf, IsNext;
    IssuedKept(s, step, token);
    if Holds(Apply(s, step).tables.jobs, id, worker, token) { HeldAfter(s, step, id); }
  }

  /** In every run, a lease that a token has lost, or never had, is not held under that token ever after. */
  lemma {:induction false} LostLeaseStaysLost(run: seq<State>, i: nat, j: nat, id: string, worker: string, token: string)
    requires IsRun(run) && i <= j < |run| && token in run[i].issued && !Holds(run[i].tables.jobs, id, worker, token)
    ensures !Holds(run[j].tables.jobs, id, worker, token) && token in run[j].issued
    decreases j
  {
    hide *;
    if i < j {
      LostLeaseStaysLost(run, i, j - 1, id, worker, token);
      RunInv(run, j - 1);
      var step := RunStep(run, j - 1);
      StepLosesLease(run[j - 1], step, id, worker, token);
    }
  }

  /**
   * A worker that has lost its lease never does anything to the tables again: whatever happens in between, neither of
   * its marks changes a job, a message or the dead letters.
   */
  lemma {:induction false} LostWorkerIsHarmless(run: seq<State>, i: nat, j: nat, token: string, step: Step)
    requires IsRun(run) && i <= j < |run| && token in run[i].issued && token in run[j].working
    requires !Holds(run[i].tables.jobs, run[j].working[token].jobId, run[j].working[token].worker, token)
    requires Enabled(run[j], step) && (step == MarkDelivered(token) || (step.MarkFailed? && step.token == token))
    ensures Apply(run[j], step).tables == run[j].tables
  {
    hide IsRun, Holds, Apply, Enabled;
    var w := run[j].working[token];
    LostLeaseStaysLost(run, i, j, w.jobId, w.worker, token);
    StaleWorkerIsHarmless(run[j], step, token);
  }
}
