/** One round of an outbox worker (outbox-worker.js), and why it is a run of the protocol's steps. */
module OutboxWorker {
  import opened Wrappers
  import opened Retry
  import opened Leasing
  import opened Outbox
  import opened OutboxProtocol

  /**
   * What comes of looking up the channel and sending: the provider accepts, the provider's call fails, or nothing
   * could be sent at all.
   */
  datatype Sending = Accepted(providerMessageId: string) | Refused(error: SendError) | Unsendable(error: SendError)

  datatype Report = Report(id: string, status: string)

  /** The steps lead from one state to the other. */
  predicate Path(s: State, steps: seq<Step>, t: State)
    decreases |steps|
  {
    if steps == [] then s == t else Enabled(s, steps[0]) && Path(Apply(s, steps[0]), steps[1..], t)
  }

  lemma {:induction false} PathConcat(s: State, a: seq<Step>, t: State, b: seq<Step>, u: State)
    requires Path(s, a, t) && Path(t, b, u)
    ensures Path(s, a + b, u)
    decreases |a|
  {
    hide Enabled, Apply;
    if a == [] {
      assert a + b == b;
    } else {
      assert (a + b)[1..] == a[1..] + b;
      PathConcat(Apply(s, a[0]), a[1..], t, b, u);
    }
  }

  lemma PathOne(s: State, step: Step)
    requires Enabled(s, step)
    ensures Path(s, [step], Apply(s, step))
  {
    hide Enabled, Apply;
    assert [step][1..] == [];
  }

  lemma {:induction false} PathKeeps(s: State, steps: seq<Step>, t: State)
    requires Path(s, steps, t) && Inv(s)
    ensures Inv(t)
    decreases |steps|
  {
    hide Enabled, Apply, Inv;
    if steps != [] {
      StepKeeps(s, steps[0]);
      PathKeeps(Apply(s, steps[0]), steps[1..], t);
    }
  }

  /** Whether a step is taken by the worker with this token. */
  predicate By(step: Step, token: string) {
    match step
    case Enqueue(_, _, _, _, _, _) => false
    case Claim(_, t, _, _, _) => t == token
    case SendSucceeds(t, _) => t == token
    case SendFails(t, _) => t == token
    case GiveUpBeforeSend(t, _) => t == token
    case MarkDelivered(t) => t == token
    case MarkDeliveredRaises(t, _) => t == token
    case MarkFailed(t, _) => t == token
    case Vanish(t) => t == token
  }

  predicate NoneBy(steps: seq<Step>, token: string) { forall step | step in steps :: !By(step, token) }

  lemma OthersStep(s: State, step: Step, token: string)
    requires Enabled(s, step) && !By(step, token) && token in s.working
    ensures token in Apply(s, step).working && Apply(s, step).working[token] == s.working[token]
  {
    hide IsNext, DeliverTables, FailTables, ClaimJobs, Enqueueable;
  }

  /** Whatever others do, a worker is where it was. */
  lemma {:induction false} OthersKeep(s: State, steps: seq<Step>, t: State, token: string)
    requires Path(s, steps, t) && NoneBy(steps, token) && token in s.working
    ensures token in t.working && t.working[token] == s.working[token]
    decreases |steps|
  {
    hide Enabled, Apply, By;
    if steps != [] {
      OthersStep(s, steps[0], token);
      OthersKeep(Apply(s, steps[0]), steps[1..], t, token);
    }
  }

  /** The error that ends in `markFailed`, if the round does: of the send, or of recording the delivery. */
  function Failure(sending: Sending, raised: Option<SendError>): Option<SendError> {
    match sending
    case Accepted(_) => raised
    case Refused(e) => Some(e)
    case Unsendable(e) => Some(e)
  }

  function SendStep(token: string, sending: Sending): Step {
    match sending
    case Accepted(p) => SendSucceeds(token, p)
    case Refused(e) => SendFails(token, e)
    case Unsendable(e) => GiveUpBeforeSend(token, e)
  }

  /** The job as it was claimed, marked by its worker as the failure, if any, demands. */
  function MarkStep(token: string, later: int, sending: Sending, raised: Option<SendError>): Step {
    if Failure(sending, raised).None? then MarkDelivered(token) else MarkFailed(token, later)
  }

  /** What others did between the statements of one round. */
  datatype Between = Between(afterClaim: seq<Step>, afterSend: seq<Step>, afterError: seq<Step>)

  const NOTHING: Between := Between([], [], [])

  /** All steps of a round before its last statement. */
  function Round(claim: Step, token: string, sending: Sending, raised: Option<SendError>, between: Between): seq<Step> {
    [claim] + between.afterClaim + [SendStep(token, sending)] + between.afterSend
    + if sending.Accepted? && raised.Some? then [MarkDeliveredRaises(token, raised.value)] + between.afterError else []
  }

  /** The job's row at the end of a round that nobody disturbed: sent, or one attempt more. */
  predicate Ended(before: Job, after: Job, status: string, later: int, sending: Sending, raised: Option<SendError>) {
    && after.lease == Free && after.maxAttempts == before.maxAttempts && after.key == before.key
    && match Failure(sending, raised)
       case None =>
         && status == "sent" && after.status == Sent && after.attempts == before.attempts
         && after.providerMessageId == Some(sending.providerMessageId)
       case Some(e) =>
         && after.attempts == before.attempts + 1 <= before.maxAttempts
         && (if Terminal(e) || after.attempts == before.maxAttempts
             then status == "dead_letter" && after.status == DeadLetter
             else status == "retrying" && after.status == Failed && after.availableAt == later + RetryDelay(after.attempts))
  }

  lemma ClaimedState(s: State, claim: Step)
    requires claim.Claim? && Enabled(s, claim)
    ensures var s1 := Apply(s, claim);
      && Path(s, [claim], s1)
      && s1.tables == s.tables.(jobs := ClaimJobs(s.tables.jobs, claim.worker, claim.token, claim.now, claim.choice))
      && s1.sends == s.sends
      && (match claim.choice
          case None => s1.working == s.working && s1.issued == s.issued
          case Some(id) =>
            && id in s1.tables.jobs
            && s1.working == s.working[claim.token := Work(id, claim.worker, s1.tables.jobs[id], Claimed)]
            && s1.issued == s.issued[claim.token := id])
  {
    PathOne(s, claim);
  }

  /** The stage after the attempt to send. */
  function SentStage(sending: Sending): Stage {
    match sending
    case Accepted(p) => Delivered(p)
    case Refused(e) => Failing(e)
    case Unsendable(e) => Failing(e)
  }

  lemma SentState(s: State, token: string, sending: Sending)
    requires token in s.working && s.working[token].stage == Claimed
    ensures Enabled(s, SendStep(token, sending))
    ensures var t := Apply(s, SendStep(token, sending));
      && Path(s, [SendStep(token, sending)], t)
      && t == s.(working := s.working[token := s.working[token].(stage := SentStage(sending))],
                 sends := s.sends + if sending.Unsendable? then [] else [(s.working[token].jobId, token)])
  {
    PathOne(s, SendStep(token, sending));
  }

  lemma RaisedState(s: State, token: string, e: SendError)
    requires token in s.working && s.working[token].stage.Delivered?
    ensures Enabled(s, MarkDeliveredRaises(token, e))
    ensures var t := Apply(s, MarkDeliveredRaises(token, e));
      && Path(s, [MarkDeliveredRaises(token, e)], t)
      && t == s.(working := s.working[token := s.working[token].(stage := Failing(e))])
  {
    PathOne(s, MarkDeliveredRaises(token, e));
  }

  /** The stage in which the last statement is due. */
  function LastStage(sending: Sending, raised: Option<SendError>): Stage {
    match Failure(sending, raised)
    case None => SentStage(sending)
    case Some(e) => Failing(e)
  }

  /** The tables after the last statement. */
  function MarkedTables(t: Tables, w: Work, token: string, later: int, sending: Sending, raised: Option<SendError>): Tables {
    match Failure(sending, raised)
    case None => DeliverTables(t, w.jobId, w.worker, token, sending.providerMessageId)
    case Some(e) => FailTables(t, w.jobId, w.worker, token, w.row, e, later)
  }

  lemma MarkedState(s: State, token: string, later: int, sending: Sending, raised: Option<SendError>)
    requires token in s.working && s.working[token].stage == LastStage(sending, raised)
    ensures var mark := MarkStep(token, later, sending, raised);
      && Enabled(s, mark)
      && Apply(s, mark) == s.(tables := MarkedTables(s.tables, s.working[token], token, later, sending, raised),
                              working := s.working - {token})
  {
    hide DeliverTables, FailTables;
  }

  /** A lease still held at the last statement: the job ends as reported, and no other job changes. */
  lemma MarkedEnds(s: State, token: string, later: int, sending: Sending, raised: Option<SendError>)
    requires Inv(s) && token in s.working
    requires var w := s.working[token]; Holds(s.tables.jobs, w.jobId, w.worker, token)
    ensures var w := s.working[token];
      var after := MarkedTables(s.tables, w, token, later, sending, raised);
      && OnlyChanges(s.tables.jobs, after.jobs, w.jobId)
      && Ended(s.tables.jobs[w.jobId], after.jobs[w.jobId], Reported(w.row, sending, raised), later, sending, raised)
  {
    hide RetryDelay, Terminal, SendsOk, LeasesOk, ClaimsOf;
    var w := s.working[token];
    assert RowOk(s.tables.jobs[w.jobId]);
  }

  /** What the round reports. */
  function Reported(row: Job, sending: Sending, raised: Option<SendError>): string {
    match Failure(sending, raised)
    case None => "sent"
    case Some(e) => if IsDead(row, e) then "dead_letter" else "retrying"
  }

  lemma MarkedNothing(t: Tables, w: Work, token: string, later: int, sending: Sending, raised: Option<SendError>)
    requires !Holds(t.jobs, w.jobId, w.worker, token)
    ensures MarkedTables(t, w, token, later, sending, raised) == t
  {
  }

  /** The tables, and the other workers that use them. */
  class World {
    const store: Store
    var working: map<string, Work>
    var issued: map<string, string>
    var sends: seq<(string, string)>

    constructor (store: Store)
      ensures this.store == store && working == map[] && issued == map[] && sends == []
    {
      this.store := store;
      working, issued, sends := map[], map[], [];
    }

    function View(): State
      reads this, store
    {
      State(store.tables, working, issued, sends)
    }

    /** Any number of any steps of any others. */
    method Others(token: string) returns (ghost steps: seq<Step>)
      modifies this, store
      ensures Path(old(View()), steps, View()) && NoneBy(steps, token)
    {
      hide Enabled, Apply, By;
      steps := [];
      var n: int := *;
      while n > 0
        invariant Path(old(View()), steps, View()) && NoneBy(steps, token)
      {
        var step: Step := *;
        ghost var before := View();
        if Enabled(View(), step) && !By(step, token) {
          var t := Apply(View(), step);
          store.tables, working, issued, sends := t.tables, t.working, t.issued, t.sends;
          PathOne(before, step);
          PathConcat(old(View()), steps, before, [step], View());
          steps := steps + [step];
        }
        n := n - 1;
      }
    }

    /** `claimNextJob`, and what the worker keeps of it. */
    method ClaimOne(worker: string, token: string, locked: set<string>, now: int) returns (choice: Option<string>)
      requires token !in issued
      modifies this, store
      ensures var claim := Claim(worker, token, now, locked, choice);
        Enabled(old(View()), claim) && View() == Apply(old(View()), claim)
      ensures choice.Some? ==>
        && token in working && choice.value in store.tables.jobs
        && working[token] == Work(choice.value, worker, store.tables.jobs[choice.value], Claimed)
      ensures choice.Some? ==>
        var was := old(store.tables.jobs);
        && choice.value in was && working[token].row.attempts == was[choice.value].attempts
        && working[token].row.maxAttempts == was[choice.value].maxAttempts
    {
      hide ClaimJobs, IsNext, Apply, Enabled;
      choice := store.ClaimNextJob(worker, token, now, locked);
      ClaimedState(old(View()), Claim(worker, token, now, locked, choice));
      if choice.Some? {
        issued := issued[token := choice.value];
        working := working[token := Work(choice.value, worker, store.tables.jobs[choice.value], Claimed)];
      }
    }

    /** The attempt to send. */
    method Send(token: string, sending: Sending)
      requires token in working && working[token].stage == Claimed
      modifies this
      ensures Enabled(old(View()), SendStep(token, sending)) && View() == Apply(old(View()), SendStep(token, sending))
      ensures token in working && working[token] == old(working)[token].(stage := SentStage(sending))
    {
      hide Apply, Enabled;
      SentState(View(), token, sending);
      if !sending.Unsendable? { sends := sends + [(working[token].jobId, token)]; }
      working := working[token := working[token].(stage := SentStage(sending))];
    }

    /** Recording the delivery throws. */
    method Raise(token: string, e: SendError)
      requires token in working && working[token].stage.Delivered?
      modifies this
      ensures Enabled(old(View()), MarkDeliveredRaises(token, e)) && View() == Apply(old(View()), MarkDeliveredRaises(token, e))
      ensures token in working && working[token] == old(working)[token].(stage := Failing(e))
    {
      hide Apply, Enabled;
      RaisedState(View(), token, e);
      working := working[token := working[token].(stage := Failing(e))];
    }

    /** The last statement of the round. */
    method Mark(token: string, later: int, sending: Sending, raised: Option<SendError>) returns (status: string)
      requires token in working && working[token].stage == LastStage(sending, raised)
      modifies this, store
      ensures var mark := MarkStep(token, later, sending, raised);
        Enabled(old(View()), mark) && View() == Apply(old(View()), mark)
      ensures store.tables == MarkedTables(old(store.tables), old(working)[token], token, later, sending, raised)
      ensures sends == old(sends) && status == Reported(old(working)[token].row, sending, raised)
    {
      hide Apply, Enabled, DeliverTables, FailTables;
      MarkedState(View(), token, later, sending, raised);
      var w := working[token];
      working := working - {token};
      var error := match sending case Accepted(_) => raised case Refused(e) => Some(e) case Unsendable(e) => Some(e);
      if error.None? {
        var linked := store.MarkDelivered(w.jobId, w.worker, token, sending.providerMessageId);
        return "sent";
      }
      var dead := store.MarkFailed(w.jobId, w.worker, token, w.row, error.value, later);
      return if dead then "dead_letter" else "retrying";
    }
  }

  /** Without others the last statement finds the tables as the claim left them. */
  lemma Undisturbed(s: State, claim: Step, sending: Sending, raised: Option<SendError>, last: State)
    requires claim.Claim? && claim.choice.Some? && Enabled(s, claim)
    requires Path(s, Round(claim, claim.token, sending, raised, NOTHING), last)
    ensures last.tables == Apply(s, claim).tables
    ensures last.sends == s.sends + if sending.Unsendable? then [] else [(claim.choice.value, claim.token)]
  {
    hide Apply, Enabled, ClaimJobs, Path;
    var token := claim.token;
    var send, rest := SendStep(token, sending), RaiseSteps(token, sending, raised);
    assert Round(claim, token, sending, raised, NOTHING) == [claim] + ([send] + rest);
    PathTail(s, claim, [send] + rest, last);
    ClaimedState(s, claim);
    var s1 := Apply(s, claim);
    PathTail(s1, send, rest, last);
    SentState(s1, token, sending);
    var s2 := Apply(s1, send);
    if rest == [] {
      PathNothing(s2, last);
    } else {
      RaisedState(s2, token, raised.value);
      assert rest == [rest[0]] + [];
      PathTail(s2, rest[0], [], last);
      PathNothing(Apply(s2, rest[0]), last);
    }
  }

  function RaiseSteps(token: string, sending: Sending, raised: Option<SendError>): seq<Step> {
    if sending.Accepted? && raised.Some? then [MarkDeliveredRaises(token, raised.value)] else []
  }

  lemma PathTail(s: State, step: Step, rest: seq<Step>, t: State)
    requires Path(s, [step] + rest, t)
    ensures Enabled(s, step) && Path(Apply(s, step), rest, t)
  {
    hide Enabled, Apply;
    assert ([step] + rest)[1..] == rest;
  }

  lemma PathNothing(s: State, t: State)
    requires Path(s, [], t)
    ensures s == t
  {
  }

  lemma UndisturbedEnds(jobs: map<string, Job>, worker: string, token: string, now: int, locked: set<string>, id: string,
                        after: map<string, Job>, status: string, later: int, sending: Sending, raised: Option<SendError>)
    requires IsNext(jobs, now, locked, Some(id))
    ensures id in jobs
    ensures var claimed := ClaimJobs(jobs, worker, token, now, Some(id));
      && id in claimed && Holds(claimed, id, worker, token)
      && (OnlyChanges(claimed, after, id) && Ended(claimed[id], after[id], status, later, sending, raised) ==>
            && after.Keys == jobs.Keys && Ended(jobs[id], after[id], status, later, sending, raised)
            && forall other | other in jobs && other != id :: after[other] == ParkExpired(jobs, now)[other])
  {
    hide RetryDelay, Terminal, Claimable;
  }

  lemma EnabledClaim(s: State, claim: Step)
    requires claim.Claim? && Enabled(s, claim)
    ensures IsNext(s.tables.jobs, claim.now, claim.locked, claim.choice)
  {
  }

  /** Where the attempts have led, given what others did in between. */
  method Attempt(world: World, token: string, sending: Sending, raised: Option<SendError>)
    returns (ghost between: Between, ghost steps: seq<Step>)
    requires token in world.working && world.working[token].stage == Claimed
    modifies world, world.store
    ensures steps == between.afterClaim + [SendStep(token, sending)] + between.afterSend
      + if sending.Accepted? && raised.Some? then [MarkDeliveredRaises(token, raised.value)] + between.afterError else []
    ensures Path(old(world.View()), steps, world.View())
    ensures NoneBy(between.afterClaim + between.afterSend + between.afterError, token)
    ensures token in world.working
      && world.working[token] == old(world.working)[token].(stage := LastStage(sending, raised))
  {
    hide Path, Apply, Enabled, By;
    ghost var s1 := world.View();
    ghost var o1 := world.Others(token);
    ghost var s2 := world.View();
    OthersKeep(s1, o1, s2, token);
    world.Send(token, sending);
    ghost var s3 := world.View();
    PathOne(s2, SendStep(token, sending));
    PathConcat(s1, o1, s2, [SendStep(token, sending)], s3);
    ghost var o2 := world.Others(token);
    ghost var s4 := world.View();
    OthersKeep(s3, o2, s4, token);
    PathConcat(s1, o1 + [SendStep(token, sending)], s3, o2, s4);
    steps := o1 + [SendStep(token, sending)] + o2;
    ghost var o3: seq<Step> := [];
    if sending.Accepted? && raised.Some? {
      world.Raise(token, raised.value);
      ghost var s5 := world.View();
      o3 := world.Others(token);
      OthersKeep(s5, o3, world.View(), token);
      PathOne(s4, MarkDeliveredRaises(token, raised.value));
      PathConcat(s4, [MarkDeliveredRaises(token, raised.value)], s5, o3, world.View());
      PathConcat(s1, steps, s4, [MarkDeliveredRaises(token, raised.value)] + o3, world.View());
      steps := steps + ([MarkDeliveredRaises(token, raised.value)] + o3);
    }
    between := Between(o1, o2, o3);
  }

  /**
   * `processOne`, with any steps of any others between its statements; `raised` is the error that recording the
   * delivery may throw. Together with theirs its own statements are steps of the protocol, one send among them. `last`
   * is the state that its last statement finds. If the lease is still held then, the round reports what became of the
   * job; if not, the statement changes nothing, and the report speaks for no one.
   */
  method ProcessOne(world: World, worker: string, token: string, locked: set<string>, now: int, later: int,
                    sending: Sending, raised: Option<SendError>)
    returns (report: Option<Report>, ghost between: Between, ghost last: State)
    requires Inv(world.View()) && token !in world.issued
    modifies world, world.store
    ensures Inv(world.View())
    ensures var claim := Claim(worker, token, now, locked, if report.None? then None else Some(report.value.id));
      && Enabled(old(world.View()), claim)
      && (report.None? ==> world.View() == Apply(old(world.View()), claim))
      && (report.Some? ==>
            && Path(old(world.View()), Round(claim, token, sending, raised, between), last)
            && NoneBy(between.afterClaim + between.afterSend + between.afterError, token)
            && Enabled(last, MarkStep(token, later, sending, raised))
            && world.View() == Apply(last, MarkStep(token, later, sending, raised)))
    ensures report.Some? ==>
      var id, was := report.value.id, old(world.store.tables.jobs);
      && id in was
      && report.value.status == match Failure(sending, raised)
         case None => "sent"
         case Some(e) =>
           if Terminal(e) || was[id].attempts + 1 >= was[id].maxAttempts then "dead_letter" else "retrying"
    ensures report.Some? ==>
      var id := report.value.id;
      if Holds(last.tables.jobs, id, worker, token) then
        && OnlyChanges(last.tables.jobs, world.store.tables.jobs, id)
        && Ended(last.tables.jobs[id], world.store.tables.jobs[id], report.value.status, later, sending, raised)
      else world.store.tables == last.tables
    ensures report.Some? && between == NOTHING ==>
      var id, was, jobs := report.value.id, old(world.store.tables.jobs), world.store.tables.jobs;
      && id in was && jobs.Keys == was.Keys && Ended(was[id], jobs[id], report.value.status, later, sending, raised)
      && (forall other | other in was && other != id :: jobs[other] == ParkExpired(was, now)[other])
      && world.sends == old(world.sends) + if sending.Unsendable? then [] else [(id, token)]
  {
    hide Inv, Path, Apply, Enabled, NoneBy, MarkedTables, ParkExpired, ClaimJobs, IsNext, Ended, Holds, OnlyChanges;
    ghost var s := world.View();
    between, last := NOTHING, s;
    var choice := world.ClaimOne(worker, token, locked, now);
    ghost var claim := Claim(worker, token, now, locked, choice);
    StepKeeps(s, claim);
    if choice.None? { return None, between, last; }
    var id := choice.value;
    ghost var s1 := world.View();
    PathOne(s, claim);
    ghost var steps;
    between, steps := Attempt(world, token, sending, raised);
    last := world.View();
    PathConcat(s, [claim], s1, steps, last);
    assert [claim] + steps == Round(claim, token, sending, raised, between);
    PathKeeps(s, Round(claim, token, sending, raised, between), last);
    ghost var w := world.working[token];
    var status := world.Mark(token, later, sending, raised);
    StepKeeps(last, MarkStep(token, later, sending, raised));
    if Holds(last.tables.jobs, id, worker, token) {
      MarkedEnds(last, token, later, sending, raised);
    } else {
      MarkedNothing(last.tables, w, token, later, sending, raised);
    }
    if between == NOTHING {
      EnabledClaim(s, claim);
      Undisturbed(s, claim, sending, raised, last);
      ClaimedState(s, claim);
      UndisturbedEnds(s.tables.jobs, worker, token, now, locked, id, world.store.tables.jobs, status, later, sending, raised);
    }
    return Some(Report(id, status)), between, last;
  }
}
