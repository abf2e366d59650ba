/**
 * Idempotent operations: modules/cli/operation-runner.js and modules/shared/idempotency-service.js inside the
 * transaction of bin/crm-cli.js.
 */
module OperationRunner {
  import opened Wrappers

  datatype Context = Context(tenantId: string, actorId: string, key: string, operation: string, request: string)

  /** The unique key of the table of claims. */
  datatype Key = Key(tenantId: string, key: string, operation: string)

  datatype Status = Processing | Completed | Failed

  datatype Record = Record(requestHash: string, status: Status, responseStatus: int, responseBody: string)

  datatype Outcome =
    | Done(replayed: bool, status: int, result: string)
    | ContextRequired
    | InProgress
    | PreviouslyFailed
    | Conflict
    | EffectFailed(error: string)

  /** What the effect does when it is called: it changes the business data and returns, or throws. */
  datatype Effect<Data> = Returns(data: Data, result: string) | Throws(error: string)

  predicate Complete(c: Context) { c.tenantId != "" && c.actorId != "" && c.key != "" && c.operation != "" }

  function KeyOf(c: Context): Key { Key(c.tenantId, c.key, c.operation) }

  /** What is answered when the key is taken. */
  function Answer(existing: Option<Record>, hash: string): Outcome {
    if existing.None? || existing.value.requestHash != hash then Conflict
    else if existing.value.status == Completed then Done(true, existing.value.responseStatus, existing.value.responseBody)
    else if existing.value.status == Processing then InProgress
    else PreviouslyFailed
  }

  function Lookup(keys: map<Key, Record>, key: Key): Option<Record> { if key in keys then Some(keys[key]) else None }

  // ----- one operation at a time

  datatype Tables<Data> = Tables(keys: map<Key, Record>, data: Data)

  /** The whole operation as one step, given what its effect would do to the data. */
  function RunAlone<Data>(t: Tables<Data>, c: Context, hash: string, effect: Effect<Data>): (Tables<Data>, Outcome) {
    if !Complete(c) then (t, ContextRequired)
    else if KeyOf(c) in t.keys then (t, Answer(Some(t.keys[KeyOf(c)]), hash))
    else if effect.Throws? then (t, EffectFailed(effect.error))
    else (Tables(t.keys[KeyOf(c) := Record(hash, Completed, 200, effect.result)], effect.data),
          Done(false, 200, effect.result))
  }

  /** A context that misses any of its four parts is refused, and nothing changes. */
  lemma RefusedTells<Data(!new)>(t: Tables<Data>, c: Context, hash: string, effect: Effect<Data>)
    ensures RunAlone(t, c, hash, effect).1 == ContextRequired
        <==> |c.tenantId| == 0 || |c.actorId| == 0 || |c.key| == 0 || |c.operation| == 0
    ensures RunAlone(t, c, hash, effect).1 == ContextRequired ==> RunAlone(t, c, hash, effect).0 == t
  {
  }

  /** What a taken key is answered, by the record that holds it. */
  lemma AnswerTells<Data(!new)>(t: Tables<Data>, c: Context, hash: string, effect: Effect<Data>)
    requires Complete(c) && Key(c.tenantId, c.key, c.operation) in t.keys
    ensures var record := t.keys[Key(c.tenantId, c.key, c.operation)];
      RunAlone(t, c, hash, effect)
      == (t, if record.requestHash != hash then Conflict else
             match record.status
             case Completed => Done(true, record.responseStatus, record.responseBody)
             case Processing => InProgress
             case Failed => PreviouslyFailed)
  {
  }

  /** The database, seen by one operation at a time. */
  class Database<Data(==)> {
    var keys: map<Key, Record>
    var data: Data

    constructor (data: Data)
      ensures keys == map[] && this.data == data
    {
      keys, this.data := map[], data;
    }

    ghost function View(): Tables<Data>
      reads this
    {
      Tables(keys, data)
    }

    /** `claimIdempotency`; the second result is `None` for a claim, or else what the taken key is answered. */
    method Claim(c: Context, hash: string) returns (claimed: bool, answer: Option<Record>)
      modifies this`keys
      ensures claimed <==> KeyOf(c) !in old(keys)
      ensures claimed ==> keys == old(keys)[KeyOf(c) := Record(hash, Processing, 0, "")] && answer == None
      ensures !claimed ==> keys == old(keys) && answer == Some(keys[KeyOf(c)])
    {
      if KeyOf(c) !in keys {
        keys := keys[KeyOf(c) := Record(hash, Processing, 0, "")];
        return true, None;
      }
      return false, Lookup(keys, KeyOf(c));
    }

    /** `resolveIdempotency`: only a claim in progress is completed. */
    method Resolve(c: Context, status: int, body: string)
      modifies this`keys
      ensures keys == match Lookup(old(keys), KeyOf(c))
                      case Some(Record(hash, Processing, _, _)) => old(keys)[KeyOf(c) := Record(hash, Completed, status, body)]
                      case _ => old(keys)
    {
      var row := Lookup(keys, KeyOf(c));
      if row.Some? && row.value.status == Processing {
        keys := keys[KeyOf(c) := row.value.(status := Completed, responseStatus := status, responseBody := body)];
      }
    }

    /** `run` within its transaction: a thrown error restores both the claims and the data. */
    method Run(c: Context, hash: string, effect: Data -> Effect<Data>) returns (outcome: Outcome)
      modifies this
      ensures (View(), outcome) == RunAlone(old(View()), c, hash, effect(old(data)))
    {
      if !Complete(c) { return ContextRequired; }
      var savedKeys, savedData := keys, data;
      var claimed, existing := Claim(c, hash);
      if !claimed {
        outcome := Answer(existing, hash);
        return;
      }
      var e := effect(data);
      if e.Throws? {
        keys, data := savedKeys, savedData;
        return EffectFailed(e.error);
      }
      data := e.data;
      Resolve(c, 200, e.result);
      assert keys == savedKeys[KeyOf(c) := Record(hash, Completed, 200, e.result)];
      return Done(false, 200, e.result);
    }
  }

  // ----- concurrent transactions

  /** An effect that has been committed, with the request it was for. */
  datatype Entry = Entry(key: Key, hash: string, result: string)

  /**
   * How far a transaction has come. A claim it has inserted, and later completed, is visible to no one else before the
   * commit.
   */
  datatype Phase =
    | Started
    | Taken
    | Claimed(record: Record)
    | Performed(record: Record, result: string)
    | Resolved(record: Record, result: string)

  datatype Tx = Tx(context: Context, hash: string, phase: Phase)

  /**
   * The committed claims and effects, the open transactions, what has been answered to whom, and the effects whose
   * commit was never acknowledged.
   */
  datatype State =
    State(keys: map<Key, Record>, log: seq<Entry>, open: map<nat, Tx>, answers: seq<(Context, string, Outcome)>,
          lost: seq<Entry>)

  const EMPTY: State := State(map[], [], map[], [], [])

  predicate Holding(tx: Tx) { tx.phase.Claimed? || tx.phase.Performed? || tx.phase.Resolved? }

  /** An insert waits while another open transaction has inserted the same key. */
  predicate Free(s: State, t: nat, key: Key) {
    forall u | u in s.open && u != t && Holding(s.open[u]) :: KeyOf(s.open[u].context) != key
  }

  datatype Step =
    | Begin(t: nat, context: Context, hash: string)
    | Insert(t: nat)
    | Read(t: nat)
    | Perform(t: nat, effect: Option<string>, error: string)
    | Resolve(t: nat)
    | Commit(t: nat, acknowledged: bool)
    | Abort(t: nat)

  predicate Enabled(s: State, step: Step) {
    match step
    case Begin(t, context, _) => t !in s.open && Complete(context)
    case Insert(t) => t in s.open && s.open[t].phase.Started? && Free(s, t, KeyOf(s.open[t].context))
    case Read(t) => t in s.open && s.open[t].phase.Taken?
    case Perform(t, _, _) => t in s.open && s.open[t].phase.Claimed?
    case Resolve(t) => t in s.open && s.open[t].phase.Performed?
    case Commit(t, _) => t in s.open && s.open[t].phase.Resolved?
    case Abort(t) => t in s.open
  }

  function At(s: State, t: nat, phase: Phase): State
    requires t in s.open
  {
    s.(open := s.open[t := s.open[t].(phase := phase)])
  }

  /** The transaction ends, answering its caller. */
  function Ended(s: State, t: nat, outcome: Outcome): State
    requires t in s.open
  {
    s.(open := s.open - {t}, answers := s.answers + [(s.open[t].context, s.open[t].hash, outcome)])
  }

  function Apply(s: State, step: Step): State
    requires Enabled(s, step)
  {
    match step
    case Begin(t, context, hash) => s.(open := s.open[t := Tx(context, hash, Started)])
    case Insert(t) =>
      if KeyOf(s.open[t].context) in s.keys then At(s, t, Taken)
      else At(s, t, Claimed(Record(s.open[t].hash, Processing, 0, "")))
    case Read(t) => Ended(s, t, Answer(Lookup(s.keys, KeyOf(s.open[t].context)), s.open[t].hash))
    case Perform(t, effect, error) =>
      if effect.Some? then At(s, t, Performed(s.open[t].phase.record, effect.value)) else Ended(s, t, EffectFailed(error))
    case Resolve(t) =>
      var p := s.open[t].phase;
      At(s, t, Resolved(p.record.(status := Completed, responseStatus := 200, responseBody := p.result), p.result))
    case Commit(t, acknowledged) =>
      var tx := s.open[t];
      var entry := Entry(KeyOf(tx.context), tx.hash, tx.phase.result);
      var committed := s.(keys := s.keys[KeyOf(tx.context) := tx.phase.record], log := s.log + [entry]);
      if acknowledged then Ended(committed, t, Done(false, 200, tx.phase.result))
      else committed.(open := s.open - {t}, lost := s.lost + [entry])
    case Abort(t) => s.(open := s.open - {t})
  }

  // ----- what every step keeps

  /** Each committed effect has its own key, whose claim is completed with the effect's result. */
  predicate LogMatches(s: State) {
    && (forall i, j | 0 <= i < j < |s.log| :: s.log[i].key != s.log[j].key)
    && (forall i | 0 <= i < |s.log| ::
          s.log[i].key in s.keys && s.keys[s.log[i].key] == Record(s.log[i].hash, Completed, 200, s.log[i].result))
  }

  predicate Logged(s: State) { forall k | k in s.keys :: exists i :: 0 <= i < |s.log| && s.log[i].key == k }

  /** At most one open transaction holds a key, and none holds a committed one. */
  predicate HoldersExclusive(s: State) {
    && (forall t | t in s.open && Holding(s.open[t]) :: KeyOf(s.open[t].context) !in s.keys)
    && (forall t, u | t in s.open && u in s.open && t != u && Holding(s.open[t]) && Holding(s.open[u]) ::
          KeyOf(s.open[t].context) != KeyOf(s.open[u].context))
  }

  predicate TxSound(tx: Tx, keys: map<Key, Record>) {
    && Complete(tx.context)
    && (tx.phase.Taken? ==> KeyOf(tx.context) in keys)
    && (tx.phase.Claimed? || tx.phase.Performed? ==> tx.phase.record == Record(tx.hash, Processing, 0, ""))
    && (tx.phase.Resolved? ==> tx.phase.record == Record(tx.hash, Completed, 200, tx.phase.result))
  }

  predicate TxsSound(s: State) { forall t | t in s.open :: TxSound(s.open[t], s.keys) }

  /** Every answer can be read off the log: a result is that of the effect committed under the key and request. */
  predicate AnswerSound(log: seq<Entry>, c: Context, hash: string, o: Outcome) {
    match o
    case Done(_, status, result) => status == 200 && Entry(KeyOf(c), hash, result) in log
    case Conflict => exists i :: 0 <= i < |log| && log[i].key == KeyOf(c) && log[i].hash != hash
    case EffectFailed(_) => true
    case _ => false
  }

  predicate AnswersSound(s: State) {
    forall i | 0 <= i < |s.answers| :: AnswerSound(s.log, s.answers[i].0, s.answers[i].1, s.answers[i].2)
  }

  /** The answers of operations that were carried out rather than replayed. */
  function Performances(answers: seq<(Context, string, Outcome)>): seq<Entry> {
    if answers == [] then []
    else
      var n := |answers| - 1;
      Performances(answers[..n]) + PerformanceOf(answers[n])
  }

  /** Each committed effect was answered as performed once, or its acknowledgement was lost. */
  predicate Accounted(s: State) { multiset(s.log) == multiset(Performances(s.answers)) + multiset(s.lost) }

  predicate Inv(s: State) {
    LogMatches(s) && Logged(s) && HoldersExclusive(s) && TxsSound(s) && AnswersSound(s) && Accounted(s)
  }

  lemma CommitEffect(s: State, t: nat, acknowledged: bool)
    requires HoldersExclusive(s) && TxsSound(s) && Enabled(s, Commit(t, acknowledged))
    ensures t in s.open
    ensures var tx, after := s.open[t], Apply(s, Commit(t, acknowledged));
      && KeyOf(tx.context) !in s.keys
      && after.keys == s.keys[KeyOf(tx.context) := Record(tx.hash, Completed, 200, tx.phase.result)]
      && after.log == s.log + [Entry(KeyOf(tx.context), tx.hash, tx.phase.result)]
  {
    hide Free;
    assert Holding(s.open[t]) && TxSound(s.open[t], s.keys);
  }

  lemma CommitLog(s: State, t: nat, acknowledged: bool)
    requires LogMatches(s) && Logged(s) && HoldersExclusive(s) && TxsSound(s) && Enabled(s, Commit(t, acknowledged))
    ensures LogMatches(Apply(s, Commit(t, acknowledged))) && Logged(Apply(s, Commit(t, acknowledged)))
  {
    hide Enabled, Apply, HoldersExclusive, TxsSound;
    CommitEffect(s, t, acknowledged);
    var key, after := KeyOf(s.open[t].context), Apply(s, Commit(t, acknowledged));
    assert after.log[|s.log|].key == key;
    forall k | k in after.keys ensures exists i :: 0 <= i < |after.log| && after.log[i].key == k {
      if k in s.keys {
        var i :| 0 <= i < |s.log| && s.log[i].key == k;
        assert after.log[i] == s.log[i];
      }
    }
  }

  lemma OnlyCommitsWrite(s: State, step: Step)
    requires Enabled(s, step) && !step.Commit?
    ensures Apply(s, step).keys == s.keys && Apply(s, step).log == s.log
  {
    hide Free, Answer, Complete;
  }

  lemma StepLog(s: State, step: Step)
    requires Inv(s) && Enabled(s, step)
    ensures LogMatches(Apply(s, step)) && Logged(Apply(s, step))
  {
    hide AnswersSound, Performances, Apply, HoldersExclusive, TxsSound, Enabled;
    if step.Commit? { CommitLog(s, step.t, step.acknowledged); } else { OnlyCommitsWrite(s, step); }
  }

  lemma StepExclusive(s: State, step: Step)
    requires Inv(s) && Enabled(s, step)
    ensures HoldersExclusive(Apply(s, step))
  {
    hide LogMatches, Logged, AnswersSound, Performances, TxsSound;
  }

  lemma StepTxs(s: State, step: Step)
    requires Inv(s) && Enabled(s, step)
    ensures TxsSound(Apply(s, step))
  {
    hide LogMatches, Logged, AnswersSound, Performances, HoldersExclusive;
  }

  lemma AnswerStillSound(log: seq<Entry>, more: seq<Entry>, c: Context, hash: string, o: Outcome)
    requires AnswerSound(log, c, hash, o) && log <= more
    ensures AnswerSound(more, c, hash, o)
  {
    if o.Conflict? {
      var i :| 0 <= i < |log| && log[i].key == KeyOf(c) && log[i].hash != hash;
      assert more[i] == log[i];
    }
  }

  lemma ReadSound(s: State, t: nat)
    requires Inv(s) && Enabled(s, Read(t))
    ensures var tx := s.open[t];
      AnswerSound(s.log, tx.context, tx.hash, Answer(Lookup(s.keys, KeyOf(tx.context)), tx.hash))
  {
    hide Performances, HoldersExclusive, AnswersSound;
    var tx := s.open[t];
    assert TxSound(tx, s.keys);
    var i :| 0 <= i < |s.log| && s.log[i].key == KeyOf(tx.context);
    assert s.log[i] in s.log;
  }

  lemma CommitSound(s: State, t: nat)
    requires Enabled(s, Commit(t, true))
    ensures var tx := s.open[t];
      AnswerSound(Apply(s, Commit(t, true)).log, tx.context, tx.hash, Done(false, 200, tx.phase.result))
  {
    var after := Apply(s, Commit(t, true));
    assert after.log[|s.log|] in after.log;
  }

  /** The answer that a step gives is sound. */
  lemma NewAnswerSound(s: State, step: Step)
    requires Inv(s) && Enabled(s, step) && Apply(s, step).answers != s.answers
    ensures var after := Apply(s, step);
      |after.answers| == |s.answers| + 1
      && var (c, hash, o) := after.answers[|s.answers|];
         AnswerSound(after.log, c, hash, o)
  {
    hide Inv, Answer, Lookup;
    if step.Read? { ReadSound(s, step.t); }
    if step.Commit? && step.acknowledged { CommitSound(s, step.t); }
  }

  lemma StepAnswers(s: State, step: Step)
    requires Inv(s) && Enabled(s, step)
    ensures AnswersSound(Apply(s, step))
  {
    hide Inv, Enabled, Apply, AnswerSound;
    assert AnswersSound(s) by { InvAnswers(s); }
    var after := Apply(s, step);
    AnswersGrow(s, step);
    forall i | 0 <= i < |after.answers|
      ensures AnswerSound(after.log, after.answers[i].0, after.answers[i].1, after.answers[i].2)
    {
      if i < |s.answers| {
        AnswerStillSound(s.log, after.log, s.answers[i].0, s.answers[i].1, s.answers[i].2);
      } else {
        NewAnswerSound(s, step);
      }
    }
  }

  lemma InvAnswers(s: State)
    requires Inv(s)
    ensures AnswersSound(s)
  {
  }

  lemma AnswersGrow(s: State, step: Step)
    requires Enabled(s, step)
    ensures var after := Apply(s, step);
      s.log <= after.log && s.answers <= after.answers && |after.answers| <= |s.answers| + 1
  {
  }

  /** The entry that an answer stands for, when it says that an operation was carried out. */
  function PerformanceOf(answer: (Context, string, Outcome)): seq<Entry> {
    match answer.2
    case Done(false, _, result) => [Entry(KeyOf(answer.0), answer.1, result)]
    case _ => []
  }

  lemma PerformancesPush(answers: seq<(Context, string, Outcome)>, answer: (Context, string, Outcome))
    ensures Performances(answers + [answer]) == Performances(answers) + PerformanceOf(answer)
  {
    assert (answers + [answer])[..|answers|] == answers;
  }

  lemma StepLost(s: State, step: Step)
    requires Inv(s) && Enabled(s, step)
    ensures var after := Apply(s, step);
      if !step.Commit? then after.lost == s.lost && after.log == s.log
      else
        var tx := s.open[step.t];
        var entry := Entry(KeyOf(tx.context), tx.hash, tx.phase.result);
        after.log == s.log + [entry] && after.lost == s.lost + if step.acknowledged then [] else [entry]
  {
    hide LogMatches, Logged, HoldersExclusive, AnswersSound, TxsSound, Accounted, Free, Answer, Lookup;
  }

  /** Only commits answer that an operation was carried out. */
  lemma EndsPerform(s: State, step: Step)
    requires Enabled(s, step) && Ends(s, step).Some?
    ensures step.t in s.open
    ensures var tx := s.open[step.t];
      PerformanceOf((tx.context, tx.hash, Ends(s, step).value))
      == if step.Commit? then [Entry(KeyOf(tx.context), tx.hash, tx.phase.result)] else []
  {
    hide Free;
  }

  lemma NoCommitQuiet(s: State, step: Step)
    requires Enabled(s, step) && step.Commit?
    ensures Ends(s, step).Some?
  {
  }

  lemma StepAccounted(s: State, step: Step)
    requires Inv(s) && Enabled(s, step)
    ensures Accounted(Apply(s, step))
  {
    hide LogMatches, Logged, HoldersExclusive, AnswersSound, TxsSound, Apply, Enabled, Performances, RunAlone, EffectIn,
      PerformanceOf, Ends, KeyOf;
    StepRefines(s, step);
    if step.Commit? { NoCommitQuiet(s, step); }
    StepLost(s, step);
    if Ends(s, step).Some? {
      EndsPerform(s, step);
      var tx := s.open[step.t];
      PerformancesPush(s.answers, (tx.context, tx.hash, Ends(s, step).value));
      assert s.answers + [] == s.answers && Performances(s.answers) + [] == Performances(s.answers) && s.lost + [] == s.lost;
    }
  }

  lemma StepKeeps(s: State, step: Step)
    requires Inv(s) && Enabled(s, step)
    ensures Inv(Apply(s, step))
  {
    hide LogMatches, Logged, HoldersExclusive, AnswersSound, Apply, Enabled, Accounted;
    StepLog(s, step);
    StepExclusive(s, step);
    StepTxs(s, step);
    StepAnswers(s, step);
    StepAccounted(s, step);
  }

  // ----- runs

  predicate IsRun(states: seq<State>, steps: seq<Step>) {
    && |states| == |steps| + 1
    && forall i | 0 <= i < |steps| :: Enabled(states[i], steps[i]) && states[i + 1] == Apply(states[i], steps[i])
  }

  lemma {:induction false} RunKeeps(states: seq<State>, steps: seq<Step>, i: nat)
    requires IsRun(states, steps) && Inv(states[0]) && i <= |steps|
    ensures Inv(states[i])
  {
    hide Inv, Enabled, Apply;
    if i > 0 {
      RunKeeps(states, steps, i - 1);
      StepKeeps(states[i - 1], steps[i - 1]);
    }
  }

  lemma EmptyInv()
    ensures Inv(EMPTY)
  {
  }

  /**
   * In every run: no two committed effects share a key; an operation is never told that another is in progress or has
   * failed before; equal requests under one key are answered with one result, whether carried out or replayed; and a
   * request that differs is never answered with a result.
   */
  lemma AtMostOneEffect(states: seq<State>, steps: seq<Step>, n: nat)
    requires IsRun(states, steps) && states[0] == EMPTY && n <= |steps|
    ensures forall i, j | 0 <= i < j < |states[n].log| :: states[n].log[i].key != states[n].log[j].key
    ensures multiset(states[n].log) == multiset(Performances(states[n].answers)) + multiset(states[n].lost)
    ensures forall i | 0 <= i < |states[n].answers| ::
      !states[n].answers[i].2.InProgress? && !states[n].answers[i].2.PreviouslyFailed?
    ensures forall i, j | 0 <= i < |states[n].answers| && 0 <= j < |states[n].answers| ::
      AnswersAgree(states[n].answers[i], states[n].answers[j])
  {
    hide IsRun, Apply, Enabled, Performances, Logged, HoldersExclusive, TxsSound;
    EmptyInv();
    RunStart(states, steps);
    RunKeeps(states, steps, n);
    var s := states[n];
    forall i, j | 0 <= i < |s.answers| && 0 <= j < |s.answers| ensures AnswersAgree(s.answers[i], s.answers[j]) {
      assert AnswerSound(s.log, s.answers[i].0, s.answers[i].1, s.answers[i].2);
      assert AnswerSound(s.log, s.answers[j].0, s.answers[j].1, s.answers[j].2);
    }
  }

  lemma RunStart(states: seq<State>, steps: seq<Step>)
    requires IsRun(states, steps)
    ensures |states| == |steps| + 1
  {
  }

  /** Two results under one key are the same result of the same request. */
  predicate AnswersAgree(a: (Context, string, Outcome), b: (Context, string, Outcome)) {
    a.2.Done? && b.2.Done? && KeyOf(a.0) == KeyOf(b.0) ==> a.1 == b.1 && a.2.result == b.2.result
  }

  /** A claim that has been committed is never changed again. */
  lemma {:induction false} ClaimsPermanent(states: seq<State>, steps: seq<Step>, i: nat, j: nat, key: Key)
    requires IsRun(states, steps) && states[0] == EMPTY && i <= j <= |steps| && key in states[i].keys
    ensures key in states[j].keys && states[j].keys[key] == states[i].keys[key]
    decreases j
  {
    hide Inv, Enabled, Apply;
    if i < j {
      ClaimsPermanent(states, steps, i, j - 1, key);
      EmptyInv();
      RunKeeps(states, steps, j - 1);
      StepClaims(states[j - 1], steps[j - 1], key);
    }
  }

  lemma StepClaims(s: State, step: Step, key: Key)
    requires Inv(s) && Enabled(s, step) && key in s.keys
    ensures key in Apply(s, step).keys && Apply(s, step).keys[key] == s.keys[key]
  {
    hide LogMatches, Logged, AnswersSound, Performances, TxsSound;
  }

  /**
   * A failed effect, like a lost connection, frees its key: nobody who tries to claim it afterwards waits for it, and
   * the first who does gets it.
   */
  lemma FailureFreesKey(s: State, step: Step, u: nat)
    requires Inv(s) && Enabled(s, step) && (step.Abort? || (step.Perform? && step.effect.None?))
    requires Holding(s.open[step.t]) && u in s.open && u != step.t && s.open[u].phase.Started?
    requires KeyOf(s.open[u].context) == KeyOf(s.open[step.t].context)
    ensures !Enabled(s, Insert(u))
    ensures var after := Apply(s, step);
      Enabled(after, Insert(u)) && Apply(after, Insert(u)).open[u].phase.Claimed?
  {
    hide LogMatches, Logged, AnswersSound, Performances, TxsSound;
  }

  // ----- concurrent runs against one operation at a time

  /** What the effect does, in a step that ends an operation. */
  function EffectIn(s: State, step: Step): Effect<seq<Entry>>
    requires Enabled(s, step)
  {
    match step
    case Perform(_, _, error) => Throws(error)
    case Commit(t, _) =>
      var tx := s.open[t];
      Returns(s.log + [Entry(KeyOf(tx.context), tx.hash, tx.phase.result)], tx.phase.result)
    case _ => Throws("")
  }

  /** What a step tells the caller, if it tells anything, and what it would if its acknowledgement arrived. */
  function Ends(s: State, step: Step): Option<Outcome>
    requires Enabled(s, step)
  {
    match step
    case Read(t) => Some(Answer(Lookup(s.keys, KeyOf(s.open[t].context)), s.open[t].hash))
    case Perform(_, effect, error) => if effect.None? then Some(EffectFailed(error)) else None
    case Commit(t, _) => Some(Done(false, 200, s.open[t].phase.result))
    case _ => None
  }

  /**
   * Every step either leaves the committed tables alone and answers nobody, or it does at once, to tables and caller,
   * what the whole operation would have done alone; only that the acknowledgement of a commit may be lost.
   */
  lemma StepRefines(s: State, step: Step)
    requires Inv(s) && Enabled(s, step)
    ensures var after := Apply(s, step);
      match Ends(s, step)
      case None => after.keys == s.keys && after.log == s.log && after.answers == s.answers
      case Some(o) =>
        var tx := s.open[step.t];
        && RunAlone(Tables(s.keys, s.log), tx.context, tx.hash, EffectIn(s, step)) == (Tables(after.keys, after.log), o)
        && after.answers == s.answers + (if step.Commit? && !step.acknowledged then [] else [(tx.context, tx.hash, o)])
  {
    hide LogMatches, Logged, AnswersSound, Performances;
    if Ends(s, step).Some? { assert TxSound(s.open[step.t], s.keys); }
  }
}
