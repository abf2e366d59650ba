/** A run of the inbound protocol that ends where a message can never be stored. */
module InboundExample {
  import opened Wrappers
  import opened JsonValue
  import opened InboundMessage
  import opened WebhookInbox
  import opened InboundProtocol
  import opened WebhookWorker

  /** A path from an initial state is a run. */
  lemma {:induction false} PathIsRun(run: seq<State>, s: State, steps: seq<Step>, t: State, hash: LockHash)
    returns (longer: seq<State>)
    requires IsRun(run, hash) && run[|run| - 1] == s && Path(s, steps, t, hash)
    ensures IsRun(longer, hash) && longer[|longer| - 1] == t && run <= longer
    decreases |steps|
  {
    hide Enabled, Apply, Init;
    if steps == [] {
      longer := run;
    } else {
      var next := Apply(s, steps[0], hash);
      assert Next(s, next, hash);
      longer := PathIsRun(run + [next], next, steps[1..], t, hash);
    }
  }

  const NO_ROWS: State := State(map[], map[], map[], map[], map[], map[], {}, map[])

  /** Two messages of one sender with one timestamp. */
  function Event(id: string): Payload { Payload(id, MessageKind, Obj([Prop("from", Str("p"))]), Null, Some(0)) }

  function Queued(id: string): Row { NewRow("c", "t", Event(id), 0) }

  const BOTH: map<string, Row> := map["r1" := Queued("m1"), "r2" := Queued("m2")]

  lemma EventParts(id: string)
    ensures var m := Event(id).message;
      Get(m, "type") == Null && Get(m, "text") == Null && Get(m, "from") == Str("p")
    ensures Event(id).contacts == Null && Event(id).timestampMs == Some(0)
  {
    var m := Event(id).message;
    assert Lookup(m.props[1..], "type") == Null && Lookup(m.props[1..], "text") == Null;
  }

  lemma NoType(m: Json)
    requires Get(m, "type") == Null && Get(m, "text") == Null
    ensures IncomingBody(m) == "[mensagem recebida]"
  {
    assert "[" + "mensagem" + " recebida]" == "[mensagem recebida]";
  }

  lemma FromOnly(p: Payload)
    requires Get(p.message, "from") == Str("p") && p.contacts == Null
    ensures PhoneOf(p) == "p" && NameOf(p) == Some("p")
  {
  }

  lemma EventReads(id: string)
    ensures PhoneOf(Event(id)) == "p" && BodyOf(Event(id)) == "[mensagem recebida]" && NameOf(Event(id)) == Some("p")
    ensures BodyOk(Event(id)) && NameOk(Event(id)) && TimeOf(Event(id), 0) == 0
  {
    hide Event, Get, IncomingBody, NameOf, PhoneOf;
    EventParts(id);
    NoType(Event(id).message);
    FromOnly(Event(id));
  }

  lemma Receiving(hash: LockHash)
    ensures var step := Receive("c", "t", [Event("m1"), Event("m2")], ["r1", "r2"], 0);
      Enabled(NO_ROWS, step, hash) && Apply(NO_ROWS, step, hash) == NO_ROWS.(rows := BOTH)
  {
    var events, ids := [Event("m1"), Event("m2")], ["r1", "r2"];
    assert events[..1] == [Event("m1")] && ids[..1] == ["r1"] && events[..1][..0] == [] && ids[..1][..0] == [];
    assert ReceiveAll(map[], "c", "t", events[..1][..0], ids[..1][..0], 0) == (map[], 0);
    assert ReceiveAll(map[], "c", "t", events[..1], ids[..1], 0).0 == map["r1" := Queued("m1")];
    assert ReceiveAll(map[], "c", "t", events, ids, 0).0 == BOTH;
  }

  /** The state once the first message has been stored by a worker that has not marked it yet. */
  function FirstStored(): State {
    State(BOTH["r1" := Leased(Queued("m1"), "w", "x", 0)],
          map["k" := Conversation("t", "c", "p", true)],
          map["a" := Message("t", "c", "m1", "k", "[mensagem recebida]")],
          map["e" := Created("t", "k", 0, "a")],
          map["x" := Work("r1", "w", Leased(Queued("m1"), "w", "x", 0), Finished)], map[], {"x"}, map[])
  }

  lemma FirstNext()
    ensures IsNext(BOTH, 0, {}, Some("r1")) && IsNext(FirstStored().rows, 0, {}, Some("r2"))
  {
  }

  /** The first message, from its claim to its commit. */
  lemma StoreFirst(hash: LockHash) returns (steps: seq<Step>)
    ensures Path(NO_ROWS.(rows := BOTH), steps, FirstStored(), hash)
  {
    hide Enabled, Apply, IsNext, BodyOf, NameOf, PhoneOf, TimeOf, Path, Event;
    EventReads("m1");
    FirstNext();
    var x := Insert("a", "k", true, "e", 0);
    var s0 := NO_ROWS.(rows := BOTH);
    EventKind("m1");
    var claim := Claim("w", "x", 0, {}, Some("r1"));
    Claiming(s0, claim, hash);
    var s1 := Apply(s0, claim, hash);
    PathStart(s0, claim, hash);
    Locking(s1, "x", hash);
    var s2 := Apply(s1, AcquireLock("x"), hash);
    PathPush(s0, [claim], s1, AcquireLock("x"), hash);
    Looking(s2, "x", hash);
    var s3 := Apply(s2, FindNoDuplicate("x"), hash);
    PathPush(s0, [claim] + [AcquireLock("x")], s2, FindNoDuplicate("x"), hash);
    Inserting(s3, "x", x, 0, hash);
    var s4 := Apply(s3, InsertRows("x", x, 0), hash);
    PathPush(s0, [claim] + [AcquireLock("x")] + [FindNoDuplicate("x")], s3, InsertRows("x", x, 0), hash);
    Committing(s4, "x", x, hash);
    PathPush(s0, [claim] + [AcquireLock("x")] + [FindNoDuplicate("x")] + [InsertRows("x", x, 0)], s4, Commit("x"), hash);
    steps := [claim] + [AcquireLock("x")] + [FindNoDuplicate("x")] + [InsertRows("x", x, 0)] + [Commit("x")];
    assert Apply(s4, Commit("x"), hash).locks == map[];
    assert Apply(s4, Commit("x"), hash) == FirstStored();
  }

  lemma EventKind(id: string)
    ensures Event(id).kind == MessageKind && Event(id).providerEventId == id
  {
  }

  lemma PathStart(s: State, step: Step, hash: LockHash)
    requires Enabled(s, step, hash)
    ensures Path(s, [step], Apply(s, step, hash), hash)
  {
    hide Enabled, Apply;
    PathPush(s, [], s, step, hash);
    assert [] + [step] == [step];
  }

  /** The second message, from its claim to the insertion of its rows. */
  lemma WriteSecond(hash: LockHash) returns (steps: seq<Step>, t: State)
    ensures Path(FirstStored(), steps, t, hash)
    ensures IsAt(t, "y", Writing(Insert("b", "k", false, "f", 0))) && t.working["y"].row.tenantId == "t"
    ensures t.working["y"].row.payload == Event("m2")
    ensures VersionTaken(t, "t", "k", 0)
  {
    hide Enabled, Apply, IsNext, BodyOf, NameOf, PhoneOf, TimeOf, Path, Event;
    EventReads("m2");
    FirstNext();
    EventKind("m2");
    var x := Insert("b", "k", false, "f", 0);
    var s0 := FirstStored();
    var claim := Claim("v", "y", 0, {}, Some("r2"));
    Claiming(s0, claim, hash);
    var s1 := Apply(s0, claim, hash);
    PathStart(s0, claim, hash);
    Locking(s1, "y", hash);
    var s2 := Apply(s1, AcquireLock("y"), hash);
    PathPush(s0, [claim], s1, AcquireLock("y"), hash);
    Looking(s2, "y", hash);
    var s3 := Apply(s2, FindNoDuplicate("y"), hash);
    PathPush(s0, [claim] + [AcquireLock("y")], s2, FindNoDuplicate("y"), hash);
    Inserting(s3, "y", x, 0, hash);
    t := Apply(s3, InsertRows("y", x, 0), hash);
    PathPush(s0, [claim] + [AcquireLock("y")] + [FindNoDuplicate("y")], s3, InsertRows("y", x, 0), hash);
    steps := [claim] + [AcquireLock("y")] + [FindNoDuplicate("y")] + [InsertRows("y", x, 0)];
    assert t.created["e"] == Created("t", "k", 0, "a");
  }

  lemma Blocked(t: State, x: Insert, hash: LockHash)
    requires x == Insert("b", "k", false, "f", 0) && IsAt(t, "y", Writing(x)) && VersionTaken(t, "t", "k", 0)
    requires t.working["y"].row.tenantId == "t" && t.working["y"].row.payload == Event("m2")
    ensures Acceptable(t.working["y"].row.payload) && Storable(t.working["y"].row.payload, x)
    ensures !Enabled(t, Commit("y"), hash)
  {
    hide BodyOf, NameOf, TimeOf, VersionTaken;
    EventReads("m2");
  }

  /**
   * Two messages of one sender in one instant: the first is stored, and the second, which no one disturbs and nothing
   * else is wrong with, can never be committed from then on.
   */
  lemma SecondInOneInstant(hash: LockHash) returns (run: seq<State>, token: string)
    ensures IsRun(run, hash)
    ensures var s := run[|run| - 1];
      && token in s.working && s.working[token].stage.Writing?
      && Acceptable(s.working[token].row.payload)
      && (var x := s.working[token].stage.insert;
          && Storable(s.working[token].row.payload, x)
          && VersionTaken(s, s.working[token].row.tenantId, x.conversationId, VersionAt(x.time))
          && !Enabled(s, Commit(token), hash))
  {
    hide Path, Apply, Enabled, Acceptable, Storable, VersionTaken, Event;
    Receiving(hash);
    var receive := Receive("c", "t", [Event("m1"), Event("m2")], ["r1", "r2"], 0);
    PathStart(NO_ROWS, receive, hash);
    var first := StoreFirst(hash);
    var second, t := WriteSecond(hash);
    assert IsRun([NO_ROWS], hash);
    run := PathIsRun([NO_ROWS], NO_ROWS, [receive], NO_ROWS.(rows := BOTH), hash);
    run := PathIsRun(run, NO_ROWS.(rows := BOTH), first, FirstStored(), hash);
    run := PathIsRun(run, FirstStored(), second, t, hash);
    Blocked(t, Insert("b", "k", false, "f", 0), hash);
    token := "y";
  }

  /** An answer to a flow has no body, so no transaction can insert it, whatever the state and the time. */
  lemma FlowReplyRefused(s: State, row: Row, conversationId: string, now: int)
    requires row.payload.message == FLOW_REPLY
    ensures !RowsAccepted(s, row, conversationId, now)
  {
    hide BodyOk, NameOk, TimeOf, VersionTaken;
    FlowReplyHasNoBody(row.payload);
  }

  /** And so no run ever stores it, or marks it processed. */
  lemma FlowReplyNeverStored(run: seq<State>, i: nat, hash: LockHash, id: string)
    requires IsRun(run, hash) && i < |run| && id in run[i].rows
    requires run[i].rows[id].payload.message == FLOW_REPLY && run[i].rows[id].payload.kind == MessageKind
    ensures !StoredFor(run[i], run[i].rows[id]) && run[i].rows[id].status != Processed
  {
    hide IsRun, Acceptable, StoredFor;
    FlowReplyHasNoBody(run[i].rows[id].payload);
    UnacceptableNeverStored(run, i, hash, id);
  }
}
