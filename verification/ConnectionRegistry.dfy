/**
 * The registry of live event streams (modules/realtime/connection-registry.js): a bounded first-in-first-out queue
 * per connection, with backpressure from the response, and quotas per user and per tenant.
 */
module ConnectionRegistry {

  datatype Session = Session(tenantId: string, userId: string, teamIds: set<string>, capabilities: set<string>)

  datatype Limits = Limits(maxPerUser: nat, maxPerTenant: nat, maxQueueEvents: nat, maxQueueBytes: nat)

  function Or(option: nat, default: nat): nat { if option == 0 then default else option }

  function WithDefaults(options: Limits): Limits {
    Limits(Or(options.maxPerUser, 2), Or(options.maxPerTenant, 100),
           Or(options.maxQueueEvents, 100), Or(options.maxQueueBytes, 256 * 1024))
  }

  /** UTF-8 length of one character. */
  function CharBytes(c: char): nat {
    if c as int < 0x80 then 1 else if c as int < 0x800 then 2 else if c as int < 0x10000 then 3 else 4
  }

  function ByteLength(frame: string): nat {
    if frame == "" then 0 else CharBytes(frame[0]) + ByteLength(frame[1..])
  }

  function Bytes(frames: seq<string>): nat
    decreases |frames|
  {
    if frames == [] then 0 else ByteLength(frames[0]) + Bytes(frames[1..])
  }

  /** The defaults of the four limits, and the UTF-8 length of a character. */
  lemma DefaultsTell(options: Limits)
    ensures var limits := WithDefaults(options);
      && limits.maxPerUser == (if options.maxPerUser == 0 then 2 else options.maxPerUser)
      && limits.maxPerTenant == (if options.maxPerTenant == 0 then 100 else options.maxPerTenant)
      && limits.maxQueueEvents == (if options.maxQueueEvents == 0 then 100 else options.maxQueueEvents)
      && limits.maxQueueBytes == (if options.maxQueueBytes == 0 then 262_144 else options.maxQueueBytes)
  {
  }

  lemma CharBytesTell(c: char)
    ensures CharBytes(c) == 1 <==> c as int <= 0x7F
    ensures CharBytes(c) == 2 <==> 0x80 <= c as int <= 0x7FF
    ensures CharBytes(c) == 3 <==> 0x800 <= c as int <= 0xFFFF
    ensures CharBytes(c) == 4 <==> 0x10000 <= c as int
  {
  }

  /** Byte lengths add up, so a frame's is the sum of its characters'. */
  lemma {:induction false} ByteLengthConcat(a: string, b: string)
    ensures ByteLength(a + b) == ByteLength(a) + ByteLength(b)
    decreases a
  {
    hide CharBytes;
    if a == "" {
      assert a + b == b;
    } else {
      assert (a + b)[0] == a[0] && (a + b)[1..] == a[1..] + b;
      ByteLengthConcat(a[1..], b);
    }
  }

  lemma ByteLengthOne(c: char)
    ensures ByteLength([c]) == CharBytes(c)
  {
    assert [c][1..] == "";
  }

  // ----- one connection

  /**
   * A connection's fields, with what has passed between it and its response: the frames written, what the response
   * answered to each, and whether it was ended.
   */
  datatype Link =
    Link(queue: seq<string>, queuedBytes: int, blocked: bool, closed: bool,
         written: seq<string>, answers: seq<bool>, ended: bool)

  const FRESH: Link := Link([], 0, false, false, [], [], false)

  predicate Sound(l: Link, limits: Limits) {
    && l.queuedBytes == Bytes(l.queue)
    && |l.queue| <= limits.maxQueueEvents && l.queuedBytes <= limits.maxQueueBytes
    && (!l.blocked ==> l.queue == [])
    && |l.answers| == |l.written|
    && (l.blocked ==> l.answers != [] && !l.answers[|l.answers| - 1])
    && (l.ended ==> l.closed)
  }

  predicate Fits(l: Link, frame: string, limits: Limits) {
    |l.queue| < limits.maxQueueEvents && l.queuedBytes + ByteLength(frame) <= limits.maxQueueBytes
  }

  /** What a send reports. */
  predicate Accepts(l: Link, frame: string, limits: Limits) { !l.closed && (l.blocked ==> Fits(l, frame, limits)) }

  /** A send; `more` is what the response answers, should the frame be written. */
  function Sent(l: Link, frame: string, more: bool, limits: Limits): Link {
    if l.closed then l
    else if !l.blocked then l.(written := l.written + [frame], answers := l.answers + [more], blocked := !more)
    else if Fits(l, frame, limits)
    then l.(queue := l.queue + [frame], queuedBytes := l.queuedBytes + ByteLength(frame))
    else l.(closed := true, ended := true)
  }

  /** A drain can stop after any write answered with `false`; otherwise it empties the queue. */
  predicate CanDrain(l: Link, count: nat, more: bool) {
    count <= |l.queue| && (if more then count == |l.queue| else 0 < count)
  }

  /** The answers to the writes of a drain: only the last can be `false`. */
  function Replies(count: nat, more: bool): seq<bool> {
    if count == 0 then [] else seq(count - 1, _ => true) + [more]
  }

  function Drained(l: Link, count: nat, more: bool): Link
    requires CanDrain(l, count, more) || l.closed
  {
    if l.closed then l
    else l.(written := l.written + l.queue[..count], answers := l.answers + Replies(count, more),
            queue := l.queue[count..], queuedBytes := Bytes(l.queue[count..]), blocked := !more)
  }

  lemma {:induction false} BytesConcat(a: seq<string>, b: seq<string>)
    ensures Bytes(a + b) == Bytes(a) + Bytes(b)
    decreases |a|
  {
    if a == [] {
      assert a + b == b;
    } else {
      assert (a + b)[1..] == a[1..] + b;
      BytesConcat(a[1..], b);
    }
  }

  lemma BytesPush(queue: seq<string>, frame: string)
    ensures Bytes(queue + [frame]) == Bytes(queue) + ByteLength(frame)
  {
    hide ByteLength;
    BytesConcat(queue, [frame]);
    assert Bytes([frame]) == ByteLength(frame) + Bytes([]);
  }

  /** One more write of a drain: the first frame leaves the queue, and its answer joins those given. */
  lemma FlushOne(start: seq<string>, count: nat, answer: bool)
    requires count < |start|
    ensures start[count..][1..] == start[count + 1..]
    ensures Bytes(start[count + 1..]) == Bytes(start[count..]) - ByteLength(start[count])
    ensures start[..count] + [start[count]] == start[..count + 1]
    ensures Replies(count, true) + [answer] == Replies(count + 1, answer)
  {
    hide ByteLength;
  }

  lemma FlushStart()
    ensures Bytes([]) == 0 && Replies(0, true) == []
  {
  }

  lemma SentSound(l: Link, frame: string, more: bool, limits: Limits)
    requires Sound(l, limits)
    ensures Sound(Sent(l, frame, more, limits), limits)
  {
    hide Bytes, ByteLength;
    BytesPush(l.queue, frame);
  }

  lemma DrainedSound(l: Link, count: nat, more: bool, limits: Limits)
    requires Sound(l, limits) && (CanDrain(l, count, more) || l.closed)
    ensures Sound(Drained(l, count, more), limits)
  {
    hide Bytes;
    if !l.closed {
      BytesConcat(l.queue[..count], l.queue[count..]);
      assert l.queue == l.queue[..count] + l.queue[count..];
    }
  }

  // ----- runs of one connection

  datatype Op = Send(frame: string, more: bool) | Drain(count: nat, answer: bool) | ServerClose | ClientClose

  predicate Possible(l: Link, op: Op) { op.Drain? ==> CanDrain(l, op.count, op.answer) || l.closed }

  function Step(l: Link, op: Op, limits: Limits): Link
    requires Possible(l, op)
  {
    match op
    case Send(frame, more) => Sent(l, frame, more, limits)
    case Drain(count, more) => Drained(l, count, more)
    case ServerClose => if l.closed then l else l.(closed := true, ended := true)
    case ClientClose => l.(closed := true)
  }

  /** The connection after each of the operations, in order. */
  predicate IsRun(links: seq<Link>, ops: seq<Op>, limits: Limits) {
    && |links| == |ops| + 1
    && forall i | 0 <= i < |ops| :: Possible(links[i], ops[i]) && links[i + 1] == Step(links[i], ops[i], limits)
  }

  /** The frames for which `send` answered `true`, in order. */
  function AcceptedFrames(links: seq<Link>, ops: seq<Op>, limits: Limits): seq<string>
    requires |links| > |ops|
  {
    if ops == [] then []
    else
      var n := |ops| - 1;
      AcceptedFrames(links, ops[..n], limits)
      + if ops[n].Send? && Accepts(links[n], ops[n].frame, limits) then [ops[n].frame] else []
  }

  /** All the frames that were to be sent, in order. */
  function SentFrames(ops: seq<Op>): seq<string> {
    if ops == [] then []
    else
      var n := |ops| - 1;
      SentFrames(ops[..n]) + if ops[n].Send? then [ops[n].frame] else []
  }

  lemma StepFifo(l: Link, op: Op, limits: Limits)
    requires Possible(l, op)
    requires !l.blocked ==> l.queue == []
    ensures var m := Step(l, op, limits);
      m.written + m.queue
        == l.written + l.queue + if op.Send? && Accepts(l, op.frame, limits) then [op.frame] else []
  {
    hide Bytes, ByteLength;
    if op.Drain? && !l.closed {
      assert l.queue[..op.count] + l.queue[op.count..] == l.queue;
    }
  }

  lemma StepSound(l: Link, op: Op, limits: Limits)
    requires Sound(l, limits) && Possible(l, op)
    ensures Sound(Step(l, op, limits), limits)
  {
    hide Bytes, ByteLength, Sent, Drained;
    if op.Send? { SentSound(l, op.frame, op.more, limits); }
    if op.Drain? { DrainedSound(l, op.count, op.answer, limits); }
  }

  lemma RunPrefix(links: seq<Link>, ops: seq<Op>, limits: Limits)
    requires |ops| > 0 && IsRun(links, ops, limits)
    ensures IsRun(links[..|ops|], ops[..|ops| - 1], limits)
    ensures AcceptedFrames(links, ops[..|ops| - 1], limits) == AcceptedFrames(links[..|ops|], ops[..|ops| - 1], limits)
  {
    hide Step, Accepts;
    AcceptedLocal(links, links[..|ops|], ops[..|ops| - 1], limits);
  }

  lemma {:induction false} AcceptedLocal(links: seq<Link>, others: seq<Link>, ops: seq<Op>, limits: Limits)
    requires |links| > |ops| && |others| > |ops| && links[..|ops|] == others[..|ops|]
    ensures AcceptedFrames(links, ops, limits) == AcceptedFrames(others, ops, limits)
    decreases |ops|
  {
    hide Accepts;
    if ops != [] {
      var n := |ops| - 1;
      assert links[n] == links[..|ops|][n] == others[..|ops|][n] == others[n];
      assert links[..n] == links[..|ops|][..n] == others[..n];
      AcceptedLocal(links, others, ops[..n], limits);
    }
  }

  /** In every run, what was written followed by what is queued is exactly what was accepted, in order. */
  lemma {:induction false} RunFifo(links: seq<Link>, ops: seq<Op>, limits: Limits)
    requires IsRun(links, ops, limits) && links[0] == FRESH
    ensures var last := links[|ops|];
      Sound(last, limits) && last.written + last.queue == AcceptedFrames(links, ops, limits)
    decreases |ops|
  {
    hide Step, Accepts, Bytes, Possible;
    if ops != [] {
      var n := |ops| - 1;
      RunPrefix(links, ops, limits);
      RunFifo(links[..|ops|], ops[..n], limits);
      StepSound(links[n], ops[n], limits);
      StepFifo(links[n], ops[n], limits);
    } else {
      FreshSound(limits);
    }
  }

  lemma FreshSound(limits: Limits)
    ensures Sound(FRESH, limits)
  {
  }

  /** Once closed, a connection stays closed, writes nothing and accepts nothing. */
  lemma {:induction false} NothingAfterClose(links: seq<Link>, ops: seq<Op>, limits: Limits, from: nat)
    requires IsRun(links, ops, limits) && from <= |ops| && links[from].closed
    ensures links[|ops|].closed && links[|ops|].written == links[from].written
    ensures links[|ops|].queue == links[from].queue
    ensures AcceptedFrames(links, ops, limits) == AcceptedFrames(links, ops[..from], limits)
    decreases |ops|
  {
    hide Bytes, ByteLength;
    if from < |ops| {
      var n := |ops| - 1;
      RunPrefix(links, ops, limits);
      NothingAfterClose(links[..|ops|], ops[..n], limits, from);
      assert ops[..n][..from] == ops[..from];
      AcceptedLocal(links, links[..|ops|], ops[..from], limits);
    } else {
      assert ops[..from] == ops;
    }
  }

  /** A connection that is still open has refused nothing: every frame meant for it was written or is queued. */
  lemma {:induction false} OpenMeansComplete(links: seq<Link>, ops: seq<Op>, limits: Limits)
    requires IsRun(links, ops, limits) && links[0] == FRESH && !links[|ops|].closed
    ensures links[|ops|].written + links[|ops|].queue == SentFrames(ops)
    decreases |ops|
  {
    RunFifo(links, ops, limits);
    OpenAccepted(links, ops, limits);
  }

  lemma {:induction false} OpenAccepted(links: seq<Link>, ops: seq<Op>, limits: Limits)
    requires IsRun(links, ops, limits) && !links[|ops|].closed
    ensures AcceptedFrames(links, ops, limits) == SentFrames(ops)
    decreases |ops|
  {
    hide Bytes, ByteLength;
    if ops != [] {
      var n := |ops| - 1;
      RunPrefix(links, ops, limits);
      OpenAccepted(links[..|ops|], ops[..n], limits);
    }
  }

  /** What a connection accepts is always an initial part of what was meant for it: a refusal is its last answer. */
  lemma {:induction false} AcceptedPrefix(links: seq<Link>, ops: seq<Op>, limits: Limits)
    requires IsRun(links, ops, limits)
    ensures AcceptedFrames(links, ops, limits) <= SentFrames(ops)
    decreases |ops|
  {
    hide Bytes, ByteLength, Step;
    if ops != [] {
      var n := |ops| - 1;
      RunPrefix(links, ops, limits);
      AcceptedPrefix(links[..|ops|], ops[..n], limits);
      if !links[n].closed { OpenAccepted(links[..|ops|], ops[..n], limits); }
    }
  }

  // ----- the connections of a registry

  class Connection {
    const session: Session
    var queue: seq<string>
    var queuedBytes: int
    var blocked: bool
    var closed: bool
    /** What has passed between the connection and its response. */
    ghost var written: seq<string>
    ghost var answers: seq<bool>
    ghost var ended: bool

    constructor (session: Session)
      ensures this.session == session && View() == FRESH
    {
      this.session := session;
      queue, queuedBytes, blocked, closed := [], 0, false, false;
      written, answers, ended := [], [], false;
    }

    ghost function View(): Link
      reads this
    {
      Link(queue, queuedBytes, blocked, closed, written, answers, ended)
    }

    /** `response.write`: never called on an ended response, and it may answer anything. */
    method Write(frame: string) returns (more: bool)
      requires !ended
      modifies this`written, this`answers
      ensures written == old(written) + [frame] && answers == old(answers) + [more]
    {
      more := *;
      written, answers := written + [frame], answers + [more];
    }

    method Flush(limits: Limits) returns (ok: bool, ghost count: nat, ghost more: bool)
      requires Sound(View(), limits)
      modifies this
      ensures ok == !old(closed)
      ensures old(closed) || CanDrain(old(View()), count, more)
      ensures View() == Drained(old(View()), count, more)
    {
      hide Bytes, ByteLength, Replies;
      FlushStart();
      count, more := 0, true;
      if closed { return false, count, more; }
      ghost var start := queue;
      while |queue| > 0
        invariant count <= |start| && queue == start[count..] && queuedBytes == Bytes(queue)
        invariant written == old(written) + start[..count]
        invariant answers == old(answers) + Replies(count, true)
        invariant !closed && !ended
        decreases |queue|
      {
        var frame := queue[0];
        queue := queue[1..];
        queuedBytes := queuedBytes - ByteLength(frame);
        var answer := Write(frame);
        FlushOne(start, count, answer);
        count := count + 1;
        if !answer {
          blocked := true;
          return true, count, false;
        }
      }
      blocked := false;
      assert start[..count] == start;
      return true, count, true;
    }
  }

  predicate Matches(a: Session, b: Session) { a.tenantId == b.tenantId && a.userId == b.userId }

  /** How many of the connections belong to the user of the session. */
  function UserCount(connections: seq<Connection>, session: Session): nat {
    if connections == [] then 0
    else
      var n := |connections| - 1;
      UserCount(connections[..n], session) + if Matches(connections[n].session, session) then 1 else 0
  }

  function TenantCount(connections: seq<Connection>, tenantId: string): nat {
    if connections == [] then 0
    else
      var n := |connections| - 1;
      TenantCount(connections[..n], tenantId) + if connections[n].session.tenantId == tenantId then 1 else 0
  }

  /** The places of a user's connections, and of a tenant's, whoever the user. */
  function UserPlaces(connections: seq<Connection>, session: Session): set<nat> {
    set i: nat | i < |connections| && connections[i].session.tenantId == session.tenantId
                 && connections[i].session.userId == session.userId
  }

  function TenantPlaces(connections: seq<Connection>, tenantId: string): set<nat> {
    set i: nat | i < |connections| && connections[i].session.tenantId == tenantId
  }

  lemma {:induction false} CountsTell(connections: seq<Connection>, session: Session)
    ensures UserCount(connections, session) == |UserPlaces(connections, session)|
    ensures TenantCount(connections, session.tenantId) == |TenantPlaces(connections, session.tenantId)|
    decreases |connections|
  {
    if connections != [] {
      hide UserPlaces, TenantPlaces;
      var n := |connections| - 1;
      CountsTell(connections[..n], session);
      LastUserPlace(connections, session);
      LastTenantPlace(connections, session.tenantId);
    }
  }

  lemma LastUserPlace(connections: seq<Connection>, session: Session)
    requires connections != []
    ensures var n := |connections| - 1;
      var mine, before := Matches(connections[n].session, session), UserPlaces(connections[..n], session);
      UserPlaces(connections, session) == (if mine then before + {n} else before) && n !in before
  {
  }

  lemma LastTenantPlace(connections: seq<Connection>, tenantId: string)
    requires connections != []
    ensures var n := |connections| - 1;
      var mine, before := connections[n].session.tenantId == tenantId, TenantPlaces(connections[..n], tenantId);
      TenantPlaces(connections, tenantId) == (if mine then before + {n} else before) && n !in before
  {
  }

  /** Deletion from the set of connections, which is kept in insertion order. */
  function Without(connections: seq<Connection>, c: Connection): (rest: seq<Connection>)
    ensures forall i | 0 <= i < |rest| :: rest[i] in connections && rest[i] != c
  {
    if connections == [] then []
    else
      var n := |connections| - 1;
      Without(connections[..n], c) + if connections[n] == c then [] else [connections[n]]
  }

  predicate Distinct(connections: seq<Connection>) {
    forall i, j | 0 <= i < j < |connections| :: connections[i] != connections[j]
  }

  lemma {:induction false} WithoutMembers(connections: seq<Connection>, c: Connection)
    ensures forall d :: d in Without(connections, c) <==> d in connections && d != c
    ensures Distinct(connections) ==> Distinct(Without(connections, c))
    decreases |connections|
  {
    if connections != [] {
      var n := |connections| - 1;
      WithoutMembers(connections[..n], c);
      assert connections == connections[..n] + [connections[n]];
      if Distinct(connections) {
        assert connections[n] !in connections[..n];
      }
    }
  }

  lemma {:induction false} WithoutAbsent(connections: seq<Connection>, c: Connection)
    requires forall i | 0 <= i < |connections| :: connections[i] != c
    ensures Without(connections, c) == connections
    decreases |connections|
  {
    if connections != [] {
      var n := |connections| - 1;
      WithoutAbsent(connections[..n], c);
      assert Without(connections, c) == connections[..n] + [connections[n]];
    }
  }

  lemma {:induction false} WithoutCounts(connections: seq<Connection>, c: Connection, session: Session)
    ensures UserCount(Without(connections, c), session) <= UserCount(connections, session)
    ensures TenantCount(Without(connections, c), session.tenantId) <= TenantCount(connections, session.tenantId)
    decreases |connections|
  {
    if connections != [] {
      var n := |connections| - 1;
      WithoutCounts(connections[..n], c, session);
      if connections[n] == c {
        assert Without(connections, c) == Without(connections[..n], c);
      } else {
        assert Without(connections, c)[..|Without(connections, c)| - 1] == Without(connections[..n], c);
      }
    }
  }

  ghost predicate WithinQuotas(connections: seq<Connection>, limits: Limits) {
    forall session: Session ::
      UserCount(connections, session) <= limits.maxPerUser
      && TenantCount(connections, session.tenantId) <= limits.maxPerTenant
  }

  lemma WithoutQuotas(connections: seq<Connection>, c: Connection, limits: Limits)
    requires WithinQuotas(connections, limits)
    ensures WithinQuotas(Without(connections, c), limits)
  {
    forall session: Session
      ensures UserCount(Without(connections, c), session) <= limits.maxPerUser
           && TenantCount(Without(connections, c), session.tenantId) <= limits.maxPerTenant
    {
      WithoutCounts(connections, c, session);
    }
  }

  lemma PushQuotas(connections: seq<Connection>, c: Connection, limits: Limits)
    requires WithinQuotas(connections, limits)
    requires UserCount(connections, c.session) < limits.maxPerUser
    requires TenantCount(connections, c.session.tenantId) < limits.maxPerTenant
    ensures WithinQuotas(connections + [c], limits)
  {
    var more := connections + [c];
    assert more[..|more| - 1] == connections;
    forall session: Session
      ensures UserCount(more, session) <= limits.maxPerUser
           && TenantCount(more, session.tenantId) <= limits.maxPerTenant
    {
      if Matches(c.session, session) { SameUser(connections, c.session, session); }
    }
  }

  lemma {:induction false} SameUser(connections: seq<Connection>, a: Session, b: Session)
    requires Matches(a, b)
    ensures UserCount(connections, a) == UserCount(connections, b)
    decreases |connections|
  {
    if connections != [] { SameUser(connections[..|connections| - 1], a, b); }
  }

  datatype Registration = Registered(connection: Connection) | MissingIdentity | QuotaExceeded

  class Registry {
    const limits: Limits
    /** A set, in insertion order. */
    var connections: seq<Connection>

    constructor (options: Limits)
      ensures Valid() && connections == [] && limits == WithDefaults(options)
    {
      limits := WithDefaults(options);
      connections := [];
    }

    ghost predicate Valid()
      reads this, connections
    {
      && Distinct(connections)
      && WithinQuotas(connections, limits)
      && forall c | c in connections :: !c.closed && Sound(c.View(), limits)
    }

    method ConnectionCount(session: Session) returns (count: nat)
      ensures count == UserCount(connections, session)
    {
      count := 0;
      for i := 0 to |connections|
        invariant count == UserCount(connections[..i], session)
      {
        assert connections[..i + 1][..i] == connections[..i];
        if Matches(connections[i].session, session) { count := count + 1; }
      }
      assert connections[..|connections|] == connections;
    }

    method TenantConnectionCount(tenantId: string) returns (count: nat)
      ensures count == TenantCount(connections, tenantId)
    {
      count := 0;
      for i := 0 to |connections|
        invariant count == TenantCount(connections[..i], tenantId)
      {
        assert connections[..i + 1][..i] == connections[..i];
        if connections[i].session.tenantId == tenantId { count := count + 1; }
      }
      assert connections[..|connections|] == connections;
    }

    method Register(session: Session) returns (r: Registration)
      requires Valid()
      modifies this`connections
      ensures Valid()
      ensures r.MissingIdentity? <==> session.tenantId == "" || session.userId == ""
      ensures var full := UserCount(old(connections), session) >= limits.maxPerUser
                       || TenantCount(old(connections), session.tenantId) >= limits.maxPerTenant;
        r.QuotaExceeded? <==> !r.MissingIdentity? && full
      ensures r.Registered? ==> fresh(r.connection) && r.connection.session == session && r.connection.View() == FRESH
      ensures connections == old(connections) + if r.Registered? then [r.connection] else []
    {
      if session.tenantId == "" || session.userId == "" { return MissingIdentity; }
      var users := ConnectionCount(session);
      var inTenant := TenantConnectionCount(session.tenantId);
      if users >= limits.maxPerUser || inTenant >= limits.maxPerTenant { return QuotaExceeded; }
      var c := new Connection(session);
      PushQuotas(connections, c, limits);
      connections := connections + [c];
      return Registered(c);
    }

    method Remove(c: Connection)
      modifies this`connections
      ensures connections == Without(old(connections), c)
    {
      if c !in connections {
        WithoutAbsent(connections, c);
        return;
      }
      connections := Without(connections, c);
    }

    method Terminate(c: Connection)
      modifies this`connections, c`ended
      ensures connections == Without(old(connections), c) && c.ended
    {
      Remove(c);
      c.ended := true;
    }

    /** `enqueue`: an overflow closes the connection and drops it from the registry. */
    method Enqueue(c: Connection, frame: string) returns (ok: bool)
      requires Valid() && c in connections && c.blocked
      modifies this`connections, c
      ensures Valid()
      ensures ok == Fits(old(c.View()), frame, limits)
      ensures forall more :: c.View() == Sent(old(c.View()), frame, more, limits)
      ensures connections == if ok then old(connections) else Without(old(connections), c)
    {
      WithoutQuotas(connections, c, limits);
      ghost var before := c.View();
      SentSound(before, frame, true, limits);
      var bytes := ByteLength(frame);
      if |c.queue| >= limits.maxQueueEvents || c.queuedBytes + bytes > limits.maxQueueBytes {
        c.closed := true;
        Terminate(c);
        WithoutMembers(old(connections), c);
        return false;
      }
      c.queue := c.queue + [frame];
      c.queuedBytes := c.queuedBytes + bytes;
      assert c.View() == Sent(before, frame, true, limits);
      return true;
    }

    method SendConnection(c: Connection, frame: string) returns (ok: bool, ghost more: bool)
      requires Valid() && (c in connections || c.closed)
      modifies this`connections, c
      ensures Valid()
      ensures ok == Accepts(old(c.View()), frame, limits)
      ensures c.View() == Sent(old(c.View()), frame, more, limits)
      ensures connections == if ok || old(c.closed) then old(connections) else Without(old(connections), c)
    {
      more := true;
      if c.closed { return false, more; }
      if c.blocked {
        ok := Enqueue(c, frame);
        return ok, more;
      }
      ghost var before := c.View();
      var answer := c.Write(frame);
      if !answer { c.blocked := true; }
      more := answer;
      SentSound(before, frame, more, limits);
      assert c.View() == Sent(before, frame, more, limits);
      return true, more;
    }

    /** The response's drain event. */
    method OnDrain(c: Connection) returns (ok: bool, ghost count: nat, ghost more: bool)
      requires Valid() && c in connections
      modifies c
      ensures Valid() && ok
      ensures CanDrain(old(c.View()), count, more) && c.View() == Drained(old(c.View()), count, more)
      ensures Possible(old(c.View()), Drain(count, more)) && c.View() == Step(old(c.View()), Drain(count, more), limits)
    {
      ghost var before := c.View();
      ok, count, more := c.Flush(limits);
      DrainedSound(before, count, more, limits);
    }

    /** The response's close event, and the function that registration returns. */
    method OnClose(c: Connection)
      requires Valid()
      modifies this`connections, c`closed
      ensures Valid()
      ensures c.View() == old(c.View()).(closed := true) && connections == Without(old(connections), c)
      ensures c.View() == Step(old(c.View()), ClientClose, limits)
    {
      WithoutQuotas(connections, c, limits);
      c.closed := true;
      Remove(c);
      WithoutMembers(old(connections), c);
    }

    /** `close`, by the server. */
    method Close(c: Connection)
      requires Valid()
      modifies this`connections, c
      ensures Valid()
      ensures c.View() == if c in old(connections) then old(c.View()).(closed := true, ended := true) else old(c.View())
      ensures c in old(connections) ==> c.View() == Step(old(c.View()), ServerClose, limits)
      ensures connections == Without(old(connections), c)
    {
      if c !in connections {
        WithoutAbsent(connections, c);
        return;
      }
      WithoutQuotas(connections, c, limits);
      c.closed := true;
      Terminate(c);
      WithoutMembers(old(connections), c);
    }

    method SendTo(c: Connection, frame: string) returns (ok: bool, ghost more: bool)
      requires Valid()
      modifies this`connections, c
      ensures Valid()
      ensures ok == (c in old(connections) && Accepts(old(c.View()), frame, limits))
      ensures c.View() == if c in old(connections) then Sent(old(c.View()), frame, more, limits) else old(c.View())
      ensures connections == if c in old(connections) && !ok then Without(old(connections), c) else old(connections)
    {
      if c !in connections { return false, true; }
      ok, more := SendConnection(c, frame);
    }
  }
}
