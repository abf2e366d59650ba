/**
 * The browser's realtime client (public/js/realtime-inbox.js): a consumer that drops events it has seen and keeps the
 * last version of every aggregate.
 */
module RealtimeInbox {
  import opened Wrappers
  import opened SseProtocol

  /** A message from the stream; `None` stands for data that is not JSON. */
  datatype Delivery = Delivery(lastEventId: string, eventType: string, data: Option<Data>)

  datatype Reaction = Apply | Reconcile | CloseSource

  /** What the client did about one delivery it took. */
  datatype Effect = Effect(eventId: string, key: string, version: int, reaction: Reaction)

  datatype State = State(seen: set<string>, versions: map<string, int>, cursor: string, effects: seq<Effect>)

  const START: State := State({}, map[], "", [])

  function Key(a: Aggregate): string { a.aggregateType + ":" + a.id }

  function Known(versions: map<string, int>, key: string): int { if key in versions then versions[key] else 0 }

  predicate SafeInteger(version: Option<int>) {
    version.Some? && -MAX_SAFE_INTEGER <= version.value <= MAX_SAFE_INTEGER
  }

  /** Deliveries that carry an event id, an aggregate and a usable version; every other one is ignored. */
  predicate WellFormed(d: Delivery) {
    && d.data.Some? && d.data.value.eventId != "" && d.data.value.aggregate.Some?
    && SafeInteger(d.data.value.aggregate.value.version) && d.data.value.aggregate.value.version.value > 0
  }

  function IdOf(d: Delivery): string
    requires WellFormed(d)
  {
    d.data.value.eventId
  }

  function KeyOf(d: Delivery): string
    requires WellFormed(d)
  {
    Key(d.data.value.aggregate.value)
  }

  function VersionOf(d: Delivery): int
    requires WellFormed(d)
  {
    d.data.value.aggregate.value.version.value
  }

  function ReactionTo(eventType: string): Reaction {
    if eventType == "system.reconcile-required" then Reconcile
    else if eventType == "system.permission-revoked" then CloseSource
    else Apply
  }

  function Received(s: State, d: Delivery): State {
    if d.data.None? || d.data.value.eventId == "" || d.data.value.aggregate.None? then s
    else if d.data.value.eventId in s.seen then s
    else
      var aggregate := d.data.value.aggregate.value;
      var key := Key(aggregate);
      if !SafeInteger(aggregate.version) || aggregate.version.value <= Known(s.versions, key) then s
      else
        State(s.seen + {d.data.value.eventId}, s.versions[key := aggregate.version.value],
              if d.lastEventId != "" then d.lastEventId else s.cursor,
              s.effects + [Effect(d.data.value.eventId, key, aggregate.version.value, ReactionTo(d.eventType))])
  }

  function ReceivedAll(s: State, ds: seq<Delivery>): State {
    if ds == [] then s else Received(ReceivedAll(s, ds[..|ds| - 1]), ds[|ds| - 1])
  }

  lemma {:induction false} ReceivedConcat(s: State, a: seq<Delivery>, b: seq<Delivery>)
    ensures ReceivedAll(s, a + b) == ReceivedAll(ReceivedAll(s, a), b)
    decreases |b|
  {
    if b == [] {
      assert a + b == a;
    } else {
      assert (a + b)[..|a + b| - 1] == a + b[..|b| - 1];
      ReceivedConcat(s, a, b[..|b| - 1]);
    }
  }

  // ----- convergence

  /** An event id determines the aggregate and version it stands for. */
  predicate Identified(ds: seq<Delivery>) {
    forall i, j | 0 <= i < |ds| && 0 <= j < |ds| && WellFormed(ds[i]) && WellFormed(ds[j]) && IdOf(ds[i]) == IdOf(ds[j]) ::
      KeyOf(ds[i]) == KeyOf(ds[j]) && VersionOf(ds[i]) == VersionOf(ds[j])
  }

  predicate AtLeastAll(v: int, ds: seq<Delivery>, key: string) {
    forall d | d in ds && WellFormed(d) && KeyOf(d) == key :: VersionOf(d) <= v
  }

  predicate Attained(v: int, ds: seq<Delivery>, key: string) {
    exists d :: d in ds && WellFormed(d) && KeyOf(d) == key && VersionOf(d) == v
  }

  /** The map holds, for each aggregate delivered, the greatest of its versions, and nothing else. */
  ghost predicate IsPointwiseMax(versions: map<string, int>, ds: seq<Delivery>) {
    && (forall key | key in versions :: Attained(versions[key], ds, key))
    && (forall key :: AtLeastAll(Known(versions, key), ds, key))
  }

  /** What has been seen was well formed and is covered by the versions held. */
  ghost predicate SeenCovered(s: State, ds: seq<Delivery>) {
    forall id | id in s.seen :: exists d :: d in ds && WellFormed(d) && IdOf(d) == id
  }

  lemma StepAttained(s: State, ds: seq<Delivery>, d: Delivery, key: string)
    requires IsPointwiseMax(s.versions, ds) && key in Received(s, d).versions
    ensures Attained(Received(s, d).versions[key], ds + [d], key)
  {
    var t, all := Received(s, d), ds + [d];
    assert forall e :: e in all <==> e in ds || e == d;
    KnownNonNegative(s.versions, ds, key);
    if key in s.versions && t.versions[key] == s.versions[key] {
      assert Attained(s.versions[key], ds, key);
    } else {
      assert d in all && WellFormed(d) && KeyOf(d) == key;
    }
  }

  lemma StepAtLeastAll(s: State, ds: seq<Delivery>, d: Delivery, key: string)
    requires Identified(ds + [d]) && IsPointwiseMax(s.versions, ds) && SeenCovered(s, ds)
    ensures AtLeastAll(Known(Received(s, d).versions, key), ds + [d], key)
  {
    assert forall e :: e in ds + [d] <==> e in ds || e == d;
    assert AtLeastAll(Known(s.versions, key), ds, key);
    if WellFormed(d) && KeyOf(d) == key && IdOf(d) in s.seen {
      var e :| e in ds && WellFormed(e) && IdOf(e) == IdOf(d);
      SameIdSameVersion(ds, d, e);
    }
  }

  lemma StepSeen(s: State, ds: seq<Delivery>, d: Delivery)
    requires IsPointwiseMax(s.versions, ds) && SeenCovered(s, ds)
    ensures SeenCovered(Received(s, d), ds + [d])
  {
    var all := ds + [d];
    assert forall e :: e in all <==> e in ds || e == d;
    forall id | id in Received(s, d).seen ensures exists e :: e in all && WellFormed(e) && IdOf(e) == id {
      if id in s.seen {
        var e :| e in ds && WellFormed(e) && IdOf(e) == id;
        assert e in all;
      } else {
        KnownNonNegative(s.versions, ds, Key(d.data.value.aggregate.value));
        assert d in all && WellFormed(d);
      }
    }
  }

  lemma StepConverges(s: State, ds: seq<Delivery>, d: Delivery)
    requires Identified(ds + [d]) && IsPointwiseMax(s.versions, ds) && SeenCovered(s, ds)
    ensures IsPointwiseMax(Received(s, d).versions, ds + [d])
    ensures SeenCovered(Received(s, d), ds + [d])
  {
    hide Received, AtLeastAll, Attained;
    forall key | key in Received(s, d).versions
      ensures Attained(Received(s, d).versions[key], ds + [d], key)
    {
      StepAttained(s, ds, d, key);
    }
    forall key ensures AtLeastAll(Known(Received(s, d).versions, key), ds + [d], key) {
      StepAtLeastAll(s, ds, d, key);
    }
    StepSeen(s, ds, d);
  }

  lemma SameIdSameVersion(ds: seq<Delivery>, d: Delivery, e: Delivery)
    requires Identified(ds + [d]) && e in ds && WellFormed(d) && WellFormed(e) && IdOf(e) == IdOf(d)
    ensures KeyOf(d) == KeyOf(e) && VersionOf(d) == VersionOf(e)
  {
    var i :| 0 <= i < |ds| && ds[i] == e;
    var all := ds + [d];
    assert all[i] == e && all[|ds|] == d;
  }

  lemma KnownNonNegative(versions: map<string, int>, ds: seq<Delivery>, key: string)
    requires IsPointwiseMax(versions, ds)
    ensures Known(versions, key) >= 0
  {
    if key in versions { assert Attained(versions[key], ds, key); }
  }

  /** After any deliveries the client holds the pointwise maximum of the versions seen. */
  lemma {:induction false} Converges(ds: seq<Delivery>)
    requires Identified(ds)
    ensures IsPointwiseMax(ReceivedAll(START, ds).versions, ds)
    ensures SeenCovered(ReceivedAll(START, ds), ds)
    decreases |ds|
  {
    hide Received;
    if ds != [] {
      var n := |ds| - 1;
      assert ds[..n] + [ds[n]] == ds;
      Converges(ds[..n]);
      StepConverges(ReceivedAll(START, ds[..n]), ds[..n], ds[n]);
    }
  }

  lemma PointwiseMaxUnique(a: map<string, int>, b: map<string, int>, ds: seq<Delivery>, es: seq<Delivery>)
    requires IsPointwiseMax(a, ds) && IsPointwiseMax(b, es)
    requires forall d :: d in ds <==> d in es
    ensures a == b
  {
    forall key ensures Known(a, key) == Known(b, key) && (key in a <==> key in b) {
      KnownNonNegative(a, ds, key);
      KnownNonNegative(b, es, key);
      assert AtLeastAll(Known(a, key), ds, key) && AtLeastAll(Known(b, key), es, key);
      if key in a { assert Attained(a[key], ds, key); }
      if key in b { assert Attained(b[key], es, key); }
    }
    assert forall key | key in a :: a[key] == Known(a, key) && b[key] == Known(b, key);
  }

  /** Reordering or duplicating deliveries does not change what the client ends up with. */
  lemma OrderFree(ds: seq<Delivery>, es: seq<Delivery>)
    requires Identified(ds) && forall d :: d in ds <==> d in es
    ensures ReceivedAll(START, ds).versions == ReceivedAll(START, es).versions
  {
    hide ReceivedAll, IsPointwiseMax;
    forall i, j | 0 <= i < |es| && 0 <= j < |es| && WellFormed(es[i]) && WellFormed(es[j]) && IdOf(es[i]) == IdOf(es[j])
      ensures KeyOf(es[i]) == KeyOf(es[j]) && VersionOf(es[i]) == VersionOf(es[j])
    {
      assert es[i] in ds && es[j] in ds;
    }
    Converges(ds);
    Converges(es);
    PointwiseMaxUnique(ReceivedAll(START, ds).versions, ReceivedAll(START, es).versions, ds, es);
  }

  /**
   * The premise is needed: when one id stands for two versions, the order of delivery shows in the result.
   */
  lemma ReusedIdSeesOrder(a: Delivery, b: Delivery)
    requires WellFormed(a) && WellFormed(b) && IdOf(a) == IdOf(b)
    ensures (KeyOf(a), VersionOf(a)) != (KeyOf(b), VersionOf(b))
      <==> ReceivedAll(START, [a, b]).versions != ReceivedAll(START, [b, a]).versions
  {
    Two(a, b);
    Two(b, a);
    var one, other := map[KeyOf(a) := VersionOf(a)], map[KeyOf(b) := VersionOf(b)];
    if one == other {
      assert KeyOf(a) in other && one[KeyOf(a)] == other[KeyOf(a)];
    }
  }

  lemma Two(a: Delivery, b: Delivery)
    requires WellFormed(a) && WellFormed(b) && IdOf(a) == IdOf(b)
    ensures ReceivedAll(START, [a, b]).versions == map[KeyOf(a) := VersionOf(a)]
  {
    assert [a, b][..1] == [a] && [a][..0] == [];
    assert ReceivedAll(START, [a]) == Received(START, a);
    assert ReceivedAll(START, [a, b]) == Received(ReceivedAll(START, [a]), b);
  }

  // ----- effects

  /** Each taken event is taken once, versions of one aggregate only go up, and the last one is the version held. */
  predicate Ordered(s: State) {
    && (forall i | 0 <= i < |s.effects| ::
          s.effects[i].eventId in s.seen && 0 < s.effects[i].version <= Known(s.versions, s.effects[i].key))
    && (forall i, j | 0 <= i < j < |s.effects| ::
          s.effects[i].eventId != s.effects[j].eventId
          && (s.effects[i].key == s.effects[j].key ==> s.effects[i].version < s.effects[j].version))
  }

  ghost predicate VersionsPositive(s: State) { forall key | key in s.versions :: s.versions[key] > 0 }

  lemma StepOrdered(s: State, d: Delivery)
    requires Ordered(s) && VersionsPositive(s)
    ensures Ordered(Received(s, d)) && VersionsPositive(Received(s, d))
    ensures s.effects <= Received(s, d).effects
  {
  }

  /** No event is applied twice, and the versions applied to one aggregate strictly increase, for any deliveries. */
  lemma {:induction false} EffectsOrdered(s: State, ds: seq<Delivery>)
    requires Ordered(s) && VersionsPositive(s)
    ensures Ordered(ReceivedAll(s, ds)) && VersionsPositive(ReceivedAll(s, ds))
    ensures s.effects <= ReceivedAll(s, ds).effects
    decreases |ds|
  {
    hide Received, Ordered;
    if ds != [] {
      var n := |ds| - 1;
      EffectsOrdered(s, ds[..n]);
      StepOrdered(ReceivedAll(s, ds[..n]), ds[n]);
    }
  }

  /** Whether a message is taken: it is new, and newer than what is known of its aggregate. */
  ghost predicate Takes(seen: set<string>, versions: map<string, int>, message: Delivery) {
    && message.data.Some? && message.data.value.eventId != "" && message.data.value.eventId !in seen
    && message.data.value.aggregate.Some? && message.data.value.aggregate.value.version.Some?
    && var key := message.data.value.aggregate.value.aggregateType + ":" + message.data.value.aggregate.value.id;
       var version := message.data.value.aggregate.value.version.value;
       -9007199254740991 <= version <= 9007199254740991 && version > if key in versions then versions[key] else 0
  }

  /** The client as an object. */
  class Client {
    var seenEventIds: set<string>
    var aggregateVersions: map<string, int>
    var cursor: string
    /** What was handed to the page, in order. */
    ghost var effects: seq<Effect>
    /** Every message that was received, taken or not. */
    ghost var received: seq<Delivery>

    constructor ()
      ensures View() == START && received == []
    {
      seenEventIds, aggregateVersions, cursor, effects, received := {}, map[], "", [], [];
    }

    ghost function View(): State
      reads this
    {
      State(seenEventIds, aggregateVersions, cursor, effects)
    }

    method Receive(message: Delivery) returns (reaction: Option<Reaction>)
      modifies this
      ensures View() == Received(old(View()), message)
      ensures received == old(received) + [message]
      ensures reaction.None? ==> unchanged(this`seenEventIds, this`aggregateVersions, this`cursor, this`effects)
      ensures reaction.Some? <==> Takes(old(seenEventIds), old(aggregateVersions), message)
      ensures reaction.Some? ==>
        var event := message.data.value;
        var key, version := event.aggregate.value.aggregateType + ":" + event.aggregate.value.id, event.aggregate.value.version.value;
        && seenEventIds == old(seenEventIds) + {event.eventId}
        && aggregateVersions == old(aggregateVersions)[key := version]
        && cursor == (if message.lastEventId == "" then old(cursor) else message.lastEventId)
        && effects == old(effects) + [Effect(event.eventId, key, version, reaction.value)]
      ensures reaction.Some? ==>
        && (message.eventType == "system.reconcile-required" <==> reaction.value == Reconcile)
        && (message.eventType == "system.permission-revoked" <==> reaction.value == CloseSource)
      ensures reaction == if View() == old(View()) then None else Some(ReactionTo(message.eventType))
    {
      received := received + [message];
      if message.data.None? { return None; }
      var event := message.data.value;
      if event.eventId == "" || event.aggregate.None? { return None; }
      if event.eventId in seenEventIds { return None; }
      var aggregateKey := Key(event.aggregate.value);
      var version := event.aggregate.value.version;
      var knownVersion := Known(aggregateVersions, aggregateKey);
      if !SafeInteger(version) || version.value <= knownVersion { return None; }
      seenEventIds := seenEventIds + {event.eventId};
      aggregateVersions := aggregateVersions[aggregateKey := version.value];
      if message.lastEventId != "" { cursor := message.lastEventId; }
      reaction := Some(ReactionTo(message.eventType));
      effects := effects + [Effect(event.eventId, aggregateKey, version.value, reaction.value)];
      assert |effects| != |old(effects)|;
    }
  }
}
