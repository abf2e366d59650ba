/** Publishing to the live connections of a tenant (modules/realtime/sse-hub.js). */
module SseHub {
  import opened Wrappers
  import opened Decimals
  import opened SseProtocol
  import opened ConnectionRegistry
  import RealtimeInbox

  datatype Audience = Audience(teamIds: set<string>, capabilities: set<string>)

  predicate AudienceAllows(session: Session, audience: Audience) {
    && (forall t | t in audience.teamIds :: t in session.teamIds)
    && (forall c | c in audience.capabilities :: "*" in session.capabilities || c in session.capabilities)
  }

  /** All required teams, and all required capabilities unless the session has them all. */
  lemma AudienceTells(session: Session, audience: Audience)
    ensures AudienceAllows(session, audience) <==>
      audience.teamIds <= session.teamIds
      && ("*" in session.capabilities || audience.capabilities <= session.capabilities)
  {
  }

  /** The notice sent before a connection that is no longer authorized is closed. */
  function Revoked(event: Outgoing): Outgoing {
    Outgoing(event.sequence, "", "system.permission-revoked", None,
             Object("permission-revoked-" + SequenceText(event.sequence), None, ""))
  }

  lemma RevokedTells(event: Outgoing)
    ensures Revoked(event).sequence == event.sequence && Revoked(event).eventType == "system.permission-revoked"
    ensures DataOf(Revoked(event)).aggregate == None
    ensures event.sequence >= 0 ==> DataOf(Revoked(event)).eventId == "permission-revoked-" + Decimal(event.sequence)
  {
    hide Decimal;
  }

  /** A sequence in the notice's id; the notice is only printed for non-negative ones. */
  function SequenceText(sequence: int): string { if sequence < 0 then "-" + Decimal(-sequence) else Decimal(sequence) }

  /** The registered connections of a tenant, or all of them when no tenant is named. */
  function Entries(connections: seq<Connection>, tenantId: string): (targets: seq<Connection>)
    ensures forall c | c in targets :: c in connections && (tenantId == "" || c.session.tenantId == tenantId)
  {
    if connections == [] then []
    else
      var n := |connections| - 1;
      Entries(connections[..n], tenantId)
      + if tenantId == "" || connections[n].session.tenantId == tenantId then [connections[n]] else []
  }

  lemma EntriesNone(tenantId: string)
    ensures Entries([], tenantId) == []
  {
  }

  lemma EntriesPush(connections: seq<Connection>, c: Connection, tenantId: string)
    ensures Entries(connections + [c], tenantId)
      == Entries(connections, tenantId) + if tenantId == "" || c.session.tenantId == tenantId then [c] else []
  {
    assert (connections + [c])[..|connections|] == connections;
  }

  /** In the order of their registration. */
  lemma {:induction false} EntriesConcat(a: seq<Connection>, b: seq<Connection>, tenantId: string)
    ensures Entries(a + b, tenantId) == Entries(a, tenantId) + Entries(b, tenantId)
    decreases |b|
  {
    hide Entries;
    EntriesNone(tenantId);
    if b == [] {
      assert a + b == a;
    } else {
      var n := |b| - 1;
      assert a + b == (a + b[..n]) + [b[n]];
      EntriesPush(a + b[..n], b[n], tenantId);
      EntriesPush(b[..n], b[n], tenantId);
      EntriesConcat(a, b[..n], tenantId);
      assert b == b[..n] + [b[n]];
    }
  }

  lemma {:induction false} EntriesMembers(connections: seq<Connection>, tenantId: string)
    ensures forall c | c in connections && (tenantId == "" || c.session.tenantId == tenantId) ::
      c in Entries(connections, tenantId)
    ensures Distinct(connections) ==> Distinct(Entries(connections, tenantId))
    decreases |connections|
  {
    if connections != [] {
      var n := |connections| - 1;
      EntriesMembers(connections[..n], tenantId);
      assert connections == connections[..n] + [connections[n]];
      if Distinct(connections) { assert connections[n] !in connections[..n]; }
    }
  }

  /** What publishing does to one connection. */
  ghost predicate Outcome(before: Link, after: Link, session: Session, event: Outgoing, audience: Audience,
                          authorize: Session -> bool, stringify: Data -> string, limits: Limits) {
    if !AudienceAllows(session, audience) then after == before
    else if authorize(session) then
      var frame := FrameOf(event, stringify);
      frame.Some? && exists more :: after == Sent(before, frame.value, more, limits)
    else
      var frame := FrameOf(Revoked(event), stringify);
      frame.Some? && exists more :: after == Sent(before, frame.value, more, limits).(closed := true, ended := true)
  }

  /** Whether the frame for this connection cannot be printed, which makes `publish` throw. */
  predicate Throws(session: Session, event: Outgoing, audience: Audience,
                   authorize: Session -> bool, stringify: Data -> string) {
    AudienceAllows(session, audience)
    && FrameOf(if authorize(session) then event else Revoked(event), stringify).None?
  }

  /** Of the connections handled, how many took the event itself. */
  ghost function Deliveries(targets: seq<Connection>, before: map<Connection, Link>, event: Outgoing, audience: Audience,
                            authorize: Session -> bool, stringify: Data -> string, limits: Limits): nat
    requires forall c | c in targets :: c in before
  {
    if targets == [] then 0
    else
      var n := |targets| - 1;
      assert targets[n] in targets && forall c | c in targets[..n] :: c in targets;
      Deliveries(targets[..n], before, event, audience, authorize, stringify, limits)
      + if Takes(targets[n].session, before[targets[n]], event, audience, authorize, stringify, limits) then 1 else 0
  }

  /** Whether a connection in the given state takes the event. */
  predicate Takes(session: Session, link: Link, event: Outgoing, audience: Audience,
                  authorize: Session -> bool, stringify: Data -> string, limits: Limits) {
    var frame := FrameOf(event, stringify);
    AudienceAllows(session, audience) && authorize(session) && frame.Some? && Accepts(link, frame.value, limits)
  }

  ghost function Snapshot(connections: seq<Connection>): map<Connection, Link>
    reads connections
  {
    map c | c in connections :: c.View()
  }

  /** One connection of the loop. */
  method PublishTo(registry: Registry, c: Connection, event: Outgoing, audience: Audience,
                   authorize: Session -> bool, stringify: Data -> string)
    returns (thrown: bool, counted: bool)
    requires registry.Valid() && c in registry.connections
    modifies registry`connections, c
    ensures registry.Valid()
    ensures thrown == Throws(c.session, event, audience, authorize, stringify)
    ensures thrown ==> c.View() == old(c.View()) && registry.connections == old(registry.connections)
    ensures !thrown
      ==> Outcome(old(c.View()), c.View(), c.session, event, audience, authorize, stringify, registry.limits)
    ensures !thrown
      ==> counted == Takes(c.session, old(c.View()), event, audience, authorize, stringify, registry.limits)
    ensures registry.connections == if c.closed then Without(old(registry.connections), c) else old(registry.connections)
  {
    if !AudienceAllows(c.session, audience) { return false, false; }
    ghost var more;
    if !authorize(c.session) {
      var notice := FrameOf(Revoked(event), stringify);
      if notice.None? { return true, false; }
      WithoutMembers(registry.connections, c);
      WithoutAbsent(Without(registry.connections, c), c);
      var taken;
      taken, more := registry.SendTo(c, notice.value);
      registry.Close(c);
      assert c.View() == Sent(old(c.View()), notice.value, more, registry.limits).(closed := true, ended := true);
      return false, false;
    }
    var frame := FrameOf(event, stringify);
    if frame.None? { return true, false; }
    counted, more := registry.SendTo(c, frame.value);
    return false, counted;
  }

  /**
   * A publication that has handled `upTo` of its targets; the maps hold the connections of the registry before and
   * after.
   */
  ghost predicate Published(targets: seq<Connection>, upTo: nat, delivered: nat, before: map<Connection, Link>,
                            after: map<Connection, Link>, event: Outgoing, audience: Audience,
                            authorize: Session -> bool, stringify: Data -> string, limits: Limits) {
    && upTo <= |targets| && after.Keys == before.Keys && (forall c | c in targets :: c in before)
    && (forall c | c in targets[..upTo] ::
          Outcome(before[c], after[c], c.session, event, audience, authorize, stringify, limits))
    && (forall c | c in before && c !in targets[..upTo] :: after[c] == before[c])
    && delivered == Deliveries(targets[..upTo], before, event, audience, authorize, stringify, limits)
  }

  /** The registry keeps exactly those of its connections that are not closed. */
  ghost predicate Shed(connections: seq<Connection>, after: map<Connection, Link>) {
    (forall c | c in connections :: c in after) && forall c | c in after :: c in connections <==> !after[c].closed
  }

  /** `publish`, without the operations that other requests may perform while it awaits an authorization. */
  method Publish(registry: Registry, tenantId: string, event: Outgoing, audience: Audience,
                 authorize: Session -> bool, stringify: Data -> string)
    returns (delivered: nat, thrown: bool, ghost upTo: nat)
    requires registry.Valid()
    modifies registry`connections, registry.connections
    ensures registry.Valid()
    ensures var targets, before := Entries(old(registry.connections), tenantId), old(Snapshot(registry.connections));
      var after := Snapshot(old(registry.connections));
      && Published(targets, upTo, delivered, before, after, event, audience, authorize, stringify, registry.limits)
      && Shed(registry.connections, after)
      && (thrown <==> upTo < |targets|)
      && (thrown ==> Throws(targets[upTo].session, event, audience, authorize, stringify))
  {
    hide Deliveries, Outcome, Throws, Takes, Entries, Without, Registry.Valid, Shed, Published, Snapshot;
    delivered, upTo := 0, 0;
    var targets := Entries(registry.connections, tenantId);
    ghost var all, before := registry.connections, Snapshot(registry.connections);
    AllOpen(registry, tenantId);
    NothingPublished(targets, before, event, audience, authorize, stringify, registry.limits);
    for i := 0 to |targets|
      invariant upTo == i && registry.Valid() && Shed(registry.connections, Snapshot(all))
      invariant Published(targets, i, delivered, before, Snapshot(all),
                          event, audience, authorize, stringify, registry.limits)
    {
      assert targets[i] in all;
      thrown, delivered :=
        PublishNext(registry, targets, i, delivered, all, before, event, audience, authorize, stringify);
      if thrown { return delivered, thrown, i; }
      upTo := i + 1;
    }
    return delivered, false, upTo;
  }

  /** One round of the loop, with what has been published so far. */
  method PublishNext(registry: Registry, targets: seq<Connection>, i: nat, delivered: nat, ghost all: seq<Connection>,
                     ghost before: map<Connection, Link>, event: Outgoing, audience: Audience,
                     authorize: Session -> bool, stringify: Data -> string)
    returns (thrown: bool, total: nat)
    requires registry.Valid() && Shed(registry.connections, Snapshot(all)) && Distinct(targets) && i < |targets|
    requires forall c | c in before :: !before[c].closed
    requires Published(targets, i, delivered, before, Snapshot(all),
                       event, audience, authorize, stringify, registry.limits)
    modifies registry`connections, targets[i]
    ensures registry.Valid() && Shed(registry.connections, Snapshot(all))
    ensures Published(targets, if thrown then i else i + 1, total, before, Snapshot(all),
                      event, audience, authorize, stringify, registry.limits)
    ensures thrown == Throws(targets[i].session, event, audience, authorize, stringify)
  {
    hide Deliveries, Outcome, Throws, Takes, Without, Registry.Valid, Shed, Published;
    var c := targets[i];
    ghost var was, present := Snapshot(all), registry.connections;
    NextIsRegistered(registry.connections, targets, i, delivered, before, was,
                     event, audience, authorize, stringify, registry.limits);
    var counted;
    thrown, counted := PublishTo(registry, c, event, audience, authorize, stringify);
    assert Snapshot(all) == was[c := c.View()];
    ShedStep(present, c, was, c.View());
    if thrown {
      assert Snapshot(all) == was;
      return thrown, delivered;
    }
    PublishedStep(targets, i, delivered, counted, before, was, c.View(),
                  event, audience, authorize, stringify, registry.limits);
    return thrown, if counted then delivered + 1 else delivered;
  }

  lemma NothingPublished(targets: seq<Connection>, before: map<Connection, Link>, event: Outgoing, audience: Audience,
                         authorize: Session -> bool, stringify: Data -> string, limits: Limits)
    requires forall c | c in targets :: c in before
    ensures Published(targets, 0, 0, before, before, event, audience, authorize, stringify, limits)
  {
  }

  lemma NextIsRegistered(connections: seq<Connection>, targets: seq<Connection>, i: nat, delivered: nat,
                         before: map<Connection, Link>, after: map<Connection, Link>, event: Outgoing,
                         audience: Audience, authorize: Session -> bool, stringify: Data -> string, limits: Limits)
    requires Shed(connections, after) && Distinct(targets) && i < |targets|
    requires forall c | c in before :: !before[c].closed
    requires Published(targets, i, delivered, before, after, event, audience, authorize, stringify, limits)
    ensures targets[i] in connections && targets[i] in after && after[targets[i]] == before[targets[i]]
    ensures !before[targets[i]].closed
  {
    hide Outcome, Deliveries;
    assert targets[i] !in targets[..i];
  }

  lemma ShedStep(connections: seq<Connection>, c: Connection, after: map<Connection, Link>, link: Link)
    requires Shed(connections, after) && c in connections
    ensures Shed(if link.closed then Without(connections, c) else connections, after[c := link])
  {
    WithoutMembers(connections, c);
    var rest, now := if link.closed then Without(connections, c) else connections, after[c := link];
    forall d | d in now ensures d in rest <==> !now[d].closed {
      assert d in after;
    }
    forall d | d in rest ensures d in now {
      assert d in connections;
    }
  }

  lemma PublishedStep(targets: seq<Connection>, i: nat, delivered: nat, counted: bool, before: map<Connection, Link>,
                      after: map<Connection, Link>, link: Link, event: Outgoing, audience: Audience,
                      authorize: Session -> bool, stringify: Data -> string, limits: Limits)
    requires i < |targets| && Distinct(targets)
    requires Published(targets, i, delivered, before, after, event, audience, authorize, stringify, limits)
    requires Outcome(before[targets[i]], link, targets[i].session, event, audience, authorize, stringify, limits)
    requires counted == Takes(targets[i].session, before[targets[i]], event, audience, authorize, stringify, limits)
    ensures Published(targets, i + 1, if counted then delivered + 1 else delivered, before, after[targets[i] := link],
                      event, audience, authorize, stringify, limits)
  {
    hide Outcome, Deliveries, Takes;
    DeliveriesPush(targets, i, before, event, audience, authorize, stringify, limits);
    assert targets[i] !in targets[..i];
    assert targets[..i + 1] == targets[..i] + [targets[i]];
  }

  lemma AllOpen(registry: Registry, tenantId: string)
    requires registry.Valid()
    ensures var before := Snapshot(registry.connections);
      Shed(registry.connections, before) && forall c | c in before :: !before[c].closed
    ensures Distinct(Entries(registry.connections, tenantId))
    ensures forall c | c in Entries(registry.connections, tenantId) :: c in Snapshot(registry.connections)
  {
    EntriesMembers(registry.connections, tenantId);
  }

  lemma DeliveriesPush(targets: seq<Connection>, i: nat, before: map<Connection, Link>, event: Outgoing,
                       audience: Audience, authorize: Session -> bool, stringify: Data -> string, limits: Limits)
    requires i < |targets| && forall c | c in targets :: c in before
    ensures Deliveries(targets[..i + 1], before, event, audience, authorize, stringify, limits)
      == Deliveries(targets[..i], before, event, audience, authorize, stringify, limits)
         + if Takes(targets[i].session, before[targets[i]], event, audience, authorize, stringify, limits) then 1 else 0
  {
    hide Takes;
    assert targets[..i + 1][..i] == targets[..i];
  }

  /**
   * The notice carries no aggregate, so a client that receives it does nothing: it neither closes its stream nor
   * moves its cursor.
   */
  lemma NoticeIsIgnored(s: RealtimeInbox.State, event: Outgoing, lastEventId: string)
    ensures RealtimeInbox.Received(s,
      RealtimeInbox.Delivery(lastEventId, Revoked(event).eventType, Some(DataOf(Revoked(event))))) == s
  {
    hide SequenceText, RealtimeInbox.Key;
  }
}
