/**
 * The durable log of realtime events (modules/realtime/event-store.js) over the table of domain-schema.js, and the
 * client's page-by-page replay of it (public/js/realtime-inbox.js).
 */
module EventStore {
  import opened Wrappers
  import opened SseProtocol

  datatype Row = Row(sequence: nat, id: string, tenantId: string, eventType: string, aggregateType: string,
                     aggregateId: string, version: int, payload: Payload, expiresAt: int)

  const EVENT_TYPES: set<string> := {
    "inbox.message.created", "inbox.conversation.updated", "inbox.assignment.changed", "inbox.sla.alert",
    "presence.changed", "system.reconcile-required", "system.permission-revoked"
  }

  lemma EventTypesTell(typ: string)
    ensures typ in EVENT_TYPES <==>
      typ == "inbox.message.created" || typ == "inbox.conversation.updated" || typ == "inbox.assignment.changed"
      || typ == "inbox.sla.alert" || typ == "presence.changed" || typ == "system.reconcile-required"
      || typ == "system.permission-revoked"
  {
  }

  /** The unique constraint of the table. */
  predicate SameVersion(a: Row, b: Row) {
    a.tenantId == b.tenantId && a.aggregateType == b.aggregateType && a.aggregateId == b.aggregateId
    && a.version == b.version
  }

  /** A table as the constraints allow it, in the order of the generated sequence, whose next value is `next`. */
  predicate ValidLog(rows: seq<Row>, next: nat) {
    && (forall i | 0 <= i < |rows| ::
          0 < rows[i].sequence < next && rows[i].eventType in EVENT_TYPES && rows[i].version >= 0)
    && (forall i, j | 0 <= i < j < |rows| ::
          rows[i].sequence < rows[j].sequence && rows[i].id != rows[j].id && !SameVersion(rows[i], rows[j]))
  }

  /** The rows of a tenant past a cursor, in order. */
  function Past(rows: seq<Row>, tenantId: string, cursor: nat): seq<Row> {
    if rows == [] then []
    else
      var n := |rows| - 1;
      Past(rows[..n], tenantId, cursor)
      + if rows[n].tenantId == tenantId && rows[n].sequence > cursor then [rows[n]] else []
  }

  /** The same rows without those that have expired. */
  function Live(rows: seq<Row>, tenantId: string, cursor: nat, now: int): seq<Row> {
    if rows == [] then []
    else
      var n := |rows| - 1;
      Live(rows[..n], tenantId, cursor, now)
      + if rows[n].tenantId == tenantId && rows[n].sequence > cursor && rows[n].expiresAt > now then [rows[n]] else []
  }

  predicate NoneExpired(rows: seq<Row>, tenantId: string, cursor: nat, now: int) {
    forall i | 0 <= i < |rows| && rows[i].tenantId == tenantId && rows[i].sequence > cursor :: rows[i].expiresAt > now
  }

  function Bound(limit: int, expand: bool): (bound: nat)
    ensures limit < 0 ==> bound == 1
    ensures limit == 0 ==> bound == 100
    ensures 1 <= limit <= (if expand then 10_000 else 1000) ==> bound == limit
    ensures (if expand then 10_000 else 1000) < limit ==> bound == if expand then 10_000 else 1000
  {
    var requested := if limit == 0 then 100 else if limit < 1 then 1 else limit;
    var cap := if expand then 10000 else 1000;
    if requested < cap then requested else cap
  }

  function Take(rows: seq<Row>, n: nat): (taken: seq<Row>)
    ensures taken <= rows && |taken| <= n && (|taken| < n ==> taken == rows)
  {
    if |rows| <= n then rows else rows[..n]
  }

  // ----- facts about the rows past a cursor

  predicate Increasing(rows: seq<Row>) { forall i, j | 0 <= i < j < |rows| :: rows[i].sequence < rows[j].sequence }

  /** Exactly the tenant's rows past the cursor, once each and in the order of their sequence. */
  lemma {:induction false} PastExact(rows: seq<Row>, tenantId: string, cursor: nat)
    requires Increasing(rows)
    ensures Increasing(Past(rows, tenantId, cursor))
    ensures forall r :: r in Past(rows, tenantId, cursor) <==> r in rows && r.tenantId == tenantId && r.sequence > cursor
    decreases |rows|
  {
    if rows != [] {
      var n := |rows| - 1;
      PastExact(rows[..n], tenantId, cursor);
      assert rows == rows[..n] + [rows[n]];
      var p := Past(rows[..n], tenantId, cursor);
      forall i | 0 <= i < |p| ensures p[i].sequence < rows[n].sequence {
        assert p[i] in rows[..n];
      }
    }
  }

  lemma {:induction false} LiveIsPast(rows: seq<Row>, tenantId: string, cursor: nat, now: int)
    requires NoneExpired(rows, tenantId, cursor, now)
    ensures Live(rows, tenantId, cursor, now) == Past(rows, tenantId, cursor)
    decreases |rows|
  {
    if rows != [] { LiveIsPast(rows[..|rows| - 1], tenantId, cursor, now); }
  }

  /** Nothing lies past the last sequence handed out. */
  lemma {:induction false} PastAll(rows: seq<Row>, tenantId: string, cursor: nat)
    requires forall i | 0 <= i < |rows| :: rows[i].sequence <= cursor
    ensures Past(rows, tenantId, cursor) == []
    decreases |rows|
  {
    if rows != [] { PastAll(rows[..|rows| - 1], tenantId, cursor); }
  }

  /** Moving the cursor to a row past it drops exactly the rows up to that one. */
  lemma {:induction false} PastFrom(rows: seq<Row>, tenantId: string, cursor: nat, k: nat)
    requires Increasing(rows) && k < |Past(rows, tenantId, cursor)|
    ensures Past(rows, tenantId, Past(rows, tenantId, cursor)[k].sequence) == Past(rows, tenantId, cursor)[k + 1..]
    decreases |rows|
  {
    var n := |rows| - 1;
    var head, last := rows[..n], rows[n];
    var p := Past(head, tenantId, cursor);
    if k < |p| {
      PastFrom(head, tenantId, cursor, k);
      PastBounded(head, tenantId, cursor, k, last.sequence);
      PastAbove(head, tenantId, cursor, k);
    } else {
      assert Past(rows, tenantId, cursor) == p + [last];
      assert forall i | 0 <= i < |rows| :: rows[i].sequence <= last.sequence;
      PastAll(rows, tenantId, last.sequence);
    }
  }

  lemma PastBounded(rows: seq<Row>, tenantId: string, cursor: nat, k: nat, bound: nat)
    requires Increasing(rows) && k < |Past(rows, tenantId, cursor)|
    requires forall i | 0 <= i < |rows| :: rows[i].sequence < bound
    ensures Past(rows, tenantId, cursor)[k].sequence < bound
  {
    hide Past;
    PastExact(rows, tenantId, cursor);
    assert Past(rows, tenantId, cursor)[k] in rows;
  }

  lemma PastAbove(rows: seq<Row>, tenantId: string, cursor: nat, k: nat)
    requires Increasing(rows) && k < |Past(rows, tenantId, cursor)|
    ensures Past(rows, tenantId, cursor)[k].sequence > cursor
  {
    hide Past;
    PastExact(rows, tenantId, cursor);
    assert Past(rows, tenantId, cursor)[k] in Past(rows, tenantId, cursor);
  }

  // ----- the log

  datatype Appended = Stored(row: Row) | Violation

  datatype Page = Page(cursorExpired: bool, currentCursor: nat, events: seq<Row>)

  class Log {
    /** The table, in the order of its generated sequence. */
    var rows: seq<Row>
    /** The next value of that sequence; a failed insert uses one up. */
    var next: nat

    constructor ()
      ensures Valid() && rows == [] && next == 1
    {
      rows, next := [], 1;
    }

    predicate Valid()
      reads this
    {
      ValidLog(rows, next) && next > 0
    }

    /** `appendEvent`; the constraints of the table decide. */
    method AppendEvent(id: string, tenantId: string, eventType: string, aggregateType: string, aggregateId: string,
                       version: int, payload: Payload, expiresAt: int) returns (r: Appended)
      requires Valid()
      modifies this
      ensures Valid() && next == old(next) + 1
      ensures var row := Row(old(next), id, tenantId, eventType, aggregateType, aggregateId, version, payload, expiresAt);
        var stored := eventType in EVENT_TYPES && version >= 0
                      && forall i | 0 <= i < |old(rows)| ::
                           var other := old(rows)[i];
                           other.id != id
                           && !(other.tenantId == tenantId && other.aggregateType == aggregateType
                                && other.aggregateId == aggregateId && other.version == version);
        r == (if stored then Stored(row) else Violation) && rows == if stored then old(rows) + [row] else old(rows)
    {
      var row := Row(next, id, tenantId, eventType, aggregateType, aggregateId, version, payload, expiresAt);
      next := next + 1;
      if eventType !in EVENT_TYPES || version < 0 { return Violation; }
      if exists i | 0 <= i < |rows| :: rows[i].id == id || SameVersion(rows[i], row) { return Violation; }
      rows := rows + [row];
      return Stored(row);
    }

    method CurrentSequence(tenantId: string) returns (sequence: nat)
      ensures forall i | 0 <= i < |rows| && rows[i].tenantId == tenantId :: rows[i].sequence <= sequence
      ensures sequence == 0 || exists i :: 0 <= i < |rows| && rows[i].tenantId == tenantId && rows[i].sequence == sequence
    {
      sequence := 0;
      for k := 0 to |rows|
        invariant forall i | 0 <= i < k && rows[i].tenantId == tenantId :: rows[i].sequence <= sequence
        invariant sequence == 0 || exists i :: 0 <= i < k && rows[i].tenantId == tenantId && rows[i].sequence == sequence
      {
        if rows[k].tenantId == tenantId && rows[k].sequence > sequence { sequence := rows[k].sequence; }
      }
    }

    /** `replayEvents` without an audience. */
    method ReplayEvents(tenantId: string, cursor: nat, limit: int, expand: bool, now: int) returns (page: Page)
      ensures page.cursorExpired <==> !NoneExpired(rows, tenantId, cursor, now)
      ensures forall i | 0 <= i < |rows| && rows[i].tenantId == tenantId :: rows[i].sequence <= page.currentCursor
      ensures page.currentCursor == 0
           || exists i :: 0 <= i < |rows| && rows[i].tenantId == tenantId && rows[i].sequence == page.currentCursor
      ensures |page.events| <= if expand then 10_000 else 1000
      ensures page.events == if page.cursorExpired then [] else Take(Past(rows, tenantId, cursor), Bound(limit, expand))
    {
      var current := CurrentSequence(tenantId);
      if exists i | 0 <= i < |rows| :: rows[i].tenantId == tenantId && rows[i].sequence > cursor && rows[i].expiresAt <= now {
        return Page(true, current, []);
      }
      LiveIsPast(rows, tenantId, cursor, now);
      return Page(false, current, Take(Live(rows, tenantId, cursor, now), Bound(limit, expand)));
    }

    /** `pruneExpiredEvents`. */
    method PruneExpiredEvents(tenantId: string, before: int)
      requires Valid()
      modifies this`rows
      ensures Valid()
      ensures rows == Kept(old(rows), tenantId, before)
    {
      KeptValid(rows, next, tenantId, before);
      rows := Kept(rows, tenantId, before);
    }
  }

  function Kept(rows: seq<Row>, tenantId: string, before: int): (kept: seq<Row>)
    ensures forall i | 0 <= i < |kept| :: kept[i] in rows && !(kept[i].tenantId == tenantId && kept[i].expiresAt <= before)
  {
    if rows == [] then []
    else
      var n := |rows| - 1;
      Kept(rows[..n], tenantId, before)
      + if rows[n].tenantId == tenantId && rows[n].expiresAt <= before then [] else [rows[n]]
  }

  /** Exactly the rows that are another tenant's or expire later stay. */
  lemma {:induction false} KeptExact(rows: seq<Row>, tenantId: string, before: int, row: Row)
    ensures row in Kept(rows, tenantId, before) <==> row in rows && (row.tenantId != tenantId || row.expiresAt > before)
    decreases |rows|
  {
    if rows != [] { KeptExact(rows[..|rows| - 1], tenantId, before, row); }
  }

  lemma {:induction false} KeptValid(rows: seq<Row>, next: nat, tenantId: string, before: int)
    requires ValidLog(rows, next)
    ensures ValidLog(Kept(rows, tenantId, before), next)
    decreases |rows|
  {
    if rows != [] {
      var n := |rows| - 1;
      KeptValid(rows[..n], next, tenantId, before);
      assert forall r | r in rows[..n] ::
          r.sequence < rows[n].sequence && r.id != rows[n].id && !SameVersion(r, rows[n]);
    }
  }

  lemma LivePush(rows: seq<Row>, row: Row, tenantId: string, cursor: nat, now: int)
    ensures Live(rows + [row], tenantId, cursor, now) == Live(rows, tenantId, cursor, now)
      + if row.tenantId == tenantId && row.sequence > cursor && row.expiresAt > now then [row] else []
  {
    assert (rows + [row])[..|rows|] == rows;
  }

  /** Pruning never removes a row that a replay could still hand out. */
  lemma {:induction false} PruneInvisible(rows: seq<Row>, tenantId: string, cursor: nat, before: int, now: int)
    requires before <= now
    ensures Live(Kept(rows, tenantId, before), tenantId, cursor, now) == Live(rows, tenantId, cursor, now)
    decreases |rows|
  {
    hide Live;
    if rows != [] {
      var n := |rows| - 1;
      PruneInvisible(rows[..n], tenantId, cursor, before, now);
      LivePush(rows[..n], rows[n], tenantId, cursor, now);
      assert rows == rows[..n] + [rows[n]];
      var kept := Kept(rows[..n], tenantId, before);
      if rows[n].tenantId == tenantId && rows[n].expiresAt <= before {
        assert Kept(rows, tenantId, before) == kept;
      } else {
        LivePush(kept, rows[n], tenantId, cursor, now);
        assert Kept(rows, tenantId, before) == kept + [rows[n]];
      }
    }
  }

  /**
   * But pruning hides the gap it leaves: a cursor that lies before expired rows is told to start over until they are
   * pruned, and is served as if nothing were missing afterwards.
   */
  lemma PrunedGapUnnoticed(rows: seq<Row>, tenantId: string, cursor: nat, now: int)
    ensures NoneExpired(Kept(rows, tenantId, now), tenantId, cursor, now)
    ensures Past(Kept(rows, tenantId, now), tenantId, cursor) == Live(rows, tenantId, cursor, now)
    ensures NoneExpired(rows, tenantId, cursor, now) <==> Live(rows, tenantId, cursor, now) == Past(rows, tenantId, cursor)
  {
    LiveIsPast(Kept(rows, tenantId, now), tenantId, cursor, now);
    PruneInvisible(rows, tenantId, cursor, now, now);
    if NoneExpired(rows, tenantId, cursor, now) {
      LiveIsPast(rows, tenantId, cursor, now);
    } else {
      LiveShorter(rows, tenantId, cursor, now);
    }
  }

  lemma {:induction false} LiveShorter(rows: seq<Row>, tenantId: string, cursor: nat, now: int)
    ensures |Live(rows, tenantId, cursor, now)| <= |Past(rows, tenantId, cursor)|
    ensures !NoneExpired(rows, tenantId, cursor, now)
      ==> |Live(rows, tenantId, cursor, now)| < |Past(rows, tenantId, cursor)|
    decreases |rows|
  {
    if rows != [] {
      var n := |rows| - 1;
      LiveShorter(rows[..n], tenantId, cursor, now);
      assert forall i | 0 <= i < n :: rows[..n][i] == rows[i];
    }
  }

  function MessageRow(sequence: nat, id: string, version: int, expiresAt: int): Row {
    Row(sequence, id, "tenant", "inbox.message.created", "conversation", "c", version, Bare(""), expiresAt)
  }

  /**
   * A table of two events of which the first has expired: a client that has seen neither is told to start over before
   * pruning, and is handed the second event alone after it.
   */
  lemma PrunedGapExample() returns (rows: seq<Row>, kept: seq<Row>)
    ensures ValidLog(rows, 3) && kept == Kept(rows, "tenant", 10) && ValidLog(kept, 3)
    ensures !NoneExpired(rows, "tenant", 0, 10) && NoneExpired(kept, "tenant", 0, 10)
    ensures |rows| == 2 && Past(rows, "tenant", 0) == rows && Past(kept, "tenant", 0) == rows[1..]
  {
    hide Past, Kept;
    var first, second := MessageRow(1, "a", 1, 5), MessageRow(2, "b", 2, 20);
    rows := [first, second];
    assert rows[0].expiresAt == 5;
    kept := [second];
    KeptValid(rows, 3, "tenant", 10);
    TwoRows(first, second);
  }

  lemma TwoRows(first: Row, second: Row)
    requires first.tenantId == second.tenantId == "tenant" && first.sequence > 0 && second.sequence > 0
    requires first.expiresAt <= 10 < second.expiresAt
    ensures Kept([first, second], "tenant", 10) == [second]
    ensures Past([first, second], "tenant", 0) == [first, second] && Past([second], "tenant", 0) == [second]
  {
    assert [first, second][..1] == [first] && [first][..0] == [] && [second][..0] == [];
    assert Kept([first], "tenant", 10) == [];
    assert Past([first], "tenant", 0) == [first];
  }
}
