/** The inbound queue: receiving provider events (channel-webhook-service.js) and leasing them (webhook-worker.js). */
module WebhookInbox {
  import opened Wrappers
  import opened Retry
  import opened Leasing
  import opened InboundMessage

  datatype Status = Pending | Processing | Processed | Failed | DeadLetter

  datatype Lease = Free | Held(worker: string, token: string, lockedAt: int)

  datatype Row = Row(channelId: string, tenantId: string, payload: Payload, status: Status, attempts: int, maxAttempts: int,
                     availableAt: int, receivedAt: int, lease: Lease)

  const DEFAULT_MAX_ATTEMPTS: int := 8

  // ----- receiving

  predicate Known(rows: map<string, Row>, channelId: string, providerEventId: string) {
    exists id | id in rows :: rows[id].channelId == channelId && rows[id].payload.providerEventId == providerEventId
  }

  function NewRow(channelId: string, tenantId: string, payload: Payload, now: int): Row {
    Row(channelId, tenantId, payload, Pending, 0, DEFAULT_MAX_ATTEMPTS, now, now, Free)
  }

  /** `insert ... on conflict(channel_id, provider_event_id) do nothing`. */
  function InsertOrIgnore(rows: map<string, Row>, id: string, row: Row): map<string, Row> {
    if Known(rows, row.channelId, row.payload.providerEventId) then rows else rows[id := row]
  }

  /** The unique constraint on (channel, provider event). */
  ghost predicate UniqueEvents(rows: map<string, Row>) {
    forall a, b | a in rows && b in rows && rows[a].channelId == rows[b].channelId
                  && rows[a].payload.providerEventId == rows[b].payload.providerEventId :: a == b
  }

  /** The provider event ids a channel has rows for. */
  ghost function EventIds(rows: map<string, Row>, channelId: string): set<string> {
    set id | id in rows && rows[id].channelId == channelId :: rows[id].payload.providerEventId
  }

  /** The rows after one webhook call, and how many events were new. */
  function ReceiveAll(rows: map<string, Row>, channelId: string, tenantId: string, events: seq<Payload>, ids: seq<string>, now: int)
      : (r: (map<string, Row>, nat))
    requires |ids| == |events|
  {
    if events == [] then (rows, 0)
    else
      var last := |events| - 1;
      var (before, accepted) := ReceiveAll(rows, channelId, tenantId, events[..last], ids[..last], now);
      (InsertOrIgnore(before, ids[last], NewRow(channelId, tenantId, events[last], now)),
       accepted + if Known(before, channelId, events[last].providerEventId) then 0 else 1)
  }

  predicate FreshIds(rows: map<string, Row>, ids: seq<string>) {
    && (forall i | 0 <= i < |ids| :: ids[i] !in rows)
    && (forall i, j | 0 <= i < j < |ids| :: ids[i] != ids[j])
  }

  ghost function ProviderIds(events: seq<Payload>): set<string> { set p | p in events :: p.providerEventId }

  ghost predicate Extends(rows: map<string, Row>, after: map<string, Row>, ids: seq<string>) {
    && rows.Keys <= after.Keys <= rows.Keys + (set x | x in ids)
    && forall id | id in rows :: after[id] == rows[id]
  }

  /**
   * However events repeat, within a call or across calls: old rows are untouched, every provider event has exactly
   * one row, and `accepted` counts the rows added.
   */
  lemma {:induction false} ReceiveDeduplicates(rows: map<string, Row>, channelId: string, tenantId: string,
                                               events: seq<Payload>, ids: seq<string>, now: int)
    requires UniqueEvents(rows) && |ids| == |events| && FreshIds(rows, ids)
    ensures var (after, accepted) := ReceiveAll(rows, channelId, tenantId, events, ids, now);
            && UniqueEvents(after)
            && Extends(rows, after, ids)
            && EventIds(after, channelId) == EventIds(rows, channelId) + ProviderIds(events)
            && |after| == |rows| + accepted
  {
    hide UniqueEvents, EventIds, ProviderIds, Extends, Known, FreshIds, InsertOrIgnore;
    if events != [] {
      var last := |events| - 1;
      var row := NewRow(channelId, tenantId, events[last], now);
      FreshFront(rows, ids);
      ReceiveDeduplicates(rows, channelId, tenantId, events[..last], ids[..last], now);
      var before := ReceiveAll(rows, channelId, tenantId, events[..last], ids[..last], now).0;
      FreshLast(rows, before, ids);
      InsertKeepsUnique(before, ids[last], row);
      InsertAdds(before, ids[last], row);
      ProviderIdsLast(events);
      ExtendsLast(rows, before, ids, row);
    } else {
      NothingReceived(rows, channelId, ids);
    }
  }

  lemma NothingReceived(rows: map<string, Row>, channelId: string, ids: seq<string>)
    ensures Extends(rows, rows, ids) && ProviderIds([]) == {}
  {
  }

  lemma FreshFront(rows: map<string, Row>, ids: seq<string>)
    requires ids != [] && FreshIds(rows, ids)
    ensures FreshIds(rows, ids[..|ids| - 1])
  {
  }

  lemma FreshLast(rows: map<string, Row>, before: map<string, Row>, ids: seq<string>)
    requires ids != [] && FreshIds(rows, ids) && Extends(rows, before, ids[..|ids| - 1])
    ensures ids[|ids| - 1] !in before
  {
  }

  lemma ProviderIdsLast(events: seq<Payload>)
    requires events != []
    ensures ProviderIds(events) == ProviderIds(events[..|events| - 1]) + {events[|events| - 1].providerEventId}
  {
    assert events == events[..|events| - 1] + [events[|events| - 1]];
  }

  lemma ExtendsLast(rows: map<string, Row>, before: map<string, Row>, ids: seq<string>, row: Row)
    requires ids != [] && FreshIds(rows, ids) && Extends(rows, before, ids[..|ids| - 1])
    ensures Extends(rows, InsertOrIgnore(before, ids[|ids| - 1], row), ids)
  {
    assert ids == ids[..|ids| - 1] + [ids[|ids| - 1]];
  }

  /** A row is as it was, or has just been received. */
  ghost predicate OldOrNew(rows: map<string, Row>, after: map<string, Row>, id: string) {
    if id in rows then id in after && after[id] == rows[id]
    else id in after ==> after[id].status == Pending && after[id].attempts == 0 && after[id].lease == Free
  }

  lemma {:induction false} ReceiveRow(rows: map<string, Row>, channelId: string, tenantId: string, events: seq<Payload>,
                                      ids: seq<string>, now: int, id: string)
    requires |ids| == |events| && forall i | 0 <= i < |ids| :: ids[i] !in rows
    ensures OldOrNew(rows, ReceiveAll(rows, channelId, tenantId, events, ids, now).0, id)
  {
    if events != [] {
      var last := |events| - 1;
      ReceiveRow(rows, channelId, tenantId, events[..last], ids[..last], now, id);
    }
  }

  /** A new row is that of one of the events: pending, untried, due at once, with eight attempts and no lease. */
  lemma {:induction false} NewRowsTell(rows: map<string, Row>, channelId: string, tenantId: string, events: seq<Payload>,
                                       ids: seq<string>, now: int, id: string)
    requires |ids| == |events| && id !in rows && id in ReceiveAll(rows, channelId, tenantId, events, ids, now).0
    ensures var row := ReceiveAll(rows, channelId, tenantId, events, ids, now).0[id];
      exists i :: 0 <= i < |events| && ids[i] == id && row == Row(channelId, tenantId, events[i], Pending, 0, 8, now, now, Free)
  {
    hide Known;
    if events != [] {
      var last := |events| - 1;
      var before := ReceiveAll(rows, channelId, tenantId, events[..last], ids[..last], now).0;
      if id in before && ReceiveAll(rows, channelId, tenantId, events, ids, now).0[id] == before[id] {
        NewRowsTell(rows, channelId, tenantId, events[..last], ids[..last], now, id);
        var i :| 0 <= i < last && ids[..last][i] == id
                 && before[id] == Row(channelId, tenantId, events[..last][i], Pending, 0, 8, now, now, Free);
        assert ids[i] == id;
      } else {
        assert ids[last] == id;
      }
    }
  }

  /** A redelivery of events that are all known changes nothing and is answered as a duplicate. */
  lemma {:induction false} RedeliveryChangesNothing(rows: map<string, Row>, channelId: string, tenantId: string,
                                                    events: seq<Payload>, ids: seq<string>, now: int)
    requires |ids| == |events|
    requires forall i | 0 <= i < |events| :: Known(rows, channelId, events[i].providerEventId)
    ensures ReceiveAll(rows, channelId, tenantId, events, ids, now) == (rows, 0)
  {
    if events != [] {
      var last := |events| - 1;
      assert forall i | 0 <= i < last :: events[..last][i] == events[i];
      hide Known;
      RedeliveryChangesNothing(rows, channelId, tenantId, events[..last], ids[..last], now);
    }
  }

  class Inbox {
    var rows: map<string, Row>

    constructor ()
      ensures rows == map[]
    {
      rows := map[];
    }

    /** One webhook call; `ids` stand for random UUIDs, one drawn per event whether or not it is used. */
    method Receive(channelId: string, tenantId: string, events: seq<Payload>, ids: seq<string>, now: int)
      returns (accepted: nat, duplicates: nat)
      requires |ids| == |events|
      modifies this
      ensures (rows, accepted) == ReceiveAll(old(rows), channelId, tenantId, events, ids, now)
      ensures duplicates == |events| - accepted
    {
      accepted, duplicates := 0, 0;
      for i := 0 to |events|
        invariant (rows, accepted) == ReceiveAll(old(rows), channelId, tenantId, events[..i], ids[..i], now)
        invariant accepted + duplicates == i
      {
        assert events[..i + 1][..i] == events[..i] && ids[..i + 1][..i] == ids[..i];
        var known := Known(rows, channelId, events[i].providerEventId);
        rows := InsertOrIgnore(rows, ids[i], NewRow(channelId, tenantId, events[i], now));
        if known { duplicates := duplicates + 1; } else { accepted := accepted + 1; }
      }
      assert events[..|events|] == events && ids[..|ids|] == ids;
    }

    /** Leases the next row that is due, or whose lease is older than two minutes. */
    method ClaimNextWebhook(worker: string, token: string, now: int, locked: set<string>) returns (choice: Option<string>)
      modifies this
      ensures rows.Keys == old(rows).Keys
      ensures forall id | id in old(rows) && choice != Some(id) :: rows[id] == old(rows)[id]
      ensures choice.Some? ==> choice.value in old(rows) && choice.value !in locked
      ensures choice.Some? ==>
        var was := old(rows)[choice.value];
        && was.attempts < was.maxAttempts
        && (((was.status == Pending || was.status == Failed) && was.availableAt <= now)
            || (was.status == Processing && was.lease.Held? && was.lease.lockedAt < now - 120_000))
        && rows[choice.value] == was.(status := Processing, lease := Held(worker, token, now))
      ensures forall id | id in old(rows) && id !in locked ::
        var row := old(rows)[id];
        row.attempts < row.maxAttempts
        && (((row.status == Pending || row.status == Failed) && row.availableAt <= now)
            || (row.status == Processing && row.lease.Held? && row.lease.lockedAt < now - 120_000)) ==>
          choice.Some?
          && var next := old(rows)[choice.value];
             next.availableAt < row.availableAt || (next.availableAt == row.availableAt && next.receivedAt <= row.receivedAt)
      ensures IsNext(old(rows), now, locked, choice)
      ensures rows == ClaimRows(old(rows), worker, token, now, choice)
    {
      choice := Earliest(Candidates(rows, now, locked));
      EarliestIsNext(rows, now, locked, choice);
      rows := ClaimRows(rows, worker, token, now, choice);
    }

    method MarkWebhookProcessed(id: string, worker: string, token: string) returns (accepted: bool)
      modifies this
      ensures accepted <==> Holds(old(rows), id, worker, token)
      ensures !accepted ==> unchanged(this)
      ensures accepted ==> OnlyChanges(old(rows), rows, id) && rows[id] == old(rows)[id].(status := Processed, lease := Free)
      ensures rows == ProcessedRows(old(rows), id, worker, token)
    {
      accepted := Holds(rows, id, worker, token);
      rows := ProcessedRows(rows, id, worker, token);
    }

    method MarkWebhookFailed(id: string, worker: string, token: string, claimed: Row, now: int) returns (accepted: bool, dead: bool)
      modifies this
      ensures accepted <==> Holds(old(rows), id, worker, token)
      ensures dead <==> IsDead(claimed)
      ensures !accepted ==> unchanged(this)
      ensures accepted ==> OnlyChanges(old(rows), rows, id)
      ensures accepted ==>
        var was, row := old(rows)[id], rows[id];
        && row.lease == Free && row.attempts == claimed.attempts + 1
        && row.status == (if claimed.attempts + 1 >= claimed.maxAttempts then DeadLetter else Failed)
        && row.availableAt == now + RetryDelay(row.attempts)
        && row == was.(status := row.status, attempts := row.attempts, availableAt := row.availableAt, lease := Free)
      ensures rows == FailedRows(old(rows), id, worker, token, claimed, now)
    {
      accepted, dead := Holds(rows, id, worker, token), IsDead(claimed);
      rows := FailedRows(rows, id, worker, token, claimed, now);
    }
  }

  lemma InsertKeepsUnique(rows: map<string, Row>, id: string, row: Row)
    requires UniqueEvents(rows)
    ensures UniqueEvents(InsertOrIgnore(rows, id, row))
  {
  }

  lemma InsertAdds(rows: map<string, Row>, id: string, row: Row)
    requires id !in rows
    ensures EventIds(InsertOrIgnore(rows, id, row), row.channelId) == EventIds(rows, row.channelId) + {row.payload.providerEventId}
    ensures |InsertOrIgnore(rows, id, row)| == |rows| + if Known(rows, row.channelId, row.payload.providerEventId) then 0 else 1
  {
    var after := InsertOrIgnore(rows, id, row);
    if !Known(rows, row.channelId, row.payload.providerEventId) {
      assert after[id] == row;
      forall e | e in EventIds(rows, row.channelId) ensures e in EventIds(after, row.channelId) {
        var k :| k in rows && rows[k].channelId == row.channelId && rows[k].payload.providerEventId == e;
        assert after[k] == rows[k];
      }
    }
  }

  // ----- leasing

  predicate Lapsed(row: Row, now: int) {
    row.status == Processing && row.lease.Held? && row.lease.lockedAt < now - LEASE_MS
  }

  /** A lapsed lease makes the row claimable again, without counting an attempt. */
  predicate Claimable(row: Row, now: int) {
    && row.attempts < row.maxAttempts
    && (((row.status == Pending || row.status == Failed) && row.availableAt <= now) || Lapsed(row, now))
  }

  predicate Sooner(a: Row, b: Row) {
    a.availableAt < b.availableAt || (a.availableAt == b.availableAt && a.receivedAt < b.receivedAt)
  }

  predicate IsNext(rows: map<string, Row>, now: int, locked: set<string>, choice: Option<string>) {
    match choice
    case None => forall id | id in rows && id !in locked :: !Claimable(rows[id], now)
    case Some(id) =>
      && id in rows && id !in locked && Claimable(rows[id], now)
      && forall other | other in rows && other !in locked && Claimable(rows[other], now) :: !Sooner(rows[other], rows[id])
  }

  /** The rows a claim may take, with what they are ordered by. */
  function Candidates(rows: map<string, Row>, now: int, locked: set<string>): (r: map<string, (int, int)>)
    ensures forall id :: id in r <==> id in rows && id !in locked && Claimable(rows[id], now)
    ensures forall id | id in r :: r[id] == (rows[id].availableAt, rows[id].receivedAt)
  {
    map id | id in rows && id !in locked && Claimable(rows[id], now) :: (rows[id].availableAt, rows[id].receivedAt)
  }

  lemma EarliestIsNext(rows: map<string, Row>, now: int, locked: set<string>, choice: Option<string>)
    requires choice.None? <==> Candidates(rows, now, locked) == map[]
    requires choice.Some? ==> choice.value in Candidates(rows, now, locked)
    requires choice.Some? ==> forall id | id in Candidates(rows, now, locked) ::
      !Earlier(Candidates(rows, now, locked)[id], Candidates(rows, now, locked)[choice.value])
    ensures IsNext(rows, now, locked, choice)
  {
    var candidates := Candidates(rows, now, locked);
    forall id | id in rows && id !in locked && Claimable(rows[id], now)
      ensures choice.Some? && !Sooner(rows[id], rows[choice.value])
    {
      assert id in candidates;
    }
  }

  function Leased(row: Row, worker: string, token: string, now: int): Row {
    row.(status := Processing, lease := Held(worker, token, now))
  }

  function ClaimRows(rows: map<string, Row>, worker: string, token: string, now: int, choice: Option<string>): map<string, Row>
    requires choice.Some? ==> choice.value in rows
  {
    match choice
    case None => rows
    case Some(id) => rows[id := Leased(rows[id], worker, token, now)]
  }

  predicate Holds(rows: map<string, Row>, id: string, worker: string, token: string) {
    && id in rows && rows[id].status == Processing
    && rows[id].lease.Held? && rows[id].lease.worker == worker && rows[id].lease.token == token
  }

  lemma HoldsTells(rows: map<string, Row>, id: string, worker: string, token: string)
    ensures Holds(rows, id, worker, token) <==>
      id in rows && rows[id].status == Processing && exists at :: rows[id].lease == Held(worker, token, at)
  {
    if Holds(rows, id, worker, token) { assert rows[id].lease == Held(worker, token, rows[id].lease.lockedAt); }
  }

  function ProcessedRows(rows: map<string, Row>, id: string, worker: string, token: string): map<string, Row> {
    if !Holds(rows, id, worker, token) then rows
    else rows[id := rows[id].(status := Processed, lease := Free)]
  }

  predicate IsDead(claimed: Row) { claimed.attempts + 1 >= claimed.maxAttempts }

  function FailedRows(rows: map<string, Row>, id: string, worker: string, token: string, claimed: Row, now: int): map<string, Row> {
    if !Holds(rows, id, worker, token) then rows
    else
      rows[id := rows[id].(status := if IsDead(claimed) then DeadLetter else Failed, attempts := claimed.attempts + 1,
                           availableAt := now + RetryDelay(claimed.attempts + 1), lease := Free)]
  }
}
