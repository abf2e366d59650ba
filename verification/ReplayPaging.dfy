/**
 * `replayBeyondLimit` of the browser's client (public/js/realtime-inbox.js), fed with pages of the durable log
 * (modules/realtime/event-store.js). The client leaves `fetchPage` to its caller: here it reads the cursor as
 * modules/realtime/routes.js does, replays one page, and says that there is more whenever there is.
 */
module ReplayPaging {
  import opened Wrappers
  import opened Decimals
  import opened SseProtocol
  import RealtimeInbox
  import opened EventStore

  /** The client's own text cursor at first, the sequence of a page's last event later. */
  datatype Cursor = Text(text: string) | Sequence(sequence: nat)

  function ParseCursor(cursor: Cursor): Option<nat> {
    match cursor
    case Sequence(n) => Some(n)
    case Text(s) =>
      if s == "" then Some(0)
      else if !AllDigits(s) then None
      else if ParseDecimal(s) > MAX_SAFE_INTEGER then None
      else Some(ParseDecimal(s))
  }

  /** The cursor a client holds after an event reads as that event's sequence. */
  lemma CursorRoundTrip(sequence: nat)
    requires sequence <= MAX_SAFE_INTEGER
    ensures ParseCursor(Text(Decimal(sequence))) == Some(sequence)
  {
    hide Decimal, ParseDecimal;
    DecimalRoundTrip(sequence);
    DecimalPlain(sequence);
  }

  /** No text is the start; anything but a decimal number up to the greatest safe integer is rejected. */
  lemma CursorTells(s: string)
    ensures s == "" ==> ParseCursor(Text(s)) == Some(0)
    ensures s != "" && (forall i | 0 <= i < |s| :: '0' <= s[i] <= '9') && ParseDecimal(s) <= 9007199254740991 ==>
      ParseCursor(Text(s)) == Some(ParseDecimal(s))
    ensures s != "" && (forall i | 0 <= i < |s| :: '0' <= s[i] <= '9') && ParseDecimal(s) > 9007199254740991 ==>
      ParseCursor(Text(s)) == None
    ensures (exists i :: 0 <= i < |s| && !('0' <= s[i] <= '9')) ==> ParseCursor(Text(s)) == None
  {
    hide ParseDecimal;
  }

  /** A row is delivered under its sequence, with its id or its payload's, its aggregate and its version. */
  lemma DeliveryTells(row: Row)
    ensures var d := DeliveryOf(row);
      && d.lastEventId == Decimal(row.sequence) && d.eventType == row.eventType && d.data.Some?
      && d.data.value.aggregate == Some(Aggregate(row.aggregateType, row.aggregateId, Some(row.version)))
      && (row.payload.Bare? || row.payload.eventId == "" ==> d.data.value.eventId == row.id)
      && (row.payload.Object? && row.payload.eventId != "" ==> d.data.value.eventId == row.payload.eventId)
  {
    hide Decimal;
  }

  function OutgoingOf(row: Row): Outgoing {
    Outgoing(row.sequence, row.id, row.eventType,
             Some(Aggregate(row.aggregateType, row.aggregateId, Some(row.version))), row.payload)
  }

  function DeliveryOf(row: Row): RealtimeInbox.Delivery {
    RealtimeInbox.Delivery(Decimal(row.sequence), row.eventType, Some(DataOf(OutgoingOf(row))))
  }

  function DeliveriesOf(rows: seq<Row>): seq<RealtimeInbox.Delivery> {
    seq(|rows|, i requires 0 <= i < |rows| => DeliveryOf(rows[i]))
  }

  lemma DeliveriesConcat(a: seq<Row>, b: seq<Row>)
    ensures DeliveriesOf(a + b) == DeliveriesOf(a) + DeliveriesOf(b)
  {
  }

  datatype Fetched = Fetched(events: seq<Row>, hasMore: bool) | Rejected

  function PageAt(rows: seq<Row>, tenantId: string, at: nat, pageSize: nat, expand: bool, now: int): seq<Row> {
    if NoneExpired(rows, tenantId, at, now) then Take(Past(rows, tenantId, at), Bound(pageSize, expand)) else []
  }

  /** The caller's `fetchPage`. */
  method FetchPage(log: Log, tenantId: string, cursor: Cursor, pageSize: nat, expand: bool, now: int)
    returns (page: Fetched)
    ensures page.Rejected? <==> ParseCursor(cursor).None?
    ensures page.Fetched? ==>
      var at := ParseCursor(cursor).value;
      && page.events == PageAt(log.rows, tenantId, at, pageSize, expand, now)
      && (|page.events| < |Past(log.rows, tenantId, at)| ==> page.hasMore)
  {
    var at := ParseCursor(cursor);
    if at.None? { return Rejected; }
    var r := log.ReplayEvents(tenantId, at.value, pageSize, expand, now);
    var hasMore: bool := *;
    return Fetched(r.events, hasMore || |r.events| < |Past(log.rows, tenantId, at.value)|);
  }

  /** After `done` events: what lies past the current cursor is what is left of what lay past the start. */
  predicate Reached(rows: seq<Row>, tenantId: string, start: nat, now: int, at: nat, done: nat) {
    && start <= at && done <= |Past(rows, tenantId, start)|
    && Past(rows, tenantId, at) == Past(rows, tenantId, start)[done..]
    && (done > 0 ==> NoneExpired(rows, tenantId, start, now))
  }

  /** One page more: the pages so far are a prefix of what lies past the start, and the rest lies past the last one. */
  lemma PageStep(rows: seq<Row>, tenantId: string, start: nat, now: int, at: nat, done: nat, events: seq<Row>,
                 pageSize: nat, expand: bool)
    requires Increasing(rows) && Reached(rows, tenantId, start, now, at, done) && (done == 0 ==> at == start)
    requires events == PageAt(rows, tenantId, at, pageSize, expand, now) && events != []
    ensures var all := Past(rows, tenantId, start);
      var total := done + |events|;
      && total <= |all| && events[|events| - 1] == all[total - 1] && all[..done] + events == all[..total]
      && Reached(rows, tenantId, start, now, all[total - 1].sequence, total)
      && |events| <= |Past(rows, tenantId, at)| && (|events| == |Past(rows, tenantId, at)| ==> total == |all|)
  {
    hide Past, NoneExpired;
    PastFrom(rows, tenantId, at, |events| - 1);
    PastAbove(rows, tenantId, at, |events| - 1);
  }

  lemma StillUnexpired(rows: seq<Row>, tenantId: string, start: nat, now: int, at: nat, done: nat)
    requires Reached(rows, tenantId, start, now, at, done) && done > 0
    ensures NoneExpired(rows, tenantId, at, now)
  {
    hide Past;
  }

  /** What a replay from the start hands out in all. */
  function Replayed(rows: seq<Row>, tenantId: string, start: nat, now: int): seq<Row> {
    if NoneExpired(rows, tenantId, start, now) then Past(rows, tenantId, start) else []
  }

  /**
   * The pages concatenate to exactly the tenant's events past the start, whatever the page size: the client receives
   * each of them once, in order, and nothing else. When some event past the start has expired, nothing is received.
   */
  method ReplayBeyondLimit(client: RealtimeInbox.Client, log: Log, tenantId: string, replayPageSize: nat, expand: bool,
                           now: int) returns (r: Option<Cursor>)
    requires log.Valid()
    modifies client
    ensures var start := ParseCursor(Text(old(client.cursor)));
      if start.None? then r == None && client.View() == old(client.View()) && client.received == old(client.received)
      else
        var all := Replayed(log.rows, tenantId, start.value, now);
        && client.received == old(client.received) + DeliveriesOf(all)
        && client.View() == RealtimeInbox.ReceivedAll(old(client.View()), DeliveriesOf(all))
        && r == Some(if all == [] then Text(old(client.cursor)) else Sequence(all[|all| - 1].sequence))
  {
    hide *;
    var replayCursor := Text(client.cursor);
    var pageSize := if replayPageSize == 0 then 1000 else replayPageSize;
    ghost var was, start := client.View(), ParseCursor(replayCursor);
    ghost var from := if start.None? then 0 else start.value;
    ghost var at: nat, done: nat, all := from, 0, Past(log.rows, tenantId, from);
    Started(log, tenantId, from, now, was, client);
    while true
      invariant done <= |all| && Reached(log.rows, tenantId, from, now, at, done) && (done == 0 ==> at == from)
      invariant ParseCursor(replayCursor) == (if done == 0 then start else Some(at)) && (done > 0 ==> start.Some?)
      invariant client.View() == RealtimeInbox.ReceivedAll(was, DeliveriesOf(all[..done]))
      invariant client.received == old(client.received) + DeliveriesOf(all[..done])
      invariant replayCursor == if done == 0 then Text(old(client.cursor)) else Sequence(all[done - 1].sequence)
      decreases |all| - done
    {
      var page := FetchPage(log, tenantId, replayCursor, pageSize, expand, now);
      if page.Rejected? { return None; }
      if page.events == [] {
        NothingLeft(log.rows, tenantId, from, now, at, done, pageSize, expand);
        return Some(replayCursor);
      }
      ghost var before := client.received;
      ReceivePage(client, page.events);
      PageStep(log.rows, tenantId, from, now, at, done, page.events, pageSize, expand);
      ReceivedPages(was, all, done, page.events);
      assert before + DeliveriesOf(page.events)
        == old(client.received) + (DeliveriesOf(all[..done]) + DeliveriesOf(page.events));
      done := done + |page.events|;
      at := all[done - 1].sequence;
      replayCursor := Sequence(page.events[|page.events| - 1].sequence);
      ParseSequence(at);
      if !page.hasMore {
        AllReplayed(log.rows, tenantId, from, now, at, done);
        return Some(replayCursor);
      }
    }
  }

  lemma ParseSequence(n: nat)
    ensures ParseCursor(Sequence(n)) == Some(n)
  {
  }

  lemma Started(log: Log, tenantId: string, from: nat, now: int, was: RealtimeInbox.State, client: RealtimeInbox.Client)
    requires log.Valid()
    ensures Increasing(log.rows)
    ensures Reached(log.rows, tenantId, from, now, from, 0)
    ensures DeliveriesOf(Past(log.rows, tenantId, from)[..0]) == [] && RealtimeInbox.ReceivedAll(was, []) == was
  {
    hide Past, NoneExpired;
  }

  /** An empty page means that all has been handed out, or that the very first page found the cursor expired. */
  lemma NothingLeft(rows: seq<Row>, tenantId: string, start: nat, now: int, at: nat, done: nat, pageSize: nat,
                    expand: bool)
    requires Reached(rows, tenantId, start, now, at, done) && (done == 0 ==> at == start)
    requires PageAt(rows, tenantId, at, pageSize, expand, now) == []
    ensures Replayed(rows, tenantId, start, now) == Past(rows, tenantId, start)[..done]
  {
    hide Past, NoneExpired;
    if done > 0 { StillUnexpired(rows, tenantId, start, now, at, done); }
  }

  lemma AllReplayed(rows: seq<Row>, tenantId: string, start: nat, now: int, at: nat, done: nat)
    requires Reached(rows, tenantId, start, now, at, done) && done == |Past(rows, tenantId, start)| > 0
    ensures Replayed(rows, tenantId, start, now) == Past(rows, tenantId, start)[..done]
  {
    hide Past, NoneExpired;
  }

  lemma ReceivedPages(was: RealtimeInbox.State, all: seq<Row>, done: nat, events: seq<Row>)
    requires done + |events| <= |all| && all[..done] + events == all[..done + |events|]
    ensures RealtimeInbox.ReceivedAll(RealtimeInbox.ReceivedAll(was, DeliveriesOf(all[..done])), DeliveriesOf(events))
      == RealtimeInbox.ReceivedAll(was, DeliveriesOf(all[..done + |events|]))
    ensures DeliveriesOf(all[..done]) + DeliveriesOf(events) == DeliveriesOf(all[..done + |events|])
  {
    hide RealtimeInbox.Received;
    DeliveriesConcat(all[..done], events);
    RealtimeInbox.ReceivedConcat(was, DeliveriesOf(all[..done]), DeliveriesOf(events));
  }

  /** The events of one page, in order. */
  method ReceivePage(client: RealtimeInbox.Client, events: seq<Row>)
    modifies client
    ensures client.View() == RealtimeInbox.ReceivedAll(old(client.View()), DeliveriesOf(events))
    ensures client.received == old(client.received) + DeliveriesOf(events)
  {
    hide RealtimeInbox.Received, RealtimeInbox.Client.View;
    for i := 0 to |events|
      invariant client.View() == RealtimeInbox.ReceivedAll(old(client.View()), DeliveriesOf(events[..i]))
      invariant client.received == old(client.received) + DeliveriesOf(events[..i])
    {
      var reaction := client.Receive(DeliveryOf(events[i]));
      assert DeliveriesOf(events[..i + 1])[..i] == DeliveriesOf(events[..i]);
    }
    assert events[..|events|] == events;
  }
}
