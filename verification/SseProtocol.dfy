/**
 * Server-sent event frames (modules/realtime/sse-protocol.js) and the reader of sections 9.2.5 and 9.2.6 of the
 * WHATWG HTML Standard.
 */
module SseProtocol {
  import opened Wrappers
  import opened Decimals

  // ----- the printer

  /** `version` is what `Number` makes of the field, if that is an integer. */
  datatype Aggregate = Aggregate(aggregateType: string, id: string, version: Option<int>)

  /** What the hub is asked to send; the empty string stands for an absent id, `Bare` for a payload that is no object. */
  datatype Payload = Object(eventId: string, aggregate: Option<Aggregate>, rest: string) | Bare(value: string)

  datatype Outgoing =
    Outgoing(sequence: int, id: string, eventType: string, aggregate: Option<Aggregate>, payload: Payload)

  /** The object whose JSON text is sent. */
  datatype Data = Data(eventId: string, aggregate: Option<Aggregate>, rest: string)

  function DataOf(event: Outgoing): Data {
    match event.payload
    case Object(eventId, aggregate, rest) =>
      Data(if eventId != "" then eventId else event.id,
           if event.aggregate.Some? then event.aggregate else aggregate, rest)
    case Bare(value) => Data(event.id, event.aggregate, value)
  }

  /** The payload's own event id comes before the event's, the event's aggregate before the payload's. */
  lemma DataTells(event: Outgoing)
    ensures event.payload.Object? ==>
      && (event.payload.eventId != "" ==> DataOf(event).eventId == event.payload.eventId)
      && (event.payload.eventId == "" ==> DataOf(event).eventId == event.id)
      && DataOf(event).rest == event.payload.rest
      && (event.aggregate == None ==> DataOf(event).aggregate == event.payload.aggregate)
    ensures event.payload.Bare? ==>
      DataOf(event).eventId == event.id && DataOf(event).rest == event.payload.value
    ensures event.aggregate.Some? || event.payload.Bare? ==> DataOf(event).aggregate == event.aggregate
  {
  }

  /** An event to send; `data` is the JSON text of its data object. */
  datatype Event = Event(sequence: int, eventType: string, data: string)

  function EventOf(event: Outgoing, stringify: Data -> string): Event {
    Event(event.sequence, event.eventType, stringify(DataOf(event)))
  }

  const MAX_SAFE_INTEGER: int := 9007199254740991

  predicate HasLineBreak(s: string) { exists i | 0 <= i < |s| :: s[i] == '\r' || s[i] == '\n' }

  predicate Printable(e: Event) {
    0 <= e.sequence <= MAX_SAFE_INTEGER && e.eventType != "" && !HasLineBreak(e.eventType)
  }

  /** `None` stands for the thrown TypeError. */
  function EventFrame(e: Event): Option<string> {
    if !Printable(e) then None
    else Some("id: " + Decimal(e.sequence) + "\nevent: " + e.eventType + "\ndata: " + e.data + "\n\n")
  }

  /** Exactly the events with a safe, non-negative sequence and a type of one non-empty line are printed. */
  lemma FrameTells(e: Event)
    ensures EventFrame(e).Some? <==>
      0 <= e.sequence <= 9007199254740991 && e.eventType != ""
      && forall i | 0 <= i < |e.eventType| :: e.eventType[i] != '\r' && e.eventType[i] != '\n'
  {
  }

  /** The frame of an event, as the hub sends it. */
  function FrameOf(event: Outgoing, stringify: Data -> string): Option<string> {
    EventFrame(EventOf(event, stringify))
  }

  const HEARTBEAT: string := ": heartbeat\n\n"

  /** What JSON.stringify guarantees about its result: line breaks are escaped, and something is printed. */
  predicate JsonText(s: string) { s != "" && !HasLineBreak(s) }

  // ----- the reader

  /** An event as a listener sees it. */
  datatype Message = Message(lastEventId: string, eventType: string, data: string)

  /** The line being read, whether the last character was CR, the three buffers, and the events dispatched so far. */
  datatype Reader = Reader(line: string, afterCr: bool, id: string, eventType: string, data: string, out: seq<Message>)

  const NOTHING_READ: Reader := Reader("", false, "", "", "", [])

  /** Before any event, the last event id is empty. */
  lemma NothingReadTells()
    ensures Dispatch(Field(NOTHING_READ, "data", "d")).out == [Message("", "message", "d")]
  {
    var r := Field(NOTHING_READ, "data", "d");
    assert r.data == "d\n" && r.data[..1] == "d";
  }

  function FindColon(line: string): (r: nat)
    ensures r <= |line| && (r < |line| ==> line[r] == ':') && forall i | 0 <= i < r :: line[i] != ':'
  {
    if line == [] || line[0] == ':' then 0 else 1 + FindColon(line[1..])
  }

  function FieldName(line: string): string { line[..FindColon(line)] }

  /** The text after the colon without one leading space; a line without a colon has the empty value. */
  function FieldValue(line: string): string {
    var c := FindColon(line);
    if c == |line| then ""
    else if c + 1 < |line| && line[c + 1] == ' ' then line[c + 2..]
    else line[c + 1..]
  }

  function Field(r: Reader, name: string, value: string): Reader {
    if name == "event" then r.(eventType := value)
    else if name == "data" then r.(data := r.data + value + "\n")
    else if name == "id" && '\0' !in value then r.(id := value)
    else r
  }

  /** A blank line dispatches what has been collected, if there is any data. */
  function Dispatch(r: Reader): Reader {
    if r.data == "" then r.(eventType := "")
    else
      var data := if r.data[|r.data| - 1] == '\n' then r.data[..|r.data| - 1] else r.data;
      var eventType := if r.eventType == "" then "message" else r.eventType;
      r.(eventType := "", data := "", out := r.out + [Message(r.id, eventType, data)])
  }

  function EndLine(r: Reader): Reader {
    var line := r.line;
    var rest := r.(line := "");
    if line == "" then Dispatch(rest)
    else if line[0] == ':' then rest
    else Field(rest, FieldName(line), FieldValue(line))
  }

  /** Lines end in CR, LF or CRLF. */
  function Feed(r: Reader, c: char): Reader {
    if c == '\n' then (if r.afterCr then r.(afterCr := false) else EndLine(r))
    else if c == '\r' then EndLine(r).(afterCr := true)
    else r.(line := r.line + [c], afterCr := false)
  }

  function FeedAll(r: Reader, text: string): Reader
    decreases text
  {
    if text == "" then r else FeedAll(Feed(r, text[0]), text[1..])
  }

  /** The events a client has been given after receiving `text` from the start of the stream. */
  function Decode(text: string): seq<Message> { FeedAll(NOTHING_READ, text).out }

  // ----- round trip

  lemma {:induction false} FeedConcat(r: Reader, a: string, b: string)
    ensures FeedAll(r, a + b) == FeedAll(FeedAll(r, a), b)
    decreases a
  {
    if a == "" {
      assert a + b == b;
    } else {
      assert (a + b)[1..] == a[1..] + b;
      FeedConcat(Feed(r, a[0]), a[1..], b);
    }
  }

  /** Characters other than line breaks pile up on the current line. */
  lemma {:induction false} FeedPlain(r: Reader, text: string)
    requires !HasLineBreak(text)
    ensures FeedAll(r, text) == if text == "" then r else r.(line := r.line + text, afterCr := false)
    decreases text
  {
    if text != "" {
      forall i | 0 <= i < |text[1..]| ensures text[1..][i] != '\r' && text[1..][i] != '\n' {
        assert text[i + 1] == text[1..][i];
      }
      FeedPlain(Feed(r, text[0]), text[1..]);
      assert text == [text[0]] + text[1..];
      assert r.line + [text[0]] + text[1..] == r.line + text;
    }
  }

  /** A whole line, ended by LF. */
  lemma FeedLine(r: Reader, line: string)
    requires !HasLineBreak(line) && r.line == "" && !r.afterCr
    ensures FeedAll(r, line + "\n") == EndLine(r.(line := line))
  {
    FeedConcat(r, line, "\n");
    FeedPlain(r, line);
    var q := FeedAll(r, line);
    assert q == r.(line := line);
    assert FeedAll(q, "\n") == FeedAll(Feed(q, '\n'), "");
  }

  lemma EndLineKeeps(r: Reader, afterCr: bool)
    ensures EndLine(r.(afterCr := afterCr)) == EndLine(r).(afterCr := afterCr)
  {
  }

  /** LF, CR and CRLF end a line alike. */
  lemma LineEndsAlike(r: Reader)
    requires !r.afterCr
    ensures FeedAll(r, ['\n']) == EndLine(r)
    ensures FeedAll(r, ['\r'] + ['\n']) == EndLine(r)
  {
    hide EndLine;
    FeedTwo(r, '\r', '\n');
    EndLineKeeps(r, false);
    assert FeedAll(r, ['\n']) == FeedAll(Feed(r, '\n'), "");
  }

  /** After a CR, only an LF is passed over. */
  lemma CarriageReturnEndsLine(r: Reader, c: char)
    requires !r.afterCr && c != '\n'
    ensures FeedAll(r, ['\r'] + [c]) == FeedAll(r, ['\n'] + [c])
  {
    hide EndLine, FeedAll;
    FeedTwo(r, '\r', c);
    FeedTwo(r, '\n', c);
    EndLineKeeps(r, false);
    EndLineKeeps(EndLine(r), true);
  }

  lemma FeedTwo(r: Reader, a: char, b: char)
    ensures FeedAll(r, [a] + [b]) == Feed(Feed(r, a), b)
  {
    hide Feed;
    assert ([a] + [b])[1..] == [b] && [b][1..] == "";
    assert FeedAll(Feed(r, a), [b]) == FeedAll(Feed(Feed(r, a), b), "");
  }

  lemma LineBreaksConcat(a: string, b: string)
    ensures HasLineBreak(a + b) <==> HasLineBreak(a) || HasLineBreak(b)
  {
    if i :| 0 <= i < |a| && (a[i] == '\r' || a[i] == '\n') {
      assert (a + b)[i] == a[i];
    }
    if j :| 0 <= j < |b| && (b[j] == '\r' || b[j] == '\n') {
      assert (a + b)[|a| + j] == b[j];
    }
  }

  lemma {:induction false} FirstColon(name: string, rest: string)
    requires ':' !in name
    ensures FindColon(name + ":" + rest) == |name|
    decreases name
  {
    var line := name + ":" + rest;
    if name != "" {
      assert line[0] == name[0] && line[1..] == name[1..] + ":" + rest;
      FirstColon(name[1..], rest);
    }
  }

  lemma ColonAt(name: string, value: string)
    requires ':' !in name
    ensures FieldName(name + ": " + value) == name && FieldValue(name + ": " + value) == value
  {
    var line := name + ": " + value;
    assert line == name + ":" + (" " + value);
    FirstColon(name, " " + value);
    assert line[|name| + 2..] == value;
  }

  /** One `name: value` line sets one field, whatever colons and spaces the value holds. */
  lemma FeedField(r: Reader, name: string, value: string)
    requires name == "id" || name == "event" || name == "data"
    requires !HasLineBreak(value) && r.line == "" && !r.afterCr
    ensures FeedAll(r, name + ": " + value + "\n") == Field(r, name, value)
  {
    hide FeedAll, FindColon, FieldName, FieldValue;
    var line := name + ": " + value;
    assert ':' !in name && !HasLineBreak(name + ": ");
    LineBreaksConcat(name + ": ", value);
    FeedLine(r, line);
    ColonAt(name, value);
    assert line[0] == name[0];
    assert r.(line := line).(line := "") == r;
  }

  /** The space after the colon may be missing. */
  lemma FeedTightField(r: Reader, name: string, value: string)
    requires name == "id" || name == "event" || name == "data"
    requires !HasLineBreak(value) && r.line == "" && !r.afterCr && (value == "" || value[0] != ' ')
    ensures FeedAll(r, name + ":" + value + "\n") == Field(r, name, value)
  {
    hide FeedAll, FindColon;
    var line := name + ":" + value;
    assert ':' !in name && !HasLineBreak(name + ":");
    LineBreaksConcat(name + ":", value);
    FeedLine(r, line);
    FirstColon(name, value);
    assert line[|name| + 1..] == value && line[..|name|] == name;
    assert r.(line := line).(line := "") == r;
  }

  /** What a field does: an id with a NUL is ignored, and data lines pile up. */
  lemma FieldTells(r: Reader, value: string)
    ensures Field(r, "event", value) == r.(eventType := value)
    ensures Field(r, "data", value) == r.(data := r.data + value + "\n")
    ensures Field(r, "id", value) == if exists i :: 0 <= i < |value| && value[i] == '\0' then r else r.(id := value)
    ensures Field(r, "retry", value) == r
  {
  }

  /** A line that is only a field's name gives the field the empty value. */
  lemma FeedBareField(r: Reader, name: string)
    requires name == "id" || name == "event" || name == "data"
    requires r.line == "" && !r.afterCr
    ensures FeedAll(r, name + "\n") == Field(r, name, "")
    ensures Field(r, "data", "").data == r.data + "\n"
  {
    hide FeedAll;
    FeedLine(r, name);
    assert ':' !in name && FieldName(name) == name;
    assert r.(line := name).(line := "") == r;
    assert r.data + "" + "\n" == r.data + "\n";
  }

  /** Between frames nothing is pending; only the last event id survives. */
  predicate Idle(r: Reader) { r.line == "" && !r.afterCr && r.eventType == "" && r.data == "" }

  function MessageOf(e: Event): Message
    requires Printable(e)
  {
    Message(Decimal(e.sequence), e.eventType, e.data)
  }

  lemma FeedBlank(r: Reader)
    requires r.line == "" && !r.afterCr
    ensures FeedAll(r, "\n") == Dispatch(r)
  {
    hide Dispatch;
    assert FeedAll(r, "\n") == FeedAll(Feed(r, '\n'), "");
    assert r.(line := "") == r;
  }

  lemma FeedId(r: Reader, n: nat)
    requires r.line == "" && !r.afterCr
    ensures FeedAll(r, "id: " + Decimal(n) + "\n") == r.(id := Decimal(n))
  {
    hide FeedAll, Decimal;
    DecimalPlain(n);
    FeedField(r, "id", Decimal(n));
    assert "id" + ": " + Decimal(n) + "\n" == "id: " + Decimal(n) + "\n";
  }

  lemma FeedType(r: Reader, eventType: string)
    requires r.line == "" && !r.afterCr && !HasLineBreak(eventType)
    ensures FeedAll(r, "event: " + eventType + "\n") == r.(eventType := eventType)
  {
    hide FeedAll;
    FeedField(r, "event", eventType);
    assert "event" + ": " + eventType + "\n" == "event: " + eventType + "\n";
  }

  lemma FeedData(r: Reader, data: string)
    requires r.line == "" && !r.afterCr && !HasLineBreak(data) && r.data == ""
    ensures FeedAll(r, "data: " + data + "\n") == r.(data := data + "\n")
  {
    hide FeedAll;
    FeedField(r, "data", data);
    assert "data" + ": " + data + "\n" == "data: " + data + "\n";
    assert r.data + data + "\n" == data + "\n";
  }

  lemma DispatchOne(r: Reader, data: string)
    requires r.data == data + "\n" && r.eventType != ""
    ensures Dispatch(r) == r.(eventType := "", data := "", out := r.out + [Message(r.id, r.eventType, data)])
  {
    assert r.data[..|r.data| - 1] == data;
  }

  /** One frame, read from between two frames, dispatches exactly its event. */
  lemma FeedFrame(r: Reader, e: Event)
    requires Idle(r) && Printable(e) && JsonText(e.data)
    ensures FeedAll(r, EventFrame(e).value) == r.(id := Decimal(e.sequence), out := r.out + [MessageOf(e)])
  {
    hide FeedAll, Dispatch, Decimal, HasLineBreak;
    var a, b, c := "id: " + Decimal(e.sequence) + "\n", "event: " + e.eventType + "\n", "data: " + e.data + "\n";
    assert EventFrame(e).value == a + (b + (c + "\n"));
    var r1 := r.(id := Decimal(e.sequence));
    var r2 := r1.(eventType := e.eventType);
    var r3 := r2.(data := e.data + "\n");
    FeedConcat(r, a, b + (c + "\n"));
    FeedId(r, e.sequence);
    FeedConcat(r1, b, c + "\n");
    FeedType(r1, e.eventType);
    FeedConcat(r2, c, "\n");
    FeedData(r2, e.data);
    FeedBlank(r3);
    DispatchOne(r3, e.data);
  }

  /** A heartbeat is a comment: it dispatches nothing and disturbs nothing. */
  lemma FeedHeartbeat(r: Reader)
    requires Idle(r)
    ensures FeedAll(r, HEARTBEAT) == r
  {
    hide FeedAll, Dispatch, FindColon, FieldName, FieldValue;
    var line := ": heartbeat";
    assert !HasLineBreak(line);
    FeedLine(r, line);
    assert EndLine(r.(line := line)) == r;
    assert HEARTBEAT == (line + "\n") + "\n";
    FeedConcat(r, line + "\n", "\n");
    FeedBlank(r);
    DispatchNothing(r);
  }

  lemma DispatchNothing(r: Reader)
    requires Idle(r)
    ensures Dispatch(r) == r
  {
  }

  /** What is written to a stream: frames of printable events, and heartbeats between them. */
  datatype Chunk = Frame(event: Event) | Heartbeat

  predicate Sendable(c: Chunk) { c.Frame? ==> Printable(c.event) && JsonText(c.event.data) }

  function Text(c: Chunk): string
    requires Sendable(c)
  {
    if c.Frame? then EventFrame(c.event).value else HEARTBEAT
  }

  function Wire(chunks: seq<Chunk>): string
    requires forall c | c in chunks :: Sendable(c)
  {
    if chunks == [] then "" else Text(chunks[0]) + Wire(chunks[1..])
  }

  /** The events among the chunks, in order. */
  function EventsIn(chunks: seq<Chunk>): seq<Event> {
    if chunks == [] then []
    else (if chunks[0].Frame? then [chunks[0].event] else []) + EventsIn(chunks[1..])
  }

  function MessagesOf(events: seq<Event>): seq<Message>
    requires forall e | e in events :: Printable(e)
  {
    seq(|events|, i requires 0 <= i < |events| => MessageOf(events[i]))
  }

  lemma {:induction false} EventsInPrintable(chunks: seq<Chunk>)
    requires forall c | c in chunks :: Sendable(c)
    ensures forall e | e in EventsIn(chunks) :: Printable(e)
    decreases chunks
  {
    if chunks != [] {
      assert Sendable(chunks[0]);
      EventsInPrintable(chunks[1..]);
    }
  }

  /** What one chunk does to a reader that is between chunks. */
  lemma FeedChunk(r: Reader, c: Chunk)
    requires Idle(r) && Sendable(c)
    ensures Idle(FeedAll(r, Text(c)))
    ensures FeedAll(r, Text(c)).out == r.out + if c.Frame? then [MessageOf(c.event)] else []
  {
    hide FeedAll;
    if c.Frame? { FeedFrame(r, c.event); } else { FeedHeartbeat(r); }
  }

  lemma FeedNothing(r: Reader)
    ensures FeedAll(r, "") == r
  {
  }

  lemma {:induction false} FeedWire(r: Reader, chunks: seq<Chunk>)
    requires Idle(r) && forall c | c in chunks :: Sendable(c)
    ensures (forall e | e in EventsIn(chunks) :: Printable(e)) && Idle(FeedAll(r, Wire(chunks)))
    ensures FeedAll(r, Wire(chunks)).out == r.out + MessagesOf(EventsIn(chunks))
    decreases chunks
  {
    hide Idle, Text, Printable, JsonText, MessageOf, FeedAll, Sendable;
    EventsInPrintable(chunks);
    if chunks == [] {
      FeedNothing(r);
    } else {
      var c, rest := chunks[0], chunks[1..];
      assert c in chunks;
      EventsInPrintable(rest);
      FeedConcat(r, Text(c), Wire(rest));
      FeedChunk(r, c);
      FeedWire(FeedAll(r, Text(c)), rest);
      assert MessagesOf(EventsIn(chunks))
        == (if c.Frame? then [MessageOf(c.event)] else []) + MessagesOf(EventsIn(rest));
    }
  }

  /** Any concatenation of frames with heartbeats between them decodes to exactly the events sent. */
  lemma DecodeWire(chunks: seq<Chunk>)
    requires forall c | c in chunks :: Sendable(c)
    ensures (forall e | e in EventsIn(chunks) :: Printable(e)) && Decode(Wire(chunks)) == MessagesOf(EventsIn(chunks))
  {
    FeedWire(NOTHING_READ, chunks);
  }

  lemma {:induction false} OutGrows(r: Reader, text: string)
    ensures r.out <= FeedAll(r, text).out
    decreases text
  {
    if text != "" {
      OutGrows(Feed(r, text[0]), text[1..]);
    }
  }

  /** A client that has received only part of the bytes, cut anywhere, has decoded a prefix of the events sent. */
  lemma DecodeCutWire(chunks: seq<Chunk>, received: nat)
    requires forall c | c in chunks :: Sendable(c)
    requires received <= |Wire(chunks)|
    ensures (forall e | e in EventsIn(chunks) :: Printable(e))
         && Decode(Wire(chunks)[..received]) <= MessagesOf(EventsIn(chunks))
  {
    DecodeWire(chunks);
    var wire := Wire(chunks);
    assert wire == wire[..received] + wire[received..];
    FeedConcat(NOTHING_READ, wire[..received], wire[received..]);
    OutGrows(FeedAll(NOTHING_READ, wire[..received]), wire[received..]);
  }
}
