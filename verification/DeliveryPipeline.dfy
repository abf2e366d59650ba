/**
 * From the hub to the page: frames accepted by a connection (modules/realtime/connection-registry.js), the bytes of
 * its stream with heartbeats between them (modules/realtime/sse-protocol.js, modules/realtime/routes.js), the events a
 * standard reader makes of them, and the state of the client (public/js/realtime-inbox.js).
 */
module DeliveryPipeline {
  import opened Wrappers
  import opened Decimals
  import opened SseProtocol
  import ConnectionRegistry
  import RealtimeInbox

  /** What is known of JSON.stringify and JSON.parse: no line breaks, and one undoes the other. */
  ghost predicate JsonCodec(stringify: Data -> string, parse: string -> Option<Data>) {
    forall d :: JsonText(stringify(d)) && parse(stringify(d)) == Some(d)
  }

  predicate Frameable(o: Outgoing) {
    0 <= o.sequence <= MAX_SAFE_INTEGER && o.eventType != "" && !HasLineBreak(o.eventType)
  }

  function FrameText(o: Outgoing, stringify: Data -> string): string
    requires Frameable(o)
  {
    FrameOf(o, stringify).value
  }

  function FrameTexts(sent: seq<Outgoing>, stringify: Data -> string): seq<string>
    requires forall o | o in sent :: Frameable(o)
  {
    seq(|sent|, i requires 0 <= i < |sent| => FrameText(sent[i], stringify))
  }

  /** The frames among the chunks of a stream. */
  function Written(chunks: seq<Chunk>): seq<string>
    requires forall c | c in chunks :: Sendable(c)
  {
    if chunks == [] then []
    else (if chunks[0].Frame? then [Text(chunks[0])] else []) + Written(chunks[1..])
  }

  /** A message as the client's listener is given it. */
  function Listened(m: Message, parse: string -> Option<Data>): RealtimeInbox.Delivery {
    RealtimeInbox.Delivery(m.lastEventId, m.eventType, parse(m.data))
  }

  function ListenedAll(ms: seq<Message>, parse: string -> Option<Data>): seq<RealtimeInbox.Delivery> {
    seq(|ms|, i requires 0 <= i < |ms| => Listened(ms[i], parse))
  }

  /** The message a reader should make of an event. */
  function SentMessage(o: Outgoing, stringify: Data -> string): Message
    requires Frameable(o)
  {
    Message(Decimal(o.sequence), o.eventType, stringify(DataOf(o)))
  }

  /** What a client should make of an event. */
  function Delivered(o: Outgoing): RealtimeInbox.Delivery
    requires Frameable(o)
  {
    RealtimeInbox.Delivery(Decimal(o.sequence), o.eventType, Some(DataOf(o)))
  }

  function DeliveredAll(sent: seq<Outgoing>): seq<RealtimeInbox.Delivery>
    requires forall o | o in sent :: Frameable(o)
  {
    seq(|sent|, i requires 0 <= i < |sent| => Delivered(sent[i]))
  }

  /** A frame's text determines the message read from it. */
  lemma FrameDeterminesMessage(a: Event, b: Event)
    requires Printable(a) && Printable(b) && JsonText(a.data) && JsonText(b.data)
    requires EventFrame(a).value == EventFrame(b).value
    ensures MessageOf(a) == MessageOf(b)
  {
    hide FeedAll, EventFrame, Decimal, HasLineBreak;
    var r := NOTHING_READ;
    FeedFrame(r, a);
    FeedFrame(r, b);
    assert (r.out + [MessageOf(a)])[0] == (r.out + [MessageOf(b)])[0];
  }

  /** Chunks whose frames are those of the events decode to those events. */
  lemma {:induction false} WrittenMessages(chunks: seq<Chunk>, sent: seq<Outgoing>, stringify: Data -> string)
    requires (forall c | c in chunks :: Sendable(c)) && (forall o | o in sent :: Frameable(o))
    requires forall d :: JsonText(stringify(d))
    requires Written(chunks) == FrameTexts(sent, stringify)
    ensures |EventsIn(chunks)| == |sent| && forall e | e in EventsIn(chunks) :: Printable(e)
    ensures forall i | 0 <= i < |sent| :: MessageOf(EventsIn(chunks)[i]) == SentMessage(sent[i], stringify)
    decreases chunks
  {
    hide EventFrame, MessageOf, Printable, JsonText, Decimal, HasLineBreak, DataOf;
    EventsInPrintable(chunks);
    if chunks != [] {
      var c := chunks[0];
      assert c in chunks;
      if c.Frame? {
        assert FrameTexts(sent, stringify)[0] == Text(c);
        FrameablePrintable(sent[0], stringify);
        assert Written(chunks[1..]) == Written(chunks)[1..] == FrameTexts(sent, stringify)[1..];
        assert FrameTexts(sent[1..], stringify) == FrameTexts(sent, stringify)[1..];
        WrittenMessages(chunks[1..], sent[1..], stringify);
        SendableFrame(c);
        FrameDeterminesMessage(c.event, EventOf(sent[0], stringify));
      } else {
        assert Written(chunks[1..]) == Written(chunks);
        WrittenMessages(chunks[1..], sent, stringify);
      }
    }
  }

  lemma FrameablePrintable(o: Outgoing, stringify: Data -> string)
    requires Frameable(o) && forall d :: JsonText(stringify(d))
    ensures Printable(EventOf(o, stringify)) && JsonText(EventOf(o, stringify).data)
    ensures MessageOf(EventOf(o, stringify)) == SentMessage(o, stringify)
  {
  }

  lemma SendableFrame(c: Chunk)
    requires Sendable(c) && c.Frame?
    ensures Printable(c.event) && JsonText(c.event.data) && Text(c) == EventFrame(c.event).value
  {
  }

  /** What the client is handed when `received` bytes of the stream have arrived. */
  function Arrived(chunks: seq<Chunk>, received: nat, parse: string -> Option<Data>): seq<RealtimeInbox.Delivery>
    requires (forall c | c in chunks :: Sendable(c)) && received <= |Wire(chunks)|
  {
    ListenedAll(Decode(Wire(chunks)[..received]), parse)
  }

  /** A stream that carries the frames of some events delivers an initial part of them, wherever it is cut. */
  lemma StreamDelivers(chunks: seq<Chunk>, sent: seq<Outgoing>, received: nat, stringify: Data -> string,
                       parse: string -> Option<Data>)
    requires (forall c | c in chunks :: Sendable(c)) && (forall o | o in sent :: Frameable(o))
    requires JsonCodec(stringify, parse) && Written(chunks) == FrameTexts(sent, stringify)
    requires received <= |Wire(chunks)|
    ensures Arrived(chunks, received, parse) <= DeliveredAll(sent)
    ensures received == |Wire(chunks)| ==> Arrived(chunks, received, parse) == DeliveredAll(sent)
  {
    hide Wire, Decode, Written, FrameTexts, EventsIn, JsonText, Sendable, DataOf, Decimal, HasLineBreak;
    WrittenMessages(chunks, sent, stringify);
    DecodeCutWire(chunks, received);
    DecodeWire(chunks);
    var ms := Decode(Wire(chunks)[..received]);
    forall i | 0 <= i < |ms| ensures Listened(ms[i], parse) == Delivered(sent[i]) {
      var o := sent[i];
      assert ms[i] == MessageOf(EventsIn(chunks)[i]) == SentMessage(o, stringify);
    }
    if received == |Wire(chunks)| { assert Wire(chunks)[..received] == Wire(chunks); }
  }

  /**
   * End to end. For any run of a connection to which the frames of `sent` were to be sent, any heartbeats between the
   * frames it wrote, and any part of the resulting bytes that has arrived: the client has been handed exactly the
   * first `k` of those events, for some `k`, and holds the greatest version of each of their aggregates. It has been
   * handed all of them when the connection is open, its queue has drained and every byte has arrived.
   */
  lemma EndToEnd(links: seq<ConnectionRegistry.Link>, ops: seq<ConnectionRegistry.Op>, limits: ConnectionRegistry.Limits,
                 sent: seq<Outgoing>, chunks: seq<Chunk>, received: nat, stringify: Data -> string,
                 parse: string -> Option<Data>) returns (k: nat)
    requires JsonCodec(stringify, parse) && forall o | o in sent :: Frameable(o)
    requires ConnectionRegistry.IsRun(links, ops, limits) && links[0] == ConnectionRegistry.FRESH
    requires ConnectionRegistry.SentFrames(ops) == FrameTexts(sent, stringify)
    requires (forall c | c in chunks :: Sendable(c)) && Written(chunks) == links[|ops|].written
    requires received <= |Wire(chunks)| && RealtimeInbox.Identified(DeliveredAll(sent))
    ensures k <= |sent| && Arrived(chunks, received, parse) == DeliveredAll(sent[..k])
    ensures RealtimeInbox.IsPointwiseMax(
      RealtimeInbox.ReceivedAll(RealtimeInbox.START, Arrived(chunks, received, parse)).versions, DeliveredAll(sent[..k]))
    ensures var last := links[|ops|];
      !last.closed && last.queue == [] && received == |Wire(chunks)| ==> k == |sent|
  {
    hide Wire, Decode, Written, Sendable, ConnectionRegistry.SentFrames,
      ConnectionRegistry.AcceptedFrames, ConnectionRegistry.Step, RealtimeInbox.IsPointwiseMax, FrameText, Frameable;
    var last := links[|ops|];
    ConnectionRegistry.RunFifo(links, ops, limits);
    ConnectionRegistry.AcceptedPrefix(links, ops, limits);
    if !last.closed { ConnectionRegistry.OpenMeansComplete(links, ops, limits); }
    var n := |last.written|;
    WrittenPrefix(last.written, last.queue, sent, stringify);
    StreamDelivers(chunks, sent[..n], received, stringify, parse);
    k := |Arrived(chunks, received, parse)|;
    assert DeliveredAll(sent[..n])[..k] == DeliveredAll(sent[..k]);
    IdentifiedPrefix(DeliveredAll(sent), k);
    assert DeliveredAll(sent)[..k] == DeliveredAll(sent[..k]);
    RealtimeInbox.Converges(DeliveredAll(sent[..k]));
  }

  lemma WrittenPrefix(written: seq<string>, queue: seq<string>, sent: seq<Outgoing>, stringify: Data -> string)
    requires (forall o | o in sent :: Frameable(o)) && written + queue <= FrameTexts(sent, stringify)
    ensures |written| <= |sent| && written == FrameTexts(sent[..|written|], stringify)
    ensures written + queue == FrameTexts(sent, stringify) && queue == [] ==> |written| == |sent|
  {
    hide FrameText, Frameable;
    var n := |written|;
    forall i | 0 <= i < n ensures written[i] == FrameTexts(sent, stringify)[i] {
      assert (written + queue)[i] == written[i];
    }
  }

  lemma IdentifiedPrefix(ds: seq<RealtimeInbox.Delivery>, k: nat)
    requires RealtimeInbox.Identified(ds) && k <= |ds|
    ensures RealtimeInbox.Identified(ds[..k])
  {
  }

  /**
   * Events that reach a client both by replay and live, in whatever order, leave it as if each had come once: only
   * the set of them counts.
   */
  lemma OverlapHarmless(replayed: seq<RealtimeInbox.Delivery>, live: seq<RealtimeInbox.Delivery>,
                        all: seq<RealtimeInbox.Delivery>)
    requires RealtimeInbox.Identified(all)
    requires forall d :: d in all <==> d in replayed || d in live
    ensures RealtimeInbox.ReceivedAll(RealtimeInbox.ReceivedAll(RealtimeInbox.START, replayed), live).versions
      == RealtimeInbox.ReceivedAll(RealtimeInbox.START, all).versions
  {
    hide RealtimeInbox.Identified, RealtimeInbox.ReceivedAll;
    RealtimeInbox.ReceivedConcat(RealtimeInbox.START, replayed, live);
    assert forall d :: d in all <==> d in replayed + live;
    RealtimeInbox.OrderFree(all, replayed + live);
  }
}
