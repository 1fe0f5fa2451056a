/**
 `StreamSocket`: queued reads and writes over a pair of run-loop streams. A stream event
 sets `canRead` or `canWrite`, and each flag pays for exactly one stream transfer; the
 bytes of a partly satisfied read wait in a single `readBuffer` belonging to the head
 request.
 */
module StreamSocket {
  import opened Octets

  /** A queued read: the `min` that completes it, the `max` it may not exceed, its completion. */
  datatype Request = Request(min: nat, max: nat, tag: nat)

  /** A completion as it runs: the request and the bytes it is handed. */
  datatype Delivery = Delivery(request: Request, data: Bytes)

  datatype StreamChannel = StreamChannel(
    isOpen: bool,
    canRead: bool,
    canWrite: bool,
    readQueue: seq<Request>,
    readBuffer: Bytes,
    writeQueue: seq<Bytes>)

  /** A new socket: open, no availability seen yet, nothing queued. */
  function Init(): (ch: StreamChannel)
    ensures Valid(ch) && Below(ch) && ch.isOpen && !ch.canRead && !ch.canWrite
  {
    StreamChannel(true, false, false, [], [], [])
  }

  /** The read buffer belongs to the head request and never holds more than its `max`. */
  predicate Valid(ch: StreamChannel)
  {
    && (|ch.readQueue| == 0 ==> ch.readBuffer == [])
    && (|ch.readQueue| > 0 ==> |ch.readBuffer| <= ch.readQueue[0].max)
  }

  /** A head that holds bytes but has not completed is still below its `min`. */
  predicate Below(ch: StreamChannel)
  {
    |ch.readQueue| > 0 && |ch.readBuffer| > 0 ==> |ch.readBuffer| < ch.readQueue[0].min
  }

  /** `close()`: only the first call does anything; queued requests stay queued and never run. */
  function Close(ch: StreamChannel): (r: StreamChannel)
    ensures !r.isOpen && r.readQueue == ch.readQueue && r.writeQueue == ch.writeQueue
    ensures r.readBuffer == ch.readBuffer
    ensures !ch.isOpen ==> r == ch
  {
    if ch.isOpen then ch.(isOpen := false) else ch
  }

  lemma CloseIdempotent(ch: StreamChannel)
    ensures Close(Close(ch)) == Close(ch)
  {
  }

  /** Everything one step produced, and what is left of the two stream scripts. */
  datatype Out = Out(
    ch: StreamChannel,
    delivered: seq<Delivery>,
    received: Bytes,
    sent: seq<Bytes>,
    incoming: seq<Bytes>,
    outgoing: seq<nat>)

  /** The input stream's answer to `read(maxLength: n)`; an exhausted script reads nothing. */
  function StreamRead(incoming: seq<Bytes>, n: nat): (b: Bytes)
    ensures |b| <= n
    ensures |incoming| > 0 ==> b == Take(incoming[0], n)
  {
    if |incoming| == 0 then [] else Take(incoming[0], n)
  }

  /** The output stream's answer to `write(maxLength: n)`; an exhausted script writes nothing. */
  function StreamWrite(outgoing: seq<nat>, n: nat): (k: nat)
    ensures k <= n
  {
    if |outgoing| == 0 then 0 else Min(outgoing[0], n)
  }

  /** The completion test of `tryRead` as written, and as intended. */
  datatype Threshold = AsWritten | Intended

  /**
   The amount the grown read buffer is compared with. As written, `needed` is the head's
   `min` less what was buffered before this read, yet it is compared with the buffer after
   the read has been appended; as intended, the buffer is compared with `min` itself.
   */
  function Needed(rule: Threshold, r: Request, before: nat): (n: int)
    ensures rule == Intended ==> n == r.min
    ensures rule == AsWritten ==> n + before == r.min
  {
    match rule
    case AsWritten => r.min - before
    case Intended => r.min
  }

  /**
   One read attempt on a queue whose head is `q[0]`, against the input stream: the bytes
   received are the stream's answer to a read of the room the head has left; the head
   completes exactly when that answer is not empty and the grown buffer reaches the
   threshold, and is then handed the whole grown buffer, which is cleared; otherwise the
   buffer keeps the bytes received.
   */
  predicate ReadAnswered(rule: Threshold, q: seq<Request>, buffer: Bytes, incoming: seq<Bytes>,
                         ds: seq<Delivery>, received: Bytes, buffer': Bytes)
    requires |q| > 0 && |buffer| <= q[0].max
  {
    && received == StreamRead(incoming, q[0].max - |buffer|)
    && (ds != [] <==> received != [] && Needed(rule, q[0], |buffer|) <= |buffer| + |received|)
    && (ds != [] ==> ds == [Delivery(q[0], buffer + received)] && buffer' == [])
    && (ds == [] ==> buffer' == buffer + received)
  }

  /**
   One write attempt on a queue whose head is `q[0]`, against the output stream: a write of
   the whole head pops it, a shorter positive write keeps its unwritten suffix, and a write
   of nothing leaves the queue.
   */
  predicate WriteAnswered(q: seq<Bytes>, outgoing: seq<nat>, sent: seq<Bytes>, q': seq<Bytes>)
    requires |q| > 0
  {
    var k := StreamWrite(outgoing, |q[0]|);
    && (k == |q[0]| ==> sent == [q[0]] && q' == q[1..])
    && (0 < k < |q[0]| ==> sent == [q[0][..k]] && q' == [q[0][k..]] + q[1..])
    && (k == 0 < |q[0]| ==> sent == [] && q' == q)
  }

  /**
   `tryRead`: with the session open, a request queued and `canRead` set, consume `canRead`
   and read up to `max - buffered` bytes; nothing read changes nothing else, otherwise the
   bytes join the buffer, and the head completes (handed the whole buffer, which is then
   cleared) once the buffer reaches the threshold.
   */
  function TryRead(ch: StreamChannel, rule: Threshold, incoming: seq<Bytes>): (o: Out)
    requires Valid(ch)
    ensures Valid(o.ch) && o.sent == [] && o.ch.writeQueue == ch.writeQueue && o.ch.isOpen == ch.isOpen
    ensures o.ch.canWrite == ch.canWrite
    ensures !(ch.isOpen && |ch.readQueue| > 0 && ch.canRead) ==> o == Out(ch, [], [], [], incoming, [])
    ensures ch.isOpen && |ch.readQueue| > 0 && ch.canRead ==>
              !o.ch.canRead && o.incoming == (if |incoming| == 0 then [] else incoming[1..])
    ensures |o.delivered| <= 1
    ensures o.delivered == [] ==> o.ch.readQueue == ch.readQueue
    ensures o.delivered != [] ==> && |ch.readQueue| > 0
                                  && o.delivered[0].request == ch.readQueue[0]
                                  && o.ch.readQueue == ch.readQueue[1..]
    ensures ch.readBuffer + o.received == Flatten(Datas(o.delivered)) + o.ch.readBuffer
    ensures forall i :: 0 <= i < |o.delivered| ==> 0 < |o.delivered[i].data| <= o.delivered[i].request.max
    ensures rule == Intended ==> forall i :: 0 <= i < |o.delivered| ==> o.delivered[i].request.min <= |o.delivered[i].data|
    ensures rule == AsWritten ==> forall i :: 0 <= i < |o.delivered| ==>
              o.delivered[i].request.min <= |o.delivered[i].data| + |ch.readBuffer|
    ensures Below(ch) ==> Below(o.ch)
  {
    if !ch.isOpen || |ch.readQueue| == 0 || !ch.canRead then Out(ch, [], [], [], incoming, [])
    else
      var item := ch.readQueue[0];
      var needed := Needed(rule, item, |ch.readBuffer|);
      var bytes := StreamRead(incoming, item.max - |ch.readBuffer|);
      var rest := if |incoming| == 0 then [] else incoming[1..];
      var consumed := ch.(canRead := false);
      if |bytes| == 0 then
        assert ch.readBuffer + [] == Flatten(Datas([])) + ch.readBuffer;
        Out(consumed, [], [], [], rest, [])
      else
        var buffer := ch.readBuffer + bytes;
        if |buffer| >= needed then
          DeliveredBytes(Delivery(item, buffer));
          Out(consumed.(readQueue := ch.readQueue[1..], readBuffer := []), [Delivery(item, buffer)], bytes, [], rest, [])
        else
          assert ch.readBuffer + bytes == Flatten(Datas([])) + buffer;
          Out(consumed.(readBuffer := buffer), [], bytes, [], rest, [])
  }

  /** A read attempt is answered by the input stream as `ReadAnswered` says. */
  lemma TryReadAnswered(ch: StreamChannel, rule: Threshold, incoming: seq<Bytes>)
    requires Valid(ch)
    ensures var o := TryRead(ch, rule, incoming);
            ch.isOpen && |ch.readQueue| > 0 && ch.canRead ==>
              ReadAnswered(rule, ch.readQueue, ch.readBuffer, incoming, o.delivered, o.received, o.ch.readBuffer)
  {
  }

  /** The requests of a list of completions, in order. */
  function Requests(ds: seq<Delivery>): (r: seq<Request>)
    ensures |r| == |ds|
  {
    if |ds| == 0 then [] else [ds[0].request] + Requests(ds[1..])
  }

  /** The data of a list of completions, in order. */
  function Datas(ds: seq<Delivery>): (r: seq<Bytes>)
    ensures |r| == |ds|
  {
    if |ds| == 0 then [] else [ds[0].data] + Datas(ds[1..])
  }

  lemma DeliveredBytes(d: Delivery)
    ensures Flatten(Datas([d])) == d.data && Requests([d]) == [d.request]
  {
    assert [d][1..] == [];
    FlattenSingle(d.data);
  }

  /**
   `tryWrite`: with the session open, a payload queued and `canWrite` set, consume
   `canWrite` and write the head once; a full write pops it, a partial positive write keeps
   the unwritten suffix, and a zero or failed write leaves the queue as it was.
   */
  function TryWrite(ch: StreamChannel, outgoing: seq<nat>): (o: Out)
    ensures o.ch.readQueue == ch.readQueue && o.ch.readBuffer == ch.readBuffer && o.ch.isOpen == ch.isOpen
    ensures o.ch.canRead == ch.canRead && o.delivered == [] && o.received == []
    ensures !(ch.isOpen && |ch.writeQueue| > 0 && ch.canWrite) ==> o == Out(ch, [], [], [], [], outgoing)
    ensures ch.isOpen && |ch.writeQueue| > 0 && ch.canWrite ==>
              !o.ch.canWrite && o.outgoing == (if |outgoing| == 0 then [] else outgoing[1..])
    ensures |o.sent| <= 1
    ensures Flatten(o.sent) + Flatten(o.ch.writeQueue) == Flatten(ch.writeQueue)
    ensures |o.ch.writeQueue| <= |ch.writeQueue|
    ensures ch.isOpen && |ch.writeQueue| > 0 && ch.canWrite ==> WriteAnswered(ch.writeQueue, outgoing, o.sent, o.ch.writeQueue)
  {
    if !ch.isOpen || |ch.writeQueue| == 0 || !ch.canWrite then
      Out(ch, [], [], [], [], outgoing)
    else
      var item := ch.writeQueue[0];
      var k := StreamWrite(outgoing, |item|);
      var rest := if |outgoing| == 0 then [] else outgoing[1..];
      var consumed := ch.(canWrite := false);
      assert ch.writeQueue == [item] + ch.writeQueue[1..];
      FlattenCons(item, ch.writeQueue[1..]);
      if k == |item| then
        FlattenSingle(item);
        assert item[..k] == item;
        Out(consumed.(writeQueue := ch.writeQueue[1..]), [], [], [item], [], rest)
      else if k > 0 then
        WritePartial(ch.writeQueue, k);
        Out(consumed.(writeQueue := [item[k..]] + ch.writeQueue[1..]), [], [], [item[..k]], [], rest)
      else
        Out(consumed, [], [], [], [], rest)
  }

  lemma WritePartial(queue: seq<Bytes>, k: nat)
    requires |queue| > 0 && 0 < k < |queue[0]|
    ensures Flatten([queue[0][..k]]) + Flatten([queue[0][k..]] + queue[1..]) == Flatten(queue)
  {
    FlattenSingle(queue[0][..k]);
    FlattenCons(queue[0][k..], queue[1..]);
    assert queue == [queue[0]] + queue[1..];
    FlattenCons(queue[0], queue[1..]);
    assert queue[0][..k] + queue[0][k..] == queue[0];
  }

  /** The flags of a `Stream.Event` the handler looks at. */
  datatype StreamEvent = StreamEvent(hasBytesAvailable: bool, hasSpaceAvailable: bool,
                                     endEncountered: bool, errorOccurred: bool)

  /**
   `stream(_:handle:)`: ignored once closed; bytes available sets `canRead` and tries a
   read, space available sets `canWrite` and tries a write, and an end or an error closes.
   `rule` is the completion test `tryRead` applies.
   */
  function Handle(ch: StreamChannel, rule: Threshold, ev: StreamEvent, incoming: seq<Bytes>, outgoing: seq<nat>): (o: Out)
    requires Valid(ch)
    ensures Valid(o.ch) && (Below(ch) ==> Below(o.ch))
    ensures !ch.isOpen ==> o == Out(ch, [], [], [], incoming, outgoing)
    ensures o.ch.isOpen <==> ch.isOpen && !ev.endEncountered && !ev.errorOccurred
    ensures |o.delivered| <= 1 && |o.sent| <= 1
    ensures !ev.hasBytesAvailable ==> o.delivered == [] && o.incoming == incoming && o.ch.readQueue == ch.readQueue
    ensures !ev.hasSpaceAvailable ==> o.sent == [] && o.outgoing == outgoing && o.ch.writeQueue == ch.writeQueue
    ensures ReadsAccounted(rule, ch.readQueue, ch.readBuffer, o.delivered, o.received, o.ch.readQueue, o.ch.readBuffer)
    ensures Flatten(o.sent) + Flatten(o.ch.writeQueue) == Flatten(ch.writeQueue)
  {
    if !ch.isOpen then Out(ch, [], [], [], incoming, outgoing)
    else
      var r := ReadPhase(ch, rule, ev.hasBytesAvailable, incoming);
      var w := WritePhase(r.ch, ev.hasSpaceAvailable, outgoing);
      Out(CloseIf(w.ch, ev.endEncountered || ev.errorOccurred), r.delivered, r.received, w.sent, r.incoming, w.outgoing)
  }

  /**
   A stream event on an open socket reads exactly as `tryRead` answers the input stream
   when bytes are available and a request is queued, and writes exactly as `tryWrite`
   answers the output stream when space is available and a payload is queued.
   */
  lemma HandleAnswered(ch: StreamChannel, rule: Threshold, ev: StreamEvent, incoming: seq<Bytes>, outgoing: seq<nat>)
    requires Valid(ch) && ch.isOpen
    ensures var o := Handle(ch, rule, ev, incoming, outgoing);
            && (ev.hasBytesAvailable && |ch.readQueue| > 0 ==>
                  ReadAnswered(rule, ch.readQueue, ch.readBuffer, incoming, o.delivered, o.received, o.ch.readBuffer))
            && (ev.hasSpaceAvailable && |ch.writeQueue| > 0 ==>
                  WriteAnswered(ch.writeQueue, outgoing, o.sent, o.ch.writeQueue))
  {
    var r := ReadPhase(ch, rule, ev.hasBytesAvailable, incoming);
    var w := WritePhase(r.ch, ev.hasSpaceAvailable, outgoing);
    var o := Handle(ch, rule, ev, incoming, outgoing);
    if ev.hasBytesAvailable && |ch.readQueue| > 0 {
      var ready := ch.(canRead := true);
      assert r == TryRead(ready, rule, incoming);
      TryReadAnswered(ready, rule, incoming);
    }
    assert o.delivered == r.delivered && o.received == r.received && o.ch.readBuffer == r.ch.readBuffer;
    assert o.sent == w.sent && o.ch.writeQueue == w.ch.writeQueue && r.ch.writeQueue == ch.writeQueue;
  }

  /**
   Completions take the head requests in order, each with at least one byte and at most
   `max`, and the bytes read are exactly those completed plus those still buffered; under
   the intended test each completion also has at least `min` bytes.
   */
  predicate ReadsAccounted(rule: Threshold, q: seq<Request>, buffer: Bytes, ds: seq<Delivery>, received: Bytes,
                           q': seq<Request>, buffer': Bytes)
  {
    && Requests(ds) + q' == q
    && buffer + received == Flatten(Datas(ds)) + buffer'
    && (forall i :: 0 <= i < |ds| ==> 0 < |ds[i].data| <= ds[i].request.max)
    && (rule == Intended ==> forall i :: 0 <= i < |ds| ==> ds[i].request.min <= |ds[i].data|)
  }

  /** The end-or-error half of the handler. */
  function CloseIf(ch: StreamChannel, shut: bool): (r: StreamChannel)
    ensures r == ch.(isOpen := ch.isOpen && !shut)
  {
    if shut then Close(ch) else ch
  }

  /** The bytes-available half of the handler. */
  function ReadPhase(ch: StreamChannel, rule: Threshold, available: bool, incoming: seq<Bytes>): (o: Out)
    requires Valid(ch) && ch.isOpen
    ensures Valid(o.ch) && (Below(ch) ==> Below(o.ch)) && o.sent == [] && o.outgoing == []
    ensures o.ch.isOpen && o.ch.writeQueue == ch.writeQueue && o.ch.canWrite == ch.canWrite
    ensures |o.delivered| <= 1
    ensures !available ==> o == Out(ch, [], [], [], incoming, [])
    ensures ReadsAccounted(rule, ch.readQueue, ch.readBuffer, o.delivered, o.received, o.ch.readQueue, o.ch.readBuffer)
  {
    if !available then Out(ch, [], [], [], incoming, [])
    else
      var o := TryRead(ch.(canRead := true), rule, incoming);
      ReadRequests(ch.readQueue, o.delivered, o.ch.readQueue);
      o
  }

  /** The space-available half of the handler. */
  function WritePhase(ch: StreamChannel, space: bool, outgoing: seq<nat>): (o: Out)
    ensures o.ch == ch.(canWrite := o.ch.canWrite, writeQueue := o.ch.writeQueue)
    ensures o.delivered == [] && o.received == [] && o.incoming == [] && |o.sent| <= 1
    ensures !space ==> o == Out(ch, [], [], [], [], outgoing)
    ensures Flatten(o.sent) + Flatten(o.ch.writeQueue) == Flatten(ch.writeQueue)
    ensures space && ch.isOpen && |ch.writeQueue| > 0 ==> WriteAnswered(ch.writeQueue, outgoing, o.sent, o.ch.writeQueue)
  {
    if !space then Out(ch, [], [], [], [], outgoing)
    else TryWrite(ch.(canWrite := true), outgoing)
  }

  lemma {:induction false} ReadRequests(q: seq<Request>, ds: seq<Delivery>, rest: seq<Request>)
    requires |ds| <= 1
    requires ds == [] ==> rest == q
    requires ds != [] ==> |q| > 0 && ds[0].request == q[0] && rest == q[1..]
    ensures Requests(ds) + rest == q
  {
    if ds != [] {
      assert Requests(ds) == [q[0]] + Requests(ds[1..]);
      assert q == [q[0]] + q[1..];
    }
  }

  /** `read(min:max:)`: queue the request (even when closed) and try a read. */
  function ReadCall(ch: StreamChannel, rule: Threshold, min: nat, max: nat, tag: nat, incoming: seq<Bytes>): (o: Out)
    requires Valid(ch)
    ensures Valid(o.ch) && (Below(ch) ==> Below(o.ch))
    ensures |o.delivered| <= 1 && o.ch.isOpen == ch.isOpen && o.ch.writeQueue == ch.writeQueue && o.sent == []
    ensures ReadsAccounted(rule, ch.readQueue + [Request(min, max, tag)], ch.readBuffer,
                           o.delivered, o.received, o.ch.readQueue, o.ch.readBuffer)
    ensures !ch.isOpen ==> o.delivered == [] && o.incoming == incoming
    ensures ch.isOpen && ch.canRead ==>
              ReadAnswered(rule, ch.readQueue + [Request(min, max, tag)], ch.readBuffer, incoming,
                           o.delivered, o.received, o.ch.readBuffer)
    ensures !ch.canRead ==> o.delivered == [] && o.received == [] && o.incoming == incoming
  {
    var queued := ch.(readQueue := ch.readQueue + [Request(min, max, tag)]);
    var o := TryRead(queued, rule, incoming);
    ReadRequests(queued.readQueue, o.delivered, o.ch.readQueue);
    TryReadAnswered(queued, rule, incoming);
    o
  }

  /**
   `read(_ count:)`: a request for exactly `count` bytes. Under the intended test a
   completion of it carries exactly `count` bytes; as written, it may carry fewer.
   */
  function ReadExact(ch: StreamChannel, rule: Threshold, count: nat, tag: nat, incoming: seq<Bytes>): (o: Out)
    requires Valid(ch)
    ensures o == ReadCall(ch, rule, count, count, tag, incoming)
    ensures forall i :: 0 <= i < |o.delivered| && o.delivered[i].request == Request(count, count, tag) ==>
              0 < |o.delivered[i].data| <= count
    ensures rule == Intended ==>
              forall i :: 0 <= i < |o.delivered| && o.delivered[i].request == Request(count, count, tag) ==>
                |o.delivered[i].data| == count
  {
    ReadCall(ch, rule, count, count, tag, incoming)
  }

  /** `read(max:)`: a request for between one and `max` bytes. */
  function ReadUpTo(ch: StreamChannel, rule: Threshold, max: nat, tag: nat, incoming: seq<Bytes>): (o: Out)
    requires Valid(ch)
    ensures o == ReadCall(ch, rule, 1, max, tag, incoming)
    ensures forall i :: 0 <= i < |o.delivered| && o.delivered[i].request == Request(1, max, tag) ==>
              0 < |o.delivered[i].data| <= max
  {
    ReadCall(ch, rule, 1, max, tag, incoming)
  }

  /** `write(_:)`: queue the payload (even when closed) and try a write. */
  function WriteCall(ch: StreamChannel, data: Bytes, outgoing: seq<nat>): (o: Out)
    requires Valid(ch)
    ensures Valid(o.ch) && (Below(ch) ==> Below(o.ch)) && o.delivered == [] && o.received == []
    ensures o.ch.readQueue == ch.readQueue && o.ch.isOpen == ch.isOpen
    ensures |o.sent| <= 1
    ensures Flatten(o.sent) + Flatten(o.ch.writeQueue) == Flatten(ch.writeQueue) + data
    ensures ch.isOpen && ch.canWrite ==> WriteAnswered(ch.writeQueue + [data], outgoing, o.sent, o.ch.writeQueue)
    ensures !ch.isOpen || !ch.canWrite ==> o.sent == [] && o.ch.writeQueue == ch.writeQueue + [data]
  {
    FlattenAppend(ch.writeQueue, [data]);
    FlattenSingle(data);
    TryWrite(ch.(writeQueue := ch.writeQueue + [data]), outgoing)
  }

  /**
   The completion test as written lets a request complete short of its `min`: a request for
   exactly ten bytes that is served six bytes and then, on a later event, two more is
   handed eight bytes. The intended test keeps waiting with eight bytes buffered.
   */
  lemma ShortReadCompletes()
    ensures var ch := StreamChannel(true, true, false, [Request(10, 10, 7)], [], []);
            var first := TryRead(ch, AsWritten, [[1, 2, 3, 4, 5, 6]]);
            var second := TryRead(first.ch.(canRead := true), AsWritten, [[7, 8]]);
            && first.delivered == []
            && second.delivered == [Delivery(Request(10, 10, 7), [1, 2, 3, 4, 5, 6, 7, 8])]
            && var fixed := TryRead(first.ch.(canRead := true), Intended, [[7, 8]]);
               fixed.delivered == [] && fixed.ch.readBuffer == [1, 2, 3, 4, 5, 6, 7, 8]
  {
    var six: Bytes := [1, 2, 3, 4, 5, 6];
    var two: Bytes := [7, 8];
    var ch := StreamChannel(true, true, false, [Request(10, 10, 7)], [], []);
    assert Take(six, 10) == six;
    var first := TryRead(ch, AsWritten, [six]);
    assert first.delivered == [] && first.ch.readBuffer == six;
    assert Take(two, 4) == two;
    assert six + two == [1, 2, 3, 4, 5, 6, 7, 8];
    var second := TryRead(first.ch.(canRead := true), AsWritten, [two]);
    assert second.delivered == [Delivery(Request(10, 10, 7), six + two)];
  }

  /** What can happen to a stream socket: calls and stream events. */
  datatype Event =
    | ReadRequest(min: nat, max: nat, tag: nat)
    | WriteRequest(data: Bytes)
    | Streamed(ev: StreamEvent)
    | CloseCall

  /** One step accounted for: the reads as `ReadsAccounted` says, and the written bytes in order. */
  predicate Accounted(ch: StreamChannel, rule: Threshold, issued: seq<Request>, payloads: seq<Bytes>, o: Out)
  {
    && ReadsAccounted(rule, ch.readQueue + issued, ch.readBuffer, o.delivered, o.received, o.ch.readQueue, o.ch.readBuffer)
    && Flatten(o.sent) + Flatten(o.ch.writeQueue) == Flatten(ch.writeQueue) + Flatten(payloads)
  }

  function Apply(ch: StreamChannel, rule: Threshold, e: Event, incoming: seq<Bytes>, outgoing: seq<nat>): (o: Out)
    requires Valid(ch)
    ensures Valid(o.ch) && (Below(ch) ==> Below(o.ch))
    ensures Accounted(ch, rule, Issued([e]), Payloads([e]), o)
  {
    IssuedOne(e);
    match e
    case ReadRequest(min, max, tag) =>
      var r := ReadCall(ch, rule, min, max, tag, incoming);
      var o := Out(r.ch, r.delivered, r.received, r.sent, r.incoming, outgoing);
      Unwritten(ch.writeQueue);
      o
    case WriteRequest(data) =>
      var w := WriteCall(ch, data, outgoing);
      Unread(rule, ch.readQueue, ch.readBuffer);
      Out(w.ch, w.delivered, w.received, w.sent, incoming, w.outgoing)
    case Streamed(ev) =>
      var o := Handle(ch, rule, ev, incoming, outgoing);
      Unwritten(ch.writeQueue);
      assert ch.readQueue + [] == ch.readQueue;
      o
    case CloseCall =>
      Unread(rule, ch.readQueue, ch.readBuffer);
      Unwritten(ch.writeQueue);
      Out(Close(ch), [], [], [], incoming, outgoing)
  }

  lemma Unwritten(w: seq<Bytes>)
    ensures Flatten([]) + Flatten(w) == Flatten(w) + Flatten([])
  {
  }

  lemma Unread(rule: Threshold, q: seq<Request>, buffer: Bytes)
    ensures ReadsAccounted(rule, q + [], buffer, [], [], q, buffer)
  {
    assert q + [] == q;
  }

  /** The read requests a list of events issues, in order. */
  function Issued(events: seq<Event>): seq<Request>
  {
    if |events| == 0 then []
    else (if events[0].ReadRequest? then [Request(events[0].min, events[0].max, events[0].tag)] else [])
         + Issued(events[1..])
  }

  /** The payloads a list of events queues for writing, in order. */
  function Payloads(events: seq<Event>): seq<Bytes>
  {
    if |events| == 0 then [] else (if events[0].WriteRequest? then [events[0].data] else []) + Payloads(events[1..])
  }

  lemma IssuedOne(e: Event)
    ensures Issued([e]) == (if e.ReadRequest? then [Request(e.min, e.max, e.tag)] else [])
    ensures Flatten(Payloads([e])) == (if e.WriteRequest? then e.data else [])
  {
    assert [e][1..] == [];
    if e.WriteRequest? {
      FlattenSingle(e.data);
    }
  }

  /**
   Over any sequence of calls and events: completions run in the order the reads were
   issued, each with at least one byte and at most `max` (and at least `min` under the
   intended test), and every byte read from the stream is in some completion or still
   buffered, in order; every byte written to the stream came from the payloads, in order,
   and the rest is still queued.
   */
  function Run(ch: StreamChannel, rule: Threshold, events: seq<Event>, incoming: seq<Bytes>, outgoing: seq<nat>): (o: Out)
    requires Valid(ch)
    ensures Valid(o.ch) && (Below(ch) ==> Below(o.ch))
    ensures Requests(o.delivered) + o.ch.readQueue == ch.readQueue + Issued(events)
    ensures ch.readBuffer + o.received == Flatten(Datas(o.delivered)) + o.ch.readBuffer
    ensures forall i :: 0 <= i < |o.delivered| ==> 0 < |o.delivered[i].data| <= o.delivered[i].request.max
    ensures rule == Intended ==>
              forall i :: 0 <= i < |o.delivered| ==> o.delivered[i].request.min <= |o.delivered[i].data|
    ensures Flatten(o.sent) + Flatten(o.ch.writeQueue) == Flatten(ch.writeQueue) + Flatten(Payloads(events))
    decreases |events|
  {
    if |events| == 0 then
      Out(ch, [], [], [], incoming, outgoing)
    else
      var first := Apply(ch, rule, events[0], incoming, outgoing);
      var rest := Run(first.ch, rule, events[1..], first.incoming, first.outgoing);
      RunRequests(ch.readQueue, events, first, rest);
      RunBytes(ch.readBuffer, first, rest);
      RunWrites(ch.writeQueue, events, first, rest);
      RunBounds(rule, first.delivered, rest.delivered);
      Then(first, rest)
  }

  /** One event's outcome followed by the run of the rest: outputs concatenated, state from the run. */
  function Then(first: Out, rest: Out): Out
  {
    Out(rest.ch, first.delivered + rest.delivered, first.received + rest.received,
        first.sent + rest.sent, rest.incoming, rest.outgoing)
  }

  lemma RunRequests(q: seq<Request>, events: seq<Event>, first: Out, rest: Out)
    requires |events| > 0
    requires Requests(first.delivered) + first.ch.readQueue == q + Issued([events[0]])
    requires Requests(rest.delivered) + rest.ch.readQueue == first.ch.readQueue + Issued(events[1..])
    ensures Requests(first.delivered + rest.delivered) + rest.ch.readQueue == q + Issued(events)
  {
    RequestsAppend(first.delivered, rest.delivered);
    IssuedSplit(events);
    Shift(Requests(first.delivered), Requests(rest.delivered), rest.ch.readQueue, first.ch.readQueue,
          q, Issued([events[0]]), Issued(events[1..]));
  }

  /** Regrouping `a + (b + r)` when `b + r == m + j` and `a + m == q + i`. */
  lemma Shift<T>(a: seq<T>, b: seq<T>, r: seq<T>, m: seq<T>, q: seq<T>, i: seq<T>, j: seq<T>)
    requires a + m == q + i && b + r == m + j
    ensures (a + b) + r == q + (i + j)
  {
    calc {
      (a + b) + r;
      a + (b + r);
      a + (m + j);
      (a + m) + j;
      (q + i) + j;
    }
  }

  lemma RunBytes(buffer: Bytes, first: Out, rest: Out)
    requires buffer + first.received == Flatten(Datas(first.delivered)) + first.ch.readBuffer
    requires first.ch.readBuffer + rest.received == Flatten(Datas(rest.delivered)) + rest.ch.readBuffer
    ensures buffer + (first.received + rest.received)
            == Flatten(Datas(first.delivered + rest.delivered)) + rest.ch.readBuffer
  {
    DatasAppend(first.delivered, rest.delivered);
    FlattenAppend(Datas(first.delivered), Datas(rest.delivered));
    Slide(buffer, first.received, rest.received, Flatten(Datas(first.delivered)), first.ch.readBuffer,
          Flatten(Datas(rest.delivered)), rest.ch.readBuffer);
  }

  /** Regrouping `x + (r1 + r2)` when `x + r1 == d1 + m` and `m + r2 == d2 + y`. */
  lemma Slide<T>(x: seq<T>, r1: seq<T>, r2: seq<T>, d1: seq<T>, m: seq<T>, d2: seq<T>, y: seq<T>)
    requires x + r1 == d1 + m && m + r2 == d2 + y
    ensures x + (r1 + r2) == (d1 + d2) + y
  {
    calc {
      x + (r1 + r2);
      (x + r1) + r2;
      (d1 + m) + r2;
      d1 + (m + r2);
      d1 + (d2 + y);
    }
  }

  lemma RunWrites(w: seq<Bytes>, events: seq<Event>, first: Out, rest: Out)
    requires |events| > 0
    requires Flatten(first.sent) + Flatten(first.ch.writeQueue) == Flatten(w) + Flatten(Payloads([events[0]]))
    requires Flatten(rest.sent) + Flatten(rest.ch.writeQueue) == Flatten(first.ch.writeQueue) + Flatten(Payloads(events[1..]))
    ensures Flatten(first.sent + rest.sent) + Flatten(rest.ch.writeQueue) == Flatten(w) + Flatten(Payloads(events))
  {
    FlattenAppend(first.sent, rest.sent);
    PayloadsSplit(events);
    FlattenAppend(Payloads([events[0]]), Payloads(events[1..]));
    Shift(Flatten(first.sent), Flatten(rest.sent), Flatten(rest.ch.writeQueue), Flatten(first.ch.writeQueue),
          Flatten(w), Flatten(Payloads([events[0]])), Flatten(Payloads(events[1..])));
  }

  lemma RunBounds(rule: Threshold, a: seq<Delivery>, b: seq<Delivery>)
    requires forall i :: 0 <= i < |a| ==> 0 < |a[i].data| <= a[i].request.max
    requires forall i :: 0 <= i < |b| ==> 0 < |b[i].data| <= b[i].request.max
    requires rule == Intended ==> forall i :: 0 <= i < |a| ==> a[i].request.min <= |a[i].data|
    requires rule == Intended ==> forall i :: 0 <= i < |b| ==> b[i].request.min <= |b[i].data|
    ensures forall i :: 0 <= i < |a + b| ==> 0 < |(a + b)[i].data| <= (a + b)[i].request.max
    ensures rule == Intended ==> forall i :: 0 <= i < |a + b| ==> (a + b)[i].request.min <= |(a + b)[i].data|
  {
  }

  lemma {:induction false} RequestsAppend(a: seq<Delivery>, b: seq<Delivery>)
    ensures Requests(a + b) == Requests(a) + Requests(b)
    decreases |a|
  {
    if |a| == 0 {
      assert a + b == b;
    } else {
      assert (a + b)[1..] == a[1..] + b;
      RequestsAppend(a[1..], b);
    }
  }

  lemma {:induction false} DatasAppend(a: seq<Delivery>, b: seq<Delivery>)
    ensures Datas(a + b) == Datas(a) + Datas(b)
    decreases |a|
  {
    if |a| == 0 {
      assert a + b == b;
    } else {
      assert (a + b)[1..] == a[1..] + b;
      DatasAppend(a[1..], b);
    }
  }

  lemma IssuedSplit(events: seq<Event>)
    requires |events| > 0
    ensures Issued(events) == Issued([events[0]]) + Issued(events[1..])
  {
    IssuedOne(events[0]);
  }

  lemma PayloadsSplit(events: seq<Event>)
    requires |events| > 0
    ensures Payloads(events) == Payloads([events[0]]) + Payloads(events[1..])
  {
    assert [events[0]][1..] == [];
  }
}
