/**
 `BufferedSocket`: a channel over a non-blocking socket with a FIFO of read requests,
 filled on each readable event, and a FIFO of write payloads, drained on each writable
 event. The readable/writable delegates are modelled as two "armed" flags: a notifier fires
 only while its delegate is installed.
 */
module BufferedSocket {
  import opened Octets
  import opened Posix
  import opened Io
  import opened TransferQueue

  datatype Channel = Channel(
    kind: SocketType,
    isOpen: bool,
    readQueue: seq<ReadItem>,
    writeQueue: seq<Bytes>,
    readArmed: bool,
    writeArmed: bool)

  /** A freshly wrapped, open socket: nothing queued, no delegate installed. */
  function Open(kind: SocketType): (ch: Channel)
    ensures Valid(ch) && ch.isOpen && ch.kind == kind
  {
    Channel(kind, true, [], [], false, false)
  }

  /**
   What holds between events: the read queue is well formed, a delegate is installed
   exactly while its queue is non-empty, and a closed channel holds nothing.
   */
  predicate Valid(ch: Channel)
  {
    && WellQueued(ch.readQueue)
    && (ch.readArmed <==> |ch.readQueue| > 0)
    && (ch.writeArmed <==> |ch.writeQueue| > 0)
    && (!ch.isOpen ==> ch.readQueue == [] && ch.writeQueue == [])
  }

  /**
   `close()`: both queues are dropped without running a completion, then the
   underlying `DispatchSocket.close`, which acts only while open, uninstalls both delegates.
   */
  function Close(ch: Channel): (r: Channel)
    ensures !r.isOpen && r.readQueue == [] && r.writeQueue == [] && r.kind == ch.kind
    ensures ch.isOpen ==> !r.readArmed && !r.writeArmed
    ensures !ch.isOpen ==> r.readArmed == ch.readArmed && r.writeArmed == ch.writeArmed
  {
    var emptied := ch.(readQueue := [], writeQueue := []);
    if ch.isOpen then emptied.(isOpen := false, readArmed := false, writeArmed := false)
    else emptied
  }

  lemma CloseIdempotent(ch: Channel)
    ensures Close(Close(ch)) == Close(ch)
    ensures Valid(ch) ==> Valid(Close(ch))
  {
  }

  /**
   `read(min:max:completion:)`: on an open channel the new request goes to the tail and
   the readable delegate is installed; on a closed one nothing happens.
   */
  function Read(ch: Channel, min: nat, max: nat, tag: nat): (r: Channel)
    requires 0 < min <= max
    ensures !ch.isOpen ==> r == ch
    ensures ch.isOpen ==> && |r.readQueue| == |ch.readQueue| + 1
                          && r.readQueue[..|ch.readQueue|] == ch.readQueue
                          && r.readQueue[|ch.readQueue|] == ReadItem([], min, max, tag)
                          && r.readArmed
                          && r.writeQueue == ch.writeQueue && r.writeArmed == ch.writeArmed
                          && r.isOpen && r.kind == ch.kind
    ensures Valid(ch) ==> Valid(r)
  {
    if !ch.isOpen then ch
    else
      var r := ch.(readQueue := ch.readQueue + [NewItem(min, max, tag)], readArmed := true);
      assert r.readQueue[..|ch.readQueue|] == ch.readQueue;
      r
  }

  /** `read(_ count:)`: exactly `count` bytes. */
  function ReadExact(ch: Channel, count: nat, tag: nat): (r: Channel)
    requires 0 < count
    ensures ch.isOpen ==> r.readQueue == ch.readQueue + [ReadItem([], count, count, tag)]
    ensures !ch.isOpen ==> r == ch
  {
    Read(ch, count, count, tag)
  }

  /** `read(max:)`: at least one byte, at most `max`. */
  function ReadUpTo(ch: Channel, max: nat, tag: nat): (r: Channel)
    requires 0 < max
    ensures ch.isOpen ==> r.readQueue == ch.readQueue + [ReadItem([], 1, max, tag)]
    ensures !ch.isOpen ==> r == ch
  {
    Read(ch, 1, max, tag)
  }

  /** The result of the read loop of one readable event. */
  datatype ReadPump = ReadPump(
    queue: seq<ReadItem>,
    completed: seq<ReadItem>,
    received: Bytes,
    rest: seq<RecvReply>,
    fatal: bool)

  /**
   What one run of the read loop over `queue` leaves: the requests still queued are well
   formed; the completed ones are within their bounds and, followed by those still queued,
   are the requests of `queue` in order, each completing after one call; the bytes already
   buffered and those received are the bytes of the completed requests and then those still
   buffered; behind the head, the queue left is the queue after the completed requests; and
   the loop asks for a close exactly when it stopped at a request whose `recv` failed with an
   error other than a would-block, which leaves that request as it was.
   */
  predicate Served(queue: seq<ReadItem>, script: seq<RecvReply>, p: ReadPump)
  {
    && WellQueued(p.queue)
    && AllSatisfied(p.completed)
    && Tags(p.completed) + Tags(p.queue) == Tags(queue)
    && |p.completed| + |p.queue| == |queue|
    && Flatten(Buffers(queue)) + p.received == Flatten(Buffers(p.completed)) + Flatten(Buffers(p.queue))
    && (|p.queue| > 0 ==> p.queue[1..] == queue[|queue| - |p.queue| + 1..])
    && (p.fatal ==> p.queue == queue[|queue| - |p.queue|..])
    && (p.fatal <==> |p.completed| < |queue| && RecvFailsHard(script, |p.completed|))
  }

  /** A request after one `recv` of `min(max - buffered, count)` bytes answered `bytes`. */
  function Fill(it: ReadItem, count: nat, bytes: Bytes): (r: ReadItem)
    requires |it.buffer| <= it.max
    ensures r.min == it.min && r.max == it.max && r.tag == it.tag
    ensures IsPrefix(it.buffer, r.buffer) && |r.buffer| <= it.max
    ensures |r.buffer| - |it.buffer| <= count
  {
    it.(buffer := it.buffer + Take(bytes, Min(it.max - |it.buffer|, count)))
  }

  /**
   The first `n` calls of the read loop were each answered with bytes, and each filled its
   request up to its minimum, which completed it.
   */
  predicate FilledBy(queue: seq<ReadItem>, count: nat, script: seq<RecvReply>, done: seq<ReadItem>, n: nat)
    requires WellQueued(queue)
  {
    && n <= |queue| && n <= |script| && n == |done|
    && forall i :: 0 <= i < n ==> && script[i].Received?
                                  && done[i] == Fill(queue[i], count, script[i].bytes)
                                  && queue[i].min <= |done[i].buffer|
  }

  /**
   Where the read loop ended after `n` completions: out of requests, with the replies after
   the `n`th left; or at the `n`th reply. Bytes there leave that request filled but still
   below its minimum; a failure (or an exhausted script) leaves the queue from that request
   on as it was. Either way that reply is consumed.
   */
  predicate ReadStoppedAt(queue: seq<ReadItem>, count: nat, script: seq<RecvReply>, p: ReadPump, n: nat)
    requires WellQueued(queue) && n <= |queue| && n <= |script|
  {
    && (n == |queue| ==> p.rest == script[n..])
    && (n < |queue| ==>
          && p.rest == Rest(script[n..])
          && if n < |script| && script[n].Received? then
               && |Fill(queue[n], count, script[n].bytes).buffer| < queue[n].min
               && p.queue == [Fill(queue[n], count, script[n].bytes)] + queue[n + 1..]
             else p.queue == queue[n..])
  }

  /** The read loop against the socket's replies, one reply per `recv`. */
  predicate RecvsAnswered(queue: seq<ReadItem>, count: nat, script: seq<RecvReply>, p: ReadPump)
    requires WellQueued(queue)
  {
    && FilledBy(queue, count, script, p.completed, |p.completed|)
    && ReadStoppedAt(queue, count, script, p, |p.completed|)
  }

  /**
   The loop of `dispatchSocketReadable`: each head request asks the socket for
   `min(max - buffered, count)` bytes; a head that reaches `min` is popped and completed and
   the loop goes on, otherwise it stays partially filled and the loop stops. A would-block
   stops the loop quietly; any other error stops it and asks for a close.
   */
  function PumpReads(queue: seq<ReadItem>, count: nat, script: seq<RecvReply>): (p: ReadPump)
    requires WellQueued(queue) && count > 0
    ensures Served(queue, script, p)
    ensures RecvsAnswered(queue, count, script, p)
    decreases |queue|
  {
    if |queue| == 0 then ReadPump([], [], [], script, false)
    else
      var item := queue[0];
      var wanted := item.max - |item.buffer|;
      match Recv(script, Min(wanted, count))
      case RecvFailed(e) =>
        RecvFailedSound(queue, script, Min(wanted, count), e);
        assert queue[0..] == queue;
        ReadPump(queue, [], [], Rest(script), !IsWouldBlock(e))
      case Received(bytes) =>
        var filled := item.(buffer := item.buffer + bytes);
        assert filled == Fill(item, count, script[0].bytes);
        if |filled.buffer| >= filled.min then
          var tail := PumpReads(queue[1..], count, Rest(script));
          CompletedSound(queue, script, Min(wanted, count), bytes, tail);
          CompletedAnswered(queue, count, script, tail);
          tail.(completed := [filled] + tail.completed, received := bytes + tail.received)
        else
          ReadPartialStep(queue, filled, bytes);
          PartialReadSound(queue, script, Min(wanted, count), bytes);
          ReadPump([filled] + queue[1..], [], bytes, Rest(script), false)
  }

  /** A head completed by the first reply, then the loop over the rest of the queue. */
  lemma CompletedAnswered(queue: seq<ReadItem>, count: nat, script: seq<RecvReply>, tail: ReadPump)
    requires WellQueued(queue) && |queue| > 0 && |script| > 0 && script[0].Received?
    requires queue[0].min <= |Fill(queue[0], count, script[0].bytes).buffer|
    requires WellQueued(queue[1..]) && RecvsAnswered(queue[1..], count, script[1..], tail)
    ensures RecvsAnswered(queue, count, script, tail.(completed := [Fill(queue[0], count, script[0].bytes)] + tail.completed))
  {
    var m := |tail.completed|;
    FilledCons(queue, count, script, tail.completed, m);
    ReadStoppedCons(queue, count, script, tail, m);
  }

  lemma FilledCons(queue: seq<ReadItem>, count: nat, script: seq<RecvReply>, done: seq<ReadItem>, m: nat)
    requires WellQueued(queue) && |queue| > 0 && |script| > 0 && script[0].Received?
    requires queue[0].min <= |Fill(queue[0], count, script[0].bytes).buffer|
    requires WellQueued(queue[1..]) && FilledBy(queue[1..], count, script[1..], done, m)
    ensures FilledBy(queue, count, script, [Fill(queue[0], count, script[0].bytes)] + done, m + 1)
  {
    var all := [Fill(queue[0], count, script[0].bytes)] + done;
    forall i | 0 < i < m + 1
      ensures && script[i].Received? && all[i] == Fill(queue[i], count, script[i].bytes)
              && queue[i].min <= |all[i].buffer|
    {
      assert queue[1..][i - 1] == queue[i] && script[1..][i - 1] == script[i] && all[i] == done[i - 1];
    }
  }

  lemma ReadStoppedCons(queue: seq<ReadItem>, count: nat, script: seq<RecvReply>, tail: ReadPump, m: nat)
    requires WellQueued(queue) && |queue| > 0 && |script| > 0 && m <= |queue| - 1 && m <= |script| - 1
    requires WellQueued(queue[1..]) && ReadStoppedAt(queue[1..], count, script[1..], tail, m)
    ensures ReadStoppedAt(queue, count, script, tail, m + 1)
  {
    var n := m + 1;
    assert script[1..][m..] == script[n..];
    if n < |queue| {
      assert queue[1..][m] == queue[n] && queue[1..][m + 1..] == queue[n + 1..] && queue[1..][m..] == queue[n..];
      assert m < |script[1..]| ==> script[1..][m] == script[n];
    }
  }

  lemma RecvFailedSound(queue: seq<ReadItem>, script: seq<RecvReply>, n: nat, e: Thrown)
    requires WellQueued(queue) && |queue| > 0 && Recv(script, n) == RecvFailed(e)
    ensures Served(queue, script, ReadPump(queue, [], [], Rest(script), !IsWouldBlock(e)))
  {
    assert Tags([]) == [] && Buffers([]) == [] && Flatten([]) == [];
    assert queue[|queue| - |queue| + 1..] == queue[1..];
  }

  lemma PartialReadSound(queue: seq<ReadItem>, script: seq<RecvReply>, n: nat, bytes: Bytes)
    requires WellQueued(queue) && |queue| > 0 && Recv(script, n) == Received(bytes)
    requires |queue[0].buffer + bytes| < queue[0].min
    requires var q := [queue[0].(buffer := queue[0].buffer + bytes)] + queue[1..];
             WellQueued(q) && Tags(q) == Tags(queue) && Flatten(Buffers(queue)) + bytes == Flatten(Buffers(q))
    ensures Served(queue, script, ReadPump([queue[0].(buffer := queue[0].buffer + bytes)] + queue[1..], [], bytes, Rest(script), false))
  {
    var q := [queue[0].(buffer := queue[0].buffer + bytes)] + queue[1..];
    var none: seq<ReadItem> := [];
    assert Tags(none) + Tags(q) == Tags(queue) by {
      assert Tags(none) == [];
    }
    assert Flatten(Buffers(queue)) + bytes == Flatten(Buffers(none)) + Flatten(Buffers(q)) by {
      assert Buffers(none) == [] && Flatten(Buffers(none)) == [];
    }
    assert |q| == |queue| && q[1..] == queue[1..];
    assert !RecvFailsHard(script, 0);
  }

  lemma CompletedSound(queue: seq<ReadItem>, script: seq<RecvReply>, n: nat, bytes: Bytes, tail: ReadPump)
    requires WellQueued(queue) && |queue| > 0 && Recv(script, n) == Received(bytes)
    requires n <= queue[0].max - |queue[0].buffer| && |queue[0].buffer + bytes| >= queue[0].min
    requires Served(queue[1..], Rest(script), tail)
    ensures var filled := queue[0].(buffer := queue[0].buffer + bytes);
            Served(queue, script, tail.(completed := [filled] + tail.completed, received := bytes + tail.received))
  {
    var filled := queue[0].(buffer := queue[0].buffer + bytes);
    ReadCompleteStep(queue, filled, bytes, tail.completed, tail.queue);
    ReadCompleteBytes(queue, filled, bytes, tail.completed, tail.queue, tail.received);
    DropShift(queue, |queue[1..]| - |tail.queue|);
    FailsHardShift(script, [], |tail.completed|);
    assert forall i :: 0 < i < |[filled] + tail.completed| ==> ([filled] + tail.completed)[i] == tail.completed[i - 1];
  }

  /** What one readable event produced. */
  datatype Readout = Readout(ch: Channel, completed: seq<ReadItem>, received: Bytes, rest: seq<RecvReply>)

  /**
   `dispatchSocketReadable(_:count:)`. A zero `count` closes the channel; otherwise the
   read loop runs, a fatal error closes, and an emptied queue uninstalls the delegate.
   */
  function Readable(ch: Channel, count: nat, script: seq<RecvReply>): (o: Readout)
    requires Valid(ch)
    ensures Valid(o.ch) && o.ch.kind == ch.kind
    ensures AllSatisfied(o.completed)
    ensures count == 0 ==> o.ch == Close(ch) && o.completed == []
    ensures o.ch.isOpen ==> Tags(o.completed) + Tags(o.ch.readQueue) == Tags(ch.readQueue)
    ensures IsPrefix(Tags(o.completed), Tags(ch.readQueue))
    ensures o.ch.isOpen ==> Flatten(Buffers(ch.readQueue)) + o.received
                            == Flatten(Buffers(o.completed)) + Flatten(Buffers(o.ch.readQueue))
    ensures !ch.isOpen ==> !o.ch.isOpen && o.completed == []
    ensures o.ch.writeQueue == ch.writeQueue || !o.ch.isOpen
    ensures o.ch.isOpen <==> && ch.isOpen && count > 0
                             && !(|o.completed| < |ch.readQueue| && RecvFailsHard(script, |o.completed|))
    ensures count > 0 ==>
              && |o.completed| <= |ch.readQueue|
              && RecvsAnswered(ch.readQueue, count, script,
                               ReadPump(if o.ch.isOpen then o.ch.readQueue else ch.readQueue[|o.completed|..],
                                        o.completed, o.received, o.rest, !o.ch.isOpen))
  {
    if count == 0 then Readout(Close(ch), [], [], script)
    else
      var p := PumpReads(ch.readQueue, count, script);
      var after := if p.fatal then Close(ch.(readQueue := p.queue)) else ch.(readQueue := p.queue);
      var done := if |after.readQueue| == 0 then after.(readArmed := false) else after;
      assert IsPrefix(Tags(p.completed), Tags(ch.readQueue));
      Readout(done, p.completed, p.received, p.rest)
  }

  /** What a write call or a writable event sent. */
  datatype Writeout = Writeout(ch: Channel, sends: seq<Bytes>, rest: seq<SendReply>)

  /** Queue `data` at the tail and install the writable delegate. */
  function Enqueue(ch: Channel, data: Bytes): (r: Channel)
  {
    ch.(writeQueue := ch.writeQueue + [data], writeArmed := true)
  }

  /**
   `write(_:)`. On an open channel with nothing queued, one immediate send is tried (a
   failure of that try is ignored); if it took every byte, or at least one byte of a
   datagram, nothing is queued. Otherwise the unsent suffix is queued.
   */
  function Write(ch: Channel, data: Bytes, script: seq<SendReply>): (o: Writeout)
    requires Valid(ch)
    ensures Valid(o.ch)
    ensures !ch.isOpen ==> o.ch == ch && o.sends == []
    ensures o.ch.readQueue == ch.readQueue && o.ch.readArmed == ch.readArmed
    ensures o.ch.isOpen == ch.isOpen && o.ch.kind == ch.kind
    ensures ch.isOpen && ch.kind == Stream ==>
              Flatten(o.sends) + Flatten(o.ch.writeQueue) == Flatten(ch.writeQueue) + data
    ensures ch.isOpen && ch.kind == Datagram ==>
              || (o.ch.writeQueue == ch.writeQueue + [data] && o.sends == [])
              || (o.ch.writeQueue == ch.writeQueue == [] && |o.sends| == 1
                  && 0 < |o.sends[0]| && IsPrefix(o.sends[0], data))
    ensures |ch.writeQueue| > 0 ==> o.sends == []
    ensures ch.isOpen && |ch.writeQueue| > 0 ==> o.ch.writeQueue == ch.writeQueue + [data] && o.rest == script
    ensures ch.isOpen && ch.writeQueue == [] ==>
              && o.rest == Rest(script)
              && var r := Send(script, data);
                 if r.Sent? && r.count > 0 then
                   && o.sends == [data[..r.count]]
                   && o.ch.writeQueue == (if r.count == |data| || ch.kind == Datagram then [] else [data[r.count..]])
                 else o.sends == [] && o.ch.writeQueue == [data]
  {
    if !ch.isOpen then Writeout(ch, [], script)
    else if |ch.writeQueue| > 0 then
      FlattenAppend(ch.writeQueue, [data]);
      FlattenSingle(data);
      Writeout(Enqueue(ch, data), [], script)
    else
      match Send(script, data)
      case Sent(k) =>
        if k > 0 && (k == |data| || ch.kind == Datagram) then
          assert data[..k] + [] == data || ch.kind == Datagram;
          FlattenSingle(data[..k]);
          Writeout(ch, [data[..k]], Rest(script))
        else if k > 0 then
          FlattenSingle(data[..k]);
          FlattenSingle(data[k..]);
          assert data[..k] + data[k..] == data;
          Writeout(Enqueue(ch, data[k..]), [data[..k]], Rest(script))
        else
          FlattenSingle(data);
          Writeout(Enqueue(ch, data), [], Rest(script))
      case SendFailed(_) =>
        FlattenSingle(data);
        Writeout(Enqueue(ch, data), [], Rest(script))
  }

  /**
   `dispatchSocketWritable(_:)`: the write loop; a fatal error closes (and returns at
   once), otherwise an emptied queue uninstalls the writable delegate.
   */
  function Writable(ch: Channel, script: seq<SendReply>): (o: Writeout)
    requires Valid(ch)
    ensures Valid(o.ch) && o.ch.kind == ch.kind
    ensures o.ch.isOpen ==> o.ch.readQueue == ch.readQueue && o.ch.readArmed == ch.readArmed
    ensures o.ch.isOpen && ch.kind == Stream ==>
              Flatten(o.sends) + Flatten(o.ch.writeQueue) == Flatten(ch.writeQueue)
    ensures ch.kind == Stream ==> IsPrefix(Flatten(o.sends), Flatten(ch.writeQueue))
    ensures ch.kind == Datagram ==>
              forall i :: 0 <= i < |o.sends| ==> i < |ch.writeQueue| && IsPrefix(o.sends[i], ch.writeQueue[i])
    ensures !ch.isOpen ==> o.ch == ch && o.sends == []
    ensures ch.isOpen ==> (o.ch.isOpen <==> !PumpWrites(ch.kind, ch.writeQueue, script).fatal)
    ensures o.ch.isOpen && ch.kind == Datagram ==>
              |o.sends| <= |ch.writeQueue| && o.ch.writeQueue == ch.writeQueue[|o.sends|..]
    ensures ch.isOpen ==>
              && |o.sends| <= |ch.writeQueue|
              && SendsAnswered(ch.kind, ch.writeQueue, script,
                               WritePump(if o.ch.isOpen then o.ch.writeQueue else ch.writeQueue[|o.sends|..],
                                         o.sends, o.rest, !o.ch.isOpen))
  {
    var p := PumpWrites(ch.kind, ch.writeQueue, script);
    if p.fatal then
      Writeout(Close(ch.(writeQueue := p.queue)), p.sends, p.rest)
    else
      var after := ch.(writeQueue := p.queue);
      Writeout(if |p.queue| == 0 then after.(writeArmed := false) else after, p.sends, p.rest)
  }

  /** What happens to a channel: a caller's read, write or close, or a notifier event. */
  datatype Event =
    | ReadCall(min: nat, max: nat, tag: nat)
    | WriteCall(data: Bytes)
    | ReadableEvent(count: nat)
    | WritableEvent
    | CloseCall

  predicate WellFormed(e: Event)
  {
    e.ReadCall? ==> 0 < e.min <= e.max
  }

  /**
   The effect of a run of events: the final channel, the completions in the order they
   ran, the tags of the reads the channel accepted (it was open), the payloads of the writes
   it accepted, each send's accepted bytes, and what is left of both socket scripts.
   */
  datatype Step = Step(
    ch: Channel,
    completed: seq<ReadItem>,
    issued: seq<nat>,
    written: seq<Bytes>,
    sends: seq<Bytes>,
    recvs: seq<RecvReply>,
    sendScript: seq<SendReply>)

  /** FIFO: completions plus still-queued requests are (a prefix of) those ever accepted. */
  predicate Ordered(before: seq<ReadItem>, s: Step)
  {
    && IsPrefix(Tags(s.completed) + Tags(s.ch.readQueue), Tags(before) + s.issued)
    && (s.ch.isOpen ==> Tags(s.completed) + Tags(s.ch.readQueue) == Tags(before) + s.issued)
  }

  /** Stream conservation: bytes sent, then bytes still queued, are the bytes written, in order. */
  predicate Conserved(before: seq<Bytes>, s: Step)
  {
    && IsPrefix(Flatten(s.sends) + Flatten(s.ch.writeQueue), Flatten(before) + Flatten(s.written))
    && (s.ch.isOpen ==> Flatten(s.sends) + Flatten(s.ch.writeQueue) == Flatten(before) + Flatten(s.written))
  }

  /** Nothing happens on a closed channel. */
  predicate Silent(s: Step)
  {
    !s.ch.isOpen && s.completed == [] && s.issued == [] && s.written == [] && s.sends == []
  }

  /** One event applied to a channel. */
  function Apply(ch: Channel, e: Event, recvs: seq<RecvReply>, sends: seq<SendReply>): (s: Step)
    requires Valid(ch) && WellFormed(e)
    ensures Valid(s.ch) && s.ch.kind == ch.kind
  {
    match e
    case ReadCall(min, max, tag) =>
      Step(Read(ch, min, max, tag), [], if ch.isOpen then [tag] else [], [], [], recvs, sends)
    case WriteCall(data) =>
      var o := Write(ch, data, sends);
      Step(o.ch, [], [], if ch.isOpen then [data] else [], o.sends, recvs, o.rest)
    case ReadableEvent(count) =>
      var o := Readable(ch, count, recvs);
      Step(o.ch, o.completed, [], [], [], o.rest, sends)
    case WritableEvent =>
      var o := Writable(ch, sends);
      Step(o.ch, [], [], [], o.sends, recvs, o.rest)
    case CloseCall =>
      Step(Close(ch), [], [], [], [], recvs, sends)
  }

  /** Each kind of event keeps completions bounded, in order, and (on a stream) the bytes conserved. */
  lemma ApplySound(ch: Channel, e: Event, recvs: seq<RecvReply>, sends: seq<SendReply>)
    requires Valid(ch) && WellFormed(e)
    ensures AllSatisfied(Apply(ch, e, recvs, sends).completed)
    ensures Ordered(ch.readQueue, Apply(ch, e, recvs, sends))
    ensures ch.kind == Stream ==> Conserved(ch.writeQueue, Apply(ch, e, recvs, sends))
    ensures !ch.isOpen ==> Silent(Apply(ch, e, recvs, sends))
  {
    match e
    case ReadCall(min, max, tag) =>
      ReadCallSound(ch, min, max, tag, recvs, sends);
    case WriteCall(data) =>
      WriteCallSound(ch, data, recvs, sends);
    case ReadableEvent(count) =>
      ReadableSound(ch, count, recvs, sends);
    case WritableEvent =>
      WritableSound(ch, recvs, sends);
    case CloseCall =>
      CloseSound(ch, recvs, sends);
  }

  lemma ReadCallSound(ch: Channel, min: nat, max: nat, tag: nat, recvs: seq<RecvReply>, sends: seq<SendReply>)
    requires Valid(ch) && 0 < min <= max
    ensures var s := Apply(ch, ReadCall(min, max, tag), recvs, sends);
      AllSatisfied(s.completed) && Ordered(ch.readQueue, s) && Conserved(ch.writeQueue, s)
      && (!ch.isOpen ==> Silent(s))
  {
    ReadCallTags(ch, min, max, tag);
    assert Tags([]) == [] && Flatten([]) == [];
    assert Flatten(ch.writeQueue) + [] == Flatten(ch.writeQueue);
    assert Tags(ch.readQueue) + [] == Tags(ch.readQueue);
  }

  lemma WriteCallSound(ch: Channel, data: Bytes, recvs: seq<RecvReply>, sends: seq<SendReply>)
    requires Valid(ch)
    ensures var s := Apply(ch, WriteCall(data), recvs, sends);
      AllSatisfied(s.completed) && Ordered(ch.readQueue, s) && (ch.kind == Stream ==> Conserved(ch.writeQueue, s))
      && (!ch.isOpen ==> Silent(s))
  {
    FlattenSingle(data);
    assert Tags([]) == [] && Flatten([]) == [];
    assert Flatten(ch.writeQueue) + [] == Flatten(ch.writeQueue);
    assert Tags(ch.readQueue) + [] == Tags(ch.readQueue);
  }

  lemma CloseSound(ch: Channel, recvs: seq<RecvReply>, sends: seq<SendReply>)
    requires Valid(ch)
    ensures var s := Apply(ch, CloseCall, recvs, sends);
      AllSatisfied(s.completed) && Ordered(ch.readQueue, s) && Conserved(ch.writeQueue, s)
      && (!ch.isOpen ==> Silent(s))
  {
    assert Tags([]) == [] && Flatten([]) == [];
    assert Flatten(ch.writeQueue) + [] == Flatten(ch.writeQueue);
    assert Tags(ch.readQueue) + [] == Tags(ch.readQueue);
  }

  lemma ReadableSound(ch: Channel, count: nat, recvs: seq<RecvReply>, sends: seq<SendReply>)
    requires Valid(ch)
    ensures var s := Apply(ch, ReadableEvent(count), recvs, sends);
      AllSatisfied(s.completed) && Ordered(ch.readQueue, s) && (ch.kind == Stream ==> Conserved(ch.writeQueue, s))
      && (!ch.isOpen ==> Silent(s))
  {
    var o := Readable(ch, count, recvs);
    var s := Step(o.ch, o.completed, [], [], [], o.rest, sends);
    assert Apply(ch, ReadableEvent(count), recvs, sends) == s;
    assert Flatten([]) == [];
    assert Tags(ch.readQueue) + [] == Tags(ch.readQueue);
    if !s.ch.isOpen {
      assert Tags(s.ch.readQueue) == [];
      assert Tags(s.completed) + Tags(s.ch.readQueue) == Tags(s.completed);
      PrefixExtend(Tags(s.completed), Tags(ch.readQueue), []);
      assert Flatten(s.ch.writeQueue) == [];
      PrefixExtend([], Flatten(ch.writeQueue), []);
    }
  }

  lemma WritableSound(ch: Channel, recvs: seq<RecvReply>, sends: seq<SendReply>)
    requires Valid(ch)
    ensures var s := Apply(ch, WritableEvent, recvs, sends);
      AllSatisfied(s.completed) && Ordered(ch.readQueue, s) && (ch.kind == Stream ==> Conserved(ch.writeQueue, s))
      && (!ch.isOpen ==> Silent(s))
  {
    var o := Writable(ch, sends);
    var s := Step(o.ch, [], [], [], o.sends, recvs, o.rest);
    assert Apply(ch, WritableEvent, recvs, sends) == s;
    WritableOrdered(ch, sends, s);
    if ch.kind == Stream {
      WritableConserved(ch, sends, s);
    }
  }

  lemma WritableOrdered(ch: Channel, sends: seq<SendReply>, s: Step)
    requires Valid(ch)
    requires var o := Writable(ch, sends); s == Step(o.ch, [], [], [], o.sends, s.recvs, o.rest)
    ensures Ordered(ch.readQueue, s)
  {
    assert Tags([]) == [];
    assert Tags(ch.readQueue) + [] == Tags(ch.readQueue);
    if !s.ch.isOpen {
      assert Tags(s.ch.readQueue) == [];
      PrefixExtend([], Tags(ch.readQueue), []);
    }
  }

  lemma WritableConserved(ch: Channel, sends: seq<SendReply>, s: Step)
    requires Valid(ch) && ch.kind == Stream
    requires var o := Writable(ch, sends); s == Step(o.ch, [], [], [], o.sends, s.recvs, o.rest)
    ensures Conserved(ch.writeQueue, s)
  {
    assert Flatten([]) == [];
    assert Flatten(ch.writeQueue) + [] == Flatten(ch.writeQueue);
    if !s.ch.isOpen {
      assert Flatten(s.ch.writeQueue) == [];
      assert Flatten(s.sends) + Flatten(s.ch.writeQueue) == Flatten(s.sends);
    }
  }

  /**
   A run of events from a valid channel: every completion is within its bounds, the
   completions run in the order the reads were accepted, on a stream the socket receives
   exactly the written bytes in order (a prefix of them once the channel has closed), and a
   closed channel stays closed and silent.
   */
  function Run(ch: Channel, events: seq<Event>, recvs: seq<RecvReply>, sends: seq<SendReply>): (s: Step)
    requires Valid(ch)
    requires forall i :: 0 <= i < |events| ==> WellFormed(events[i])
    ensures Valid(s.ch) && s.ch.kind == ch.kind
    ensures AllSatisfied(s.completed)
    ensures Ordered(ch.readQueue, s)
    ensures ch.kind == Stream ==> Conserved(ch.writeQueue, s)
    ensures !ch.isOpen ==> Silent(s)
    decreases |events|
  {
    if |events| == 0 then
      assert Tags(ch.readQueue) + [] == Tags(ch.readQueue);
      assert Flatten([]) == [];
      Step(ch, [], [], [], [], recvs, sends)
    else
      var first := Apply(ch, events[0], recvs, sends);
      ApplySound(ch, events[0], recvs, sends);
      assert forall i :: 0 <= i < |events[1..]| ==> WellFormed(events[1..][i]) by {
        forall i | 0 <= i < |events[1..]| ensures WellFormed(events[1..][i]) {
          assert events[1..][i] == events[i + 1];
        }
      }
      var tail := Run(first.ch, events[1..], first.recvs, first.sendScript);
      ThenSound(ch, first, tail);
      Then(first, tail)
  }

  /** One step followed by a run: outputs concatenated, final state and scripts from the run. */
  function Then(first: Step, tail: Step): Step
  {
    Step(tail.ch, first.completed + tail.completed, first.issued + tail.issued,
         first.written + tail.written, first.sends + tail.sends, tail.recvs, tail.sendScript)
  }

  lemma ThenSound(ch: Channel, first: Step, tail: Step)
    requires Valid(ch)
    requires Valid(first.ch) && first.ch.kind == ch.kind && AllSatisfied(first.completed)
    requires Ordered(ch.readQueue, first) && (ch.kind == Stream ==> Conserved(ch.writeQueue, first))
    requires !ch.isOpen ==> Silent(first)
    requires Valid(tail.ch) && tail.ch.kind == first.ch.kind && AllSatisfied(tail.completed)
    requires Ordered(first.ch.readQueue, tail)
    requires first.ch.kind == Stream ==> Conserved(first.ch.writeQueue, tail)
    requires !first.ch.isOpen ==> Silent(tail)
    ensures Valid(Then(first, tail).ch) && Then(first, tail).ch.kind == ch.kind
    ensures AllSatisfied(Then(first, tail).completed)
    ensures Ordered(ch.readQueue, Then(first, tail))
    ensures ch.kind == Stream ==> Conserved(ch.writeQueue, Then(first, tail))
    ensures !ch.isOpen ==> Silent(Then(first, tail))
  {
    var s := Then(first, tail);
    RunOrdered(ch.readQueue, first, tail, s);
    RunConserved(ch.kind, ch.writeQueue, first, tail, s);
  }

  lemma ReadCallTags(ch: Channel, min: nat, max: nat, tag: nat)
    requires 0 < min <= max
    ensures ch.isOpen ==> Tags(Read(ch, min, max, tag).readQueue) == Tags(ch.readQueue) + [tag]
  {
    if ch.isOpen {
      TagsAppend(ch.readQueue, [NewItem(min, max, tag)]);
      assert Read(ch, min, max, tag).readQueue == ch.readQueue + [NewItem(min, max, tag)];
      assert Tags([NewItem(min, max, tag)]) == [tag];
    }
  }

  lemma RunOrdered(q0: seq<ReadItem>, first: Step, tail: Step, s: Step)
    requires Ordered(q0, first) && Ordered(first.ch.readQueue, tail)
    requires !first.ch.isOpen ==> Silent(tail) && tail.ch.readQueue == []
    requires !first.ch.isOpen ==> first.ch.readQueue == []
    requires s.ch == tail.ch && s.completed == first.completed + tail.completed
    requires s.issued == first.issued + tail.issued
    ensures Ordered(q0, s)
  {
    TagsAppend(first.completed, tail.completed);
    var a := Tags(first.completed);
    var b := Tags(tail.completed) + Tags(tail.ch.readQueue);
    var m := Tags(first.ch.readQueue);
    if first.ch.isOpen {
      // a + m == Tags(q0) + first.issued, and b is a prefix of m + tail.issued
      PrefixPrepend(a, b, m + tail.issued);
      AssocExtend(a, m, tail.issued, Tags(q0), first.issued);
      Assoc(a, Tags(tail.completed), Tags(tail.ch.readQueue));
    } else {
      assert tail.completed == [] && tail.issued == [];
      assert Tags(first.ch.readQueue) == [];
      assert a + m == a;
      PrefixExtend(a, Tags(q0) + first.issued, []);
      assert s.completed == first.completed && s.issued == first.issued;
      assert Tags(s.ch.readQueue) == [];
    }
  }

  lemma RunConserved(kind: SocketType, w0: seq<Bytes>, first: Step, tail: Step, s: Step)
    requires kind == Stream ==> Conserved(w0, first) && Conserved(first.ch.writeQueue, tail)
    requires !first.ch.isOpen ==> Silent(tail) && tail.ch.writeQueue == []
    requires !first.ch.isOpen ==> first.ch.writeQueue == []
    requires s.ch == tail.ch && s.sends == first.sends + tail.sends
    requires s.written == first.written + tail.written
    ensures kind == Stream ==> Conserved(w0, s)
  {
    if kind == Datagram {
      return;
    }
    FlattenAppend(first.sends, tail.sends);
    FlattenAppend(first.written, tail.written);
    var a := Flatten(first.sends);
    var b := Flatten(tail.sends) + Flatten(tail.ch.writeQueue);
    var m := Flatten(first.ch.writeQueue);
    if first.ch.isOpen {
      PrefixPrepend(a, b, m + Flatten(tail.written));
      AssocExtend(a, m, Flatten(tail.written), Flatten(w0), Flatten(first.written));
      Assoc(a, Flatten(tail.sends), Flatten(tail.ch.writeQueue));
      Assoc(Flatten(w0), Flatten(first.written), Flatten(tail.written));
    } else {
      assert tail.sends == [] && tail.written == [];
      assert Flatten(tail.sends) == [] && Flatten(tail.written) == [];
      assert Flatten(first.ch.writeQueue) == [];
      assert Flatten(s.ch.writeQueue) == [];
      assert Flatten(s.sends) == a;
      assert Flatten(s.written) == Flatten(first.written);
      assert a + m == a;
    }
  }
}
