/**
 What the two `DatagramSocket` classes share: the send queue of `(data, addr)` pairs drained
 by `writeQueued`, and the `readDatagrams` loop that hands every waiting datagram to the
 delegate. Both versions drain the same way and differ only in how they recognise a
 would-block failure, so the drain is defined once here, for either version, and each
 version's loop is proved to compute it.
 */
module DatagramQueue {
  import opened Octets
  import opened Posix
  import opened Io

  /** The object a `delegate` property refers to, by identity. */
  type Listener = nat

  /**
   Which private `init(socket:delegate:)` the convenience initialisers go through: the code
   as written, which drops its `delegate:` argument, or the corrected one, which stores it.
   */
  datatype Initialiser = AsWritten | Intended

  /** A queued datagram: its payload and, when the socket is not connected, its destination. */
  datatype Datagram<A> = Datagram(data: Bytes, addr: Option<A>)

  /** One system call: `sendto` with an explicit destination, or `send` on the connected socket. */
  datatype Attempt<A> = SendTo(data: Bytes, to: A) | SendConnected(data: Bytes)

  /** The call `writeQueued` makes for a datagram: `sendto` exactly when it has an address. */
  function AttemptOf<A>(d: Datagram<A>): (a: Attempt<A>)
    ensures a.data == d.data
    ensures a.SendTo? <==> d.addr.Some?
    ensures a.SendTo? ==> a.to == d.addr.value
  {
    match d.addr
    case Some(to) => SendTo(d.data, to)
    case None => SendConnected(d.data)
  }

  /** The calls made for a list of datagrams, one each, in order. */
  function Attempts<A>(ds: seq<Datagram<A>>): (r: seq<Attempt<A>>)
    ensures |r| == |ds|
    ensures forall i :: 0 <= i < |ds| ==> r[i] == AttemptOf(ds[i])
  {
    if |ds| == 0 then [] else [AttemptOf(ds[0])] + Attempts(ds[1..])
  }

  /**
   The two versions of the class: the current one (`Sources/`), whose `Socket6` throws
   `POSIXError`, and the earlier one (`SwiftySockets/`), whose `Socket6` throws an `NSError`
   in the POSIX domain carrying `errno` as its code.
   */
  datatype Version = Current | Legacy

  /** What a socket of that version throws when a non-blocking call would block. */
  function Blocked(v: Version): (e: Thrown)
    ensures WouldBlock(v, e)
  {
    match v
    case Current => Posix(POSIXError(EAGAIN))
    case Legacy => Other(EAGAIN as int)
  }

  /**
   The test that makes `writeQueued` return and keep the datagram: the two
   `catch POSIXError(EAGAIN)` / `catch POSIXError(EWOULDBLOCK)` clauses in the current
   version, `[EWOULDBLOCK, EAGAIN].contains(Int32(err.code))` in the earlier one.
   */
  predicate WouldBlock(v: Version, e: Thrown)
  {
    match v
    case Current => Matches(POSIXError(EAGAIN), e) || Matches(POSIXError(EWOULDBLOCK), e)
    case Legacy => e.Other? && (e.code == EWOULDBLOCK as int || e.code == EAGAIN as int)
  }

  /** For the same `errno`, reported in each version's own way, the two tests agree. */
  lemma WouldBlockAgrees(c: int32)
    ensures WouldBlock(Current, Posix(POSIXError(c))) <==> WouldBlock(Legacy, Other(c as int))
    ensures WouldBlock(Current, Posix(POSIXError(c))) <==> c == EAGAIN
  {
  }

  /** The next answer of a script; an exhausted script answers would-block. */
  function Reply(v: Version, script: seq<SendReply>): (r: SendReply)
    ensures |script| > 0 ==> r == script[0]
    ensures |script| == 0 ==> Blocks(v, r)
  {
    if |script| == 0 then SendFailed(Blocked(v)) else script[0]
  }

  predicate Blocks(v: Version, r: SendReply)
  {
    r.SendFailed? && WouldBlock(v, r.err)
  }

  /**
   The result of one `writeQueued`: the datagrams it removed (each after one attempt the
   socket did not refuse as would-block; a fatal error drops the datagram like a success),
   the queue left, every call made, and the script left.
   */
  datatype Drained<A> = Drained(removed: seq<Datagram<A>>, queue: seq<Datagram<A>>,
                                attempts: seq<Attempt<A>>, script: seq<SendReply>)

  /** The reference drain: try the head; stop on would-block, otherwise drop it and go on. */
  function Drain<A>(v: Version, queue: seq<Datagram<A>>, script: seq<SendReply>): (r: Drained<A>)
    decreases |queue|
  {
    if |queue| == 0 then Drained([], [], [], script)
    else if Blocks(v, Reply(v, script)) then Drained([], queue, [AttemptOf(queue[0])], Rest(script))
    else
      var t := Drain(v, queue[1..], Rest(script));
      Drained([queue[0]] + t.removed, t.queue, [AttemptOf(queue[0])] + t.attempts, t.script)
  }

  /** The answer the `i`-th call of a drain receives. */
  function ReplyAt(v: Version, script: seq<SendReply>, i: nat): (r: SendReply)
    ensures i < |script| ==> r == script[i]
    ensures i >= |script| ==> Blocks(v, r)
  {
    if i < |script| then script[i] else SendFailed(Blocked(v))
  }

  /** Nothing is lost or reordered: the removed datagrams followed by the remaining ones are the queue. */
  lemma {:induction false} DrainConserves<A>(v: Version, queue: seq<Datagram<A>>, script: seq<SendReply>)
    ensures var r := Drain(v, queue, script); queue == r.removed + r.queue
    decreases |queue|
  {
    if |queue| > 0 && !Blocks(v, Reply(v, script)) {
      var t := Drain(v, queue[1..], Rest(script));
      DrainConserves(v, queue[1..], Rest(script));
      Cons(queue[0], queue[1..], t.removed, t.queue);
    }
  }

  /**
   Every removed datagram got exactly one call, in queue order; a drain that stops early made
   one more call, for the head it keeps.
   */
  lemma {:induction false} DrainAttempts<A>(v: Version, queue: seq<Datagram<A>>, script: seq<SendReply>)
    ensures var r := Drain(v, queue, script);
      r.attempts == Attempts(r.removed) + Retry(r.queue)
    decreases |queue|
  {
    if |queue| > 0 && !Blocks(v, Reply(v, script)) {
      var t := Drain(v, queue[1..], Rest(script));
      DrainAttempts(v, queue[1..], Rest(script));
      var r := Drain(v, queue, script);
      assert r.removed[1..] == t.removed;
      assert Attempts(r.removed) == [AttemptOf(queue[0])] + Attempts(t.removed);
      Assoc([AttemptOf(queue[0])], Attempts(t.removed), Retry(t.queue));
    }
  }

  /** The call repeated on the next drain: the one for the head kept, if any. */
  function Retry<A>(queue: seq<Datagram<A>>): (r: seq<Attempt<A>>)
    ensures |r| <= 1
  {
    if |queue| == 0 then [] else [AttemptOf(queue[0])]
  }

  /**
   Each removed datagram's call was answered with something other than would-block, and a
   drain that stops early stops because the call for the head it keeps was refused.
   */
  lemma {:induction false} DrainReplies<A>(v: Version, queue: seq<Datagram<A>>, script: seq<SendReply>)
    ensures var r := Drain(v, queue, script);
      && (forall i :: 0 <= i < |r.removed| ==> !Blocks(v, ReplyAt(v, script, i)))
      && (|r.queue| > 0 ==> Blocks(v, ReplyAt(v, script, |r.removed|)))
    decreases |queue|
  {
    if |queue| > 0 && !Blocks(v, Reply(v, script)) {
      var rest := Rest(script);
      DrainReplies(v, queue[1..], rest);
      var t := Drain(v, queue[1..], rest);
      var r := Drain(v, queue, script);
      forall i | 0 <= i < |r.removed|
        ensures !Blocks(v, ReplyAt(v, script, i))
      {
        if i > 0 {
          ShiftReply(v, script, i);
        }
      }
      if |t.queue| > 0 {
        ShiftReply(v, script, |r.removed|);
      }
    }
  }

  lemma ShiftReply(v: Version, script: seq<SendReply>, i: nat)
    requires i > 0
    ensures ReplyAt(v, Rest(script), i - 1) == ReplyAt(v, script, i)
  {
  }

  /** One script entry per call. */
  lemma {:induction false} DrainScript<A>(v: Version, queue: seq<Datagram<A>>, script: seq<SendReply>)
    ensures var r := Drain(v, queue, script);
      r.script == (if |r.attempts| <= |script| then script[|r.attempts|..] else [])
    decreases |queue|
  {
    if |queue| > 0 && !Blocks(v, Reply(v, script)) {
      DrainScript(v, queue[1..], Rest(script));
      var t := Drain(v, queue[1..], Rest(script));
      if |script| > 0 && |t.attempts| + 1 <= |script| {
        assert script[1..][|t.attempts|..] == script[|t.attempts| + 1..];
      }
    }
  }

  /** `[x] + (a + b)` regrouped as `([x] + a) + b`. */
  lemma Cons<T>(x: T, xs: seq<T>, a: seq<T>, b: seq<T>)
    requires xs == a + b
    ensures [x] + xs == ([x] + a) + b
  {
  }

  /** A drain stops only on a refused call: when every answer is accepted, the queue empties. */
  lemma {:induction false} DrainEmpties<A>(v: Version, queue: seq<Datagram<A>>, script: seq<SendReply>)
    requires |script| >= |queue|
    requires forall i :: 0 <= i < |queue| ==> !Blocks(v, script[i])
    ensures Drain(v, queue, script).queue == []
    ensures Drain(v, queue, script).removed == queue
    decreases |queue|
  {
    if |queue| > 0 {
      assert Reply(v, script) == script[0];
      forall i | 0 <= i < |queue| - 1
        ensures !Blocks(v, script[1..][i])
      {
        assert script[1..][i] == script[i + 1];
      }
      DrainEmpties(v, queue[1..], script[1..]);
    }
  }

  /** What the socket gives `recvfrom`: a datagram and its sender, or an error. */
  datatype RecvFromReply<A> = Arrived(bytes: Bytes, sender: A) | RecvFromFailed(err: Thrown)

  /** A `didReceive` call on the delegate. */
  datatype Delivery<A> = Delivery(data: Bytes, from: A)

  datatype ReadOut<A> = ReadOut(deliveries: seq<Delivery<A>>, script: seq<RecvFromReply<A>>)

  /**
   The reference for `readDatagrams`: deliver datagram after datagram, each cut to
   `maxReadSize` as `recvfrom` into a buffer of that size cuts it, until the first error
   (the `try?` turns every error into the end of the loop). An exhausted script is an error.
   */
  function Receive<A>(script: seq<RecvFromReply<A>>, maxReadSize: nat): (r: ReadOut<A>)
    decreases |script|
  {
    if |script| == 0 then ReadOut([], [])
    else match script[0]
      case RecvFromFailed(_) => ReadOut([], script[1..])
      case Arrived(b, from) =>
        var t := Receive(script[1..], maxReadSize);
        ReadOut([Delivery(Take(b, maxReadSize), from)] + t.deliveries, t.script)
  }

  /**
   `readDatagrams` delivers exactly the datagrams that precede the first failure, in order,
   each with its sender and cut to `maxReadSize`, and consumes the failure too.
   */
  lemma {:induction false} ReceiveSpec<A>(script: seq<RecvFromReply<A>>, maxReadSize: nat)
    ensures var r := Receive(script, maxReadSize); var n := |r.deliveries|;
      && n <= |script|
      && (forall i :: 0 <= i < n ==>
            (script[i].Arrived?
             && r.deliveries[i] == Delivery(Take(script[i].bytes, maxReadSize), script[i].sender)
             && |r.deliveries[i].data| <= maxReadSize))
      && (n < |script| ==> script[n].RecvFromFailed? && r.script == script[n + 1..])
      && (n == |script| ==> r.script == [])
    decreases |script|
  {
    if |script| > 0 && script[0].Arrived? {
      ReceiveSpec(script[1..], maxReadSize);
      var r := Receive(script, maxReadSize);
      var t := Receive(script[1..], maxReadSize);
      assert r.deliveries[1..] == t.deliveries;
      forall i | 1 <= i < |r.deliveries|
        ensures script[i] == script[1..][i - 1]
      {
      }
      if |t.deliveries| < |script| - 1 {
        assert script[1..][|t.deliveries| + 1..] == script[|r.deliveries| + 1..];
      }
    }
  }

  /**
   The `while let … = try? recvfrom(…)` loop of `readDatagrams`, shared word for word by both
   versions.
   */
  method ReadLoop<A>(script: seq<RecvFromReply<A>>, maxReadSize: nat) returns (deliveries: seq<Delivery<A>>, rest: seq<RecvFromReply<A>>)
    ensures ReadOut(deliveries, rest) == Receive(script, maxReadSize)
  {
    deliveries, rest := [], script;
    while |rest| > 0 && rest[0].Arrived?
      invariant Receive(script, maxReadSize)
        == (var t := Receive(rest, maxReadSize); ReadOut(deliveries + t.deliveries, t.script))
      decreases |rest|
    {
      var d := Delivery(Take(rest[0].bytes, maxReadSize), rest[0].sender);
      var t := Receive(rest[1..], maxReadSize);
      assert Receive(rest, maxReadSize) == ReadOut([d] + t.deliveries, t.script);
      Assoc(deliveries, [d], t.deliveries);
      deliveries := deliveries + [d];
      rest := rest[1..];
    }
    rest := Rest(rest);
  }

  /** A call that reaches the send queue: `send(data:to:)`, or a writable event. */
  datatype QueueEvent<A> = Enqueue(d: Datagram<A>) | Flush

  datatype QueueRun<A> = QueueRun(removed: seq<Datagram<A>>, queue: seq<Datagram<A>>, script: seq<SendReply>)

  /** A sequence of calls on an open socket: `send` appends then drains, a writable event drains. */
  function RunQueue<A>(v: Version, queue: seq<Datagram<A>>, events: seq<QueueEvent<A>>, script: seq<SendReply>): QueueRun<A>
    decreases |events|
  {
    if |events| == 0 then QueueRun([], queue, script)
    else
      var q := match events[0] case Enqueue(d) => queue + [d] case Flush => queue;
      var r := Drain(v, q, script);
      var t := RunQueue(v, r.queue, events[1..], r.script);
      QueueRun(r.removed + t.removed, t.queue, t.script)
  }

  /** The datagrams submitted by a list of calls, in order. */
  function Submitted<A>(events: seq<QueueEvent<A>>): (r: seq<Datagram<A>>)
    ensures |r| <= |events|
  {
    if |events| == 0 then []
    else (match events[0] case Enqueue(d) => [d] case Flush => []) + Submitted(events[1..])
  }

  /**
   Over any sequence of calls, the datagrams handed to the socket for good are exactly the
   submitted ones in submission order, followed by what is still queued: none is lost,
   duplicated or reordered.
   */
  lemma {:induction false} RunQueueConserves<A>(v: Version, queue: seq<Datagram<A>>, events: seq<QueueEvent<A>>, script: seq<SendReply>)
    ensures var r := RunQueue(v, queue, events, script);
      queue + Submitted(events) == r.removed + r.queue
    decreases |events|
  {
    if |events| > 0 {
      var q := match events[0] case Enqueue(d) => queue + [d] case Flush => queue;
      var head := match events[0] case Enqueue(d) => [d] case Flush => [];
      assert q == queue + head;
      var r := Drain(v, q, script);
      DrainConserves(v, q, script);
      RunQueueConserves(v, r.queue, events[1..], r.script);
      var t := RunQueue(v, r.queue, events[1..], r.script);
      assert Submitted(events) == head + Submitted(events[1..]);
      Assoc(queue, head, Submitted(events[1..]));
      Assoc(r.removed, r.queue, Submitted(events[1..]));
      Assoc(r.removed, t.removed, t.queue);
    }
  }
}
