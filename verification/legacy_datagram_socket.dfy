/**
 The earlier `DatagramSocket` (`SwiftySockets/DatagramSocket.swift`). It differs from the
 current one in four ways: its handlers and `send` run on a private serial queue, received
 datagrams are posted to the main queue (in order) instead of being delivered inline, it
 records `remoteAddress` for a connected socket, and its `Socket6` throws an `NSError` in
 the POSIX domain, so `writeQueued` recognises would-block by the error's code. Its dispatch
 sources watch the socket it uses.
 */
module LegacyDatagramSocket {
  import opened Octets
  import opened Posix
  import opened DatagramQueue
  import opened Io

  const DefaultMaxReadSize: nat := 1500

  /**
   The object's state: `isOpen` (never cleared), `maxReadSize`, the `delegate`,
   `remoteAddress`, whether the dispatch sources are live, whether the socket has been
   closed, and the send queue.
   */
  datatype DatagramSocket<A> = DatagramSocket(isOpen: bool, maxReadSize: nat, delegate: Option<Listener>,
                                              remoteAddress: Option<A>, sourcesLive: bool, socketClosed: bool,
                                              sendQueue: seq<Datagram<A>>)

  /** What the convenience initialisers do after creating the object: bind, or connect. */
  datatype Setup<A> = BindTo(address: A) | BindToPort(port: int) | ConnectTo(address: A)

  /**
   `init(boundTo:)`, `init(boundTo port:)` and `init(connectedTo:)`: the bind or connect
   outcome is `setupError`; a failure is rethrown; only a successful connect sets
   `remoteAddress`. The private initialiser as written drops its `delegate:` argument, as in
   the current version; the corrected one keeps it.
   */
  function Open<A>(init: Initialiser, setup: Setup<A>, delegate: Option<Listener>,
                   setupError: Option<Thrown>): (o: Outcome<DatagramSocket<A>, Thrown>)
    ensures o.Throws? <==> setupError.Some?
    ensures o.Throws? ==> o.thrown == setupError.value
    ensures o.Returns? ==> o.value.isOpen && o.value.sourcesLive && !o.value.socketClosed
    ensures o.Returns? ==> o.value.sendQueue == [] && o.value.maxReadSize == 1500
    ensures o.Returns? ==> (o.value.remoteAddress.Some? <==> setup.ConnectTo?)
    ensures o.Returns? && setup.ConnectTo? ==> o.value.remoteAddress.value == setup.address
    ensures o.Returns? && init == AsWritten ==> o.value.delegate == None
    ensures o.Returns? && init == Intended ==> o.value.delegate == delegate
  {
    match setupError
    case Some(e) => Throws(e)
    case None =>
      var remote := match setup case ConnectTo(a) => Some(a) case _ => None;
      var kept := match init case AsWritten => None case Intended => delegate;
      Returns(DatagramSocket(true, DefaultMaxReadSize, kept, remote, true, false, []))
  }

  /** `close()`: cancel the sources and close the socket; `isOpen` stays as it was. */
  function Close<A>(s: DatagramSocket<A>): (r: DatagramSocket<A>)
    ensures !r.sourcesLive && r.socketClosed
    ensures r.isOpen == s.isOpen && r.sendQueue == s.sendQueue && r.remoteAddress == s.remoteAddress
    ensures r.delegate == s.delegate
  {
    s.(sourcesLive := false, socketClosed := true)
  }

  /**
   A readable event: `readDatagrams`, whose deliveries are posted to the main queue, which
   runs them in the order they were posted. Each posted block calls whatever `delegate` is
   set when it runs, so `posted` are the blocks, not calls already made.
   */
  method Readable<A>(s: DatagramSocket<A>, script: seq<RecvFromReply<A>>) returns (posted: seq<Delivery<A>>, rest: seq<RecvFromReply<A>>)
    ensures !(s.sourcesLive && s.isOpen) ==> posted == [] && rest == script
    ensures s.sourcesLive && s.isOpen ==> ReadOut(posted, rest) == Receive(script, s.maxReadSize)
  {
    if !s.sourcesLive || !s.isOpen {
      return [], script;
    }
    posted, rest := ReadLoop(script, s.maxReadSize);
  }

  datatype WriteOut<A> = WriteOut(s: DatagramSocket<A>, attempts: seq<Attempt<A>>, script: seq<SendReply>)

  /**
   `writeQueued`: send the head; when the call throws and the error's code, as an `Int32`, is
   EWOULDBLOCK or EAGAIN, return and keep it; otherwise remove it and go on.
   */
  method WriteQueued<A>(s: DatagramSocket<A>, script: seq<SendReply>) returns (o: WriteOut<A>)
    ensures o.s == s.(sendQueue := o.s.sendQueue)
    ensures !s.isOpen ==> o == WriteOut(s, [], script)
    ensures s.isOpen ==> var r := Drain(Legacy, s.sendQueue, script);
      o.s.sendQueue == r.queue && o.attempts == r.attempts && o.script == r.script
  {
    if !s.isOpen {
      return WriteOut(s, [], script);
    }
    var queue, removed, attempts, rest := s.sendQueue, [], [], script;
    while |queue| > 0
      invariant Drain(Legacy, s.sendQueue, script)
        == (var t := Drain(Legacy, queue, rest); Drained(removed + t.removed, t.queue, attempts + t.attempts, t.script))
      decreases |queue|
    {
      var item := queue[0];
      var reply := Reply(Legacy, rest);
      var t := Drain(Legacy, queue[1..], Rest(rest));
      Assoc(attempts, [AttemptOf(item)], t.attempts);
      Assoc(removed, [item], t.removed);
      attempts := attempts + [AttemptOf(item)];
      rest := Rest(rest);
      if reply.SendFailed? && reply.err.Other? {
        var code := reply.err.code;
        if code in [EWOULDBLOCK as int, EAGAIN as int] {
          return WriteOut(s.(sendQueue := queue), attempts, rest);
        }
      }
      removed := removed + [item];
      queue := queue[1..];
    }
    o := WriteOut(s.(sendQueue := queue), attempts, rest);
  }

  /** A writable event: `writeQueued`, while the sources are live. */
  method Writable<A>(s: DatagramSocket<A>, script: seq<SendReply>) returns (o: WriteOut<A>)
    ensures !s.sourcesLive ==> o == WriteOut(s, [], script)
    ensures s.sourcesLive && s.isOpen ==> var r := Drain(Legacy, s.sendQueue, script);
      o.s == s.(sendQueue := r.queue) && o.attempts == r.attempts && o.script == r.script
  {
    if !s.sourcesLive {
      return WriteOut(s, [], script);
    }
    o := WriteQueued(s, script);
  }

  /**
   `send(data:to:)`: a block on the serial queue that appends the datagram and drains. Blocks
   run one at a time in submission order, so a call is modelled at the moment its block runs.
   */
  method Send<A>(s: DatagramSocket<A>, data: Octets.Bytes, addr: Option<A>, script: seq<SendReply>) returns (o: WriteOut<A>)
    ensures o.s == s.(sendQueue := o.s.sendQueue)
    ensures s.isOpen ==> var r := Drain(Legacy, s.sendQueue + [Datagram(data, addr)], script);
      o.s.sendQueue == r.queue && o.attempts == r.attempts && o.script == r.script
    ensures s.isOpen ==> s.sendQueue + [Datagram(data, addr)] == Drain(Legacy, s.sendQueue + [Datagram(data, addr)], script).removed + o.s.sendQueue
    ensures !s.isOpen ==> o.s.sendQueue == s.sendQueue + [Datagram(data, addr)] && o.attempts == []
  {
    var queued := s.(sendQueue := s.sendQueue + [Datagram(data, addr)]);
    o := WriteQueued(queued, script);
    DrainConserves(Legacy, queued.sendQueue, script);
  }

  /**
   The two versions drain alike: when each reports the same `errno` values in its own way
   (a `POSIXError` in the current one, an `NSError` code in this one), they remove the same
   datagrams, keep the same queue and make the same calls.
   */
  lemma {:induction false} DrainsAgree<A>(queue: seq<Datagram<A>>, current: seq<SendReply>, legacy: seq<SendReply>)
    requires |current| == |legacy|
    requires forall i :: 0 <= i < |current| ==> Translates(current[i], legacy[i])
    ensures Drain(Current, queue, current).removed == Drain(Legacy, queue, legacy).removed
    ensures Drain(Current, queue, current).queue == Drain(Legacy, queue, legacy).queue
    ensures Drain(Current, queue, current).attempts == Drain(Legacy, queue, legacy).attempts
    decreases |queue|
  {
    if |queue| > 0 && |current| > 0 {
      assert Translates(current[0], legacy[0]);
      if current[0].SendFailed? {
        WouldBlockAgrees(current[0].err.posix.code);
      }
      forall i | 0 <= i < |current| - 1
        ensures Translates(current[1..][i], legacy[1..][i])
      {
        assert current[1..][i] == current[i + 1] && legacy[1..][i] == legacy[i + 1];
      }
      DrainsAgree(queue[1..], current[1..], legacy[1..]);
    }
  }

  /** The same answer in the two error conventions: equal counts, or the same `errno`. */
  predicate Translates(current: SendReply, legacy: SendReply)
  {
    match current
    case Sent(n) => legacy == Sent(n)
    case SendFailed(e) => e.Posix? && legacy == SendFailed(Other(e.posix.code as int))
  }
}
