/**
 The current `DatagramSocket` (`Sources/DatagramSocket.swift`): buffered, asynchronous UDP on
 the main dispatch queue. Two dispatch sources call `readDatagrams` and `writeQueued` when
 the descriptor they watch is readable or writable; `send(data:to:)` appends to the send
 queue and drains it at once.

 The private initialiser stores a freshly created socket in `self.socket` but attaches both
 dispatch sources to the descriptor of the socket it was passed, which the convenience
 initialisers create and then drop. The model keeps the two descriptors apart, so the
 initialiser as written and the corrected one that watches `self.socket` can be compared.
 */
module DatagramSocket {
  import opened Octets
  import opened Posix
  import opened DatagramQueue
  import opened Io
  import Sockaddr

  /** The address type of every datagram: `sockaddr_in6`. */
  type Address = Sockaddr.SockaddrIn6

  /** The initial value of `maxReadSize`, the buffer size handed to `recvfrom`. */
  const DefaultMaxReadSize: nat := 1500

  /**
   The object's state: `isOpen` (never cleared by any code path), `maxReadSize`, the
   `delegate`, the descriptor of `self.socket`, the descriptor both dispatch sources watch,
   whether those sources are still live (not cancelled), whether `self.socket` has been
   closed, and the send queue.
   */
  datatype DatagramSocket = DatagramSocket(isOpen: bool, maxReadSize: nat, delegate: Option<Listener>,
                                              socketFd: int, watchedFd: int, sourcesLive: bool,
                                              socketClosed: bool, sendQueue: seq<Datagram<Address>>)

  /**
   `init(socket:delegate:)` as written: `self.socket` is a new socket (`created`), while the
   sources watch the descriptor of the argument (`passed`); the `delegate:` argument is
   never stored, so the object starts without a delegate.
   */
  function InitAsWritten(passed: int, created: int, delegate: Option<Listener>): (s: DatagramSocket)
    ensures s.socketFd == created && s.watchedFd == passed
    ensures s.delegate == None
    ensures s.isOpen && s.sourcesLive && !s.socketClosed && s.sendQueue == []
    ensures s.maxReadSize == 1500
  {
    DatagramSocket(true, DefaultMaxReadSize, None, created, passed, true, false, [])
  }

  /**
   The initialiser as evidently intended: the sources watch the socket the object reads and
   writes, and the delegate given is the delegate kept.
   */
  function Init(passed: int, created: int, delegate: Option<Listener>): (s: DatagramSocket)
    ensures s.socketFd == created && s.watchedFd == s.socketFd
    ensures s.delegate == delegate
    ensures s.isOpen && s.sourcesLive && !s.socketClosed && s.sendQueue == []
    ensures s.maxReadSize == 1500
  {
    DatagramSocket(true, DefaultMaxReadSize, delegate, created, created, true, false, [])
  }

  /**
   The three convenience initialisers (`boundTo:` an address, `boundTo:` a port, which binds
   to `sockaddr_in6.any(port:)`, and `connectedTo:`): initialise through `init`, then bind or
   connect, whose outcome is the parameter `setupError`; a failure is rethrown and the object
   is discarded. As written, the object reads and writes `created` while its sources watch
   `passed`, and it has no delegate whatever was passed.
   */
  function Open(init: Initialiser, passed: int, created: int, delegate: Option<Listener>,
                setupError: Option<Thrown>): (o: Outcome<DatagramSocket, Thrown>)
    ensures o.Throws? <==> setupError.Some?
    ensures o.Throws? ==> o.thrown == setupError.value
    ensures o.Returns? ==> var s := o.value;
      && s.isOpen && s.sourcesLive && !s.socketClosed && s.sendQueue == [] && s.maxReadSize == 1500
      && s.socketFd == created
    ensures o.Returns? && init == AsWritten ==> o.value.watchedFd == passed && o.value.delegate == None
    ensures o.Returns? && init == AsWritten && passed != created ==> !Notices(o.value, o.value.socketFd)
    ensures o.Returns? && init == Intended ==> o.value.watchedFd == created && o.value.delegate == delegate
  {
    match setupError
    case Some(e) => Throws(e)
    case None =>
      match init
      case AsWritten => Returns(InitAsWritten(passed, created, delegate))
      case Intended => Returns(Init(passed, created, delegate))
  }

  /**
   `close()`: cancel both sources and close the socket, ignoring any error. `isOpen` is not
   cleared, so a later `send` still drains the queue into the closed descriptor.
   */
  function Close(s: DatagramSocket): (r: DatagramSocket)
    ensures !r.sourcesLive && r.socketClosed
    ensures r.isOpen == s.isOpen && r.sendQueue == s.sendQueue && r.delegate == s.delegate
    ensures r.socketFd == s.socketFd && r.watchedFd == s.watchedFd && r.maxReadSize == s.maxReadSize
  {
    s.(sourcesLive := false, socketClosed := true)
  }

  lemma CloseIdempotent(s: DatagramSocket)
    ensures Close(Close(s)) == Close(s)
  {
  }

  /** Whether readiness of descriptor `fd` reaches the object's handlers. */
  predicate Notices(s: DatagramSocket, fd: int)
  {
    s.sourcesLive && fd == s.watchedFd
  }

  /** The datagrams of the socket never reach the delegate under the initialiser as written. */
  lemma IgnoresItsOwnSocket(passed: int, created: int, delegate: Option<Listener>)
    requires passed != created
    ensures var s: DatagramSocket := InitAsWritten(passed, created, delegate); !Notices(s, s.socketFd)
    ensures var s: DatagramSocket := InitAsWritten(passed, created, delegate); Notices(s, passed)
  {
  }

  /** Under the corrected initialiser, readiness of the object's own socket is noticed. */
  lemma WatchesItsOwnSocket(passed: int, created: int, delegate: Option<Listener>)
    ensures var s: DatagramSocket := Init(passed, created, delegate); Notices(s, s.socketFd)
  {
  }

  /**
   `readDatagrams`: nothing when not open; otherwise the shared receive loop reads every
   waiting datagram, and `delegate?.datagramSocket(…)` hands each to the delegate, if there
   is one. `deliveries` are the delegate's calls: without a delegate the datagrams are read
   and lost.
   */
  method ReadDatagrams(s: DatagramSocket, script: seq<RecvFromReply<Address>>) returns (deliveries: seq<Delivery<Address>>, rest: seq<RecvFromReply<Address>>)
    ensures !s.isOpen ==> deliveries == [] && rest == script
    ensures s.isOpen ==> rest == Receive(script, s.maxReadSize).script
    ensures s.isOpen && s.delegate.Some? ==> ReadOut(deliveries, rest) == Receive(script, s.maxReadSize)
    ensures s.delegate.None? ==> deliveries == []
  {
    if !s.isOpen {
      return [], script;
    }
    var received;
    received, rest := ReadLoop(script, s.maxReadSize);
    deliveries := if s.delegate.Some? then received else [];
  }

  /**
   Under the initialiser as written the object has no delegate, whatever was passed, so
   `ReadDatagrams` reads the waiting datagrams and hands them to no one; the corrected
   initialiser keeps the delegate passed.
   */
  lemma DelegateDropped(passed: int, created: int, d: Listener)
    ensures InitAsWritten(passed, created, Some(d)).delegate.None?
    ensures Init(passed, created, Some(d)).delegate == Some(d)
  {
  }

  /** A readable event on descriptor `fd`: handled only when it is the watched descriptor. */
  method Readable(s: DatagramSocket, fd: int, script: seq<RecvFromReply<Address>>) returns (deliveries: seq<Delivery<Address>>, rest: seq<RecvFromReply<Address>>)
    ensures !Notices(s, fd) || !s.isOpen ==> deliveries == [] && rest == script
    ensures Notices(s, fd) && s.isOpen ==> rest == Receive(script, s.maxReadSize).script
    ensures Notices(s, fd) && s.isOpen && s.delegate.Some? ==> ReadOut(deliveries, rest) == Receive(script, s.maxReadSize)
    ensures s.delegate.None? ==> deliveries == []
  {
    if !Notices(s, fd) {
      return [], script;
    }
    deliveries, rest := ReadDatagrams(s, script);
  }

  datatype WriteOut = WriteOut(s: DatagramSocket, attempts: seq<Attempt<Address>>, script: seq<SendReply>)

  /**
   `writeQueued`: while the queue has a head, send it (`sendto` when it has an address);
   return, keeping it, on `POSIXError(EAGAIN)` or `POSIXError(EWOULDBLOCK)`; otherwise, on
   success or on any other error alike, remove it. The loop computes the reference drain.
   */
  method WriteQueued(s: DatagramSocket, script: seq<SendReply>) returns (o: WriteOut)
    ensures o.s == s.(sendQueue := o.s.sendQueue)
    ensures !s.isOpen ==> o == WriteOut(s, [], script)
    ensures s.isOpen ==> var r := Drain(Current, s.sendQueue, script);
      o.s.sendQueue == r.queue && o.attempts == r.attempts && o.script == r.script
  {
    if !s.isOpen {
      return WriteOut(s, [], script);
    }
    var queue, removed, attempts, rest := s.sendQueue, [], [], script;
    while |queue| > 0
      invariant Drain(Current, s.sendQueue, script)
        == (var t := Drain(Current, queue, rest); Drained(removed + t.removed, t.queue, attempts + t.attempts, t.script))
      decreases |queue|
    {
      var item := queue[0];
      var reply := Reply(Current, rest);
      var t := Drain(Current, queue[1..], Rest(rest));
      Assoc(attempts, [AttemptOf(item)], t.attempts);
      Assoc(removed, [item], t.removed);
      attempts := attempts + [AttemptOf(item)];
      rest := Rest(rest);
      if reply.SendFailed? {
        if Matches(POSIXError(EAGAIN), reply.err) {
          return WriteOut(s.(sendQueue := queue), attempts, rest);
        }
        if Matches(POSIXError(EWOULDBLOCK), reply.err) {
          return WriteOut(s.(sendQueue := queue), attempts, rest);
        }
      }
      removed := removed + [item];
      queue := queue[1..];
    }
    o := WriteOut(s.(sendQueue := queue), attempts, rest);
  }

  /** A writable event on descriptor `fd`: handled only when it is the watched descriptor. */
  method Writable(s: DatagramSocket, fd: int, script: seq<SendReply>) returns (o: WriteOut)
    ensures !Notices(s, fd) ==> o == WriteOut(s, [], script)
    ensures Notices(s, fd) && s.isOpen ==> var r := Drain(Current, s.sendQueue, script);
      o.s == s.(sendQueue := r.queue) && o.attempts == r.attempts && o.script == r.script
  {
    if !Notices(s, fd) {
      return WriteOut(s, [], script);
    }
    o := WriteQueued(s, script);
  }

  /**
   `send(data:to:)`: append the datagram, then drain. The new datagram goes out only after
   every datagram queued before it.
   */
  method Send(s: DatagramSocket, data: Octets.Bytes, addr: Option<Address>, script: seq<SendReply>) returns (o: WriteOut)
    ensures o.s == s.(sendQueue := o.s.sendQueue)
    ensures s.isOpen ==> var r := Drain(Current, s.sendQueue + [Datagram(data, addr)], script);
      o.s.sendQueue == r.queue && o.attempts == r.attempts && o.script == r.script
    ensures s.isOpen ==> s.sendQueue + [Datagram(data, addr)] == Drain(Current, s.sendQueue + [Datagram(data, addr)], script).removed + o.s.sendQueue
    ensures !s.isOpen ==> o.s.sendQueue == s.sendQueue + [Datagram(data, addr)] && o.attempts == []
  {
    var queued := s.(sendQueue := s.sendQueue + [Datagram(data, addr)]);
    o := WriteQueued(queued, script);
    DrainConserves(Current, queued.sendQueue, script);
  }
}
