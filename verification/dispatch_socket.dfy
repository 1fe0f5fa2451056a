/**
 `DispatchSocket`: a socket watched by two dispatch sources (read and write interest),
 with a single outstanding read installed as the `onReadable` handler and a write queue
 drained by the `onWritable` handler.
 */
module DispatchSocket {
  import opened Octets
  import opened Posix
  import opened Io
  import opened TransferQueue

  /** What the private `Source` wrapper does to the underlying dispatch source. */
  datatype SourceAction = Created | Resumed | Suspended | Cancelled

  /**
   The private `Source` wrapper: whether a dispatch source object exists, whether it is
   running, whether an event handler is attached, and everything done to sources so far.
   */
  datatype Source = Source(present: bool, running: bool, handler: bool, log: seq<SourceAction>)

  /** A `Source` as `DispatchSocket.init` leaves it: no source object yet, handler set. */
  function NewSource(): (s: Source)
    ensures SourceInv(s) && !s.running && s.handler
  {
    Source(false, false, true, [])
  }

  /** The resume/suspend actions of a log, in order. */
  function Toggles(log: seq<SourceAction>): (t: seq<SourceAction>)
    ensures |t| <= |log|
  {
    if |log| == 0 then []
    else
      var last := log[|log| - 1];
      Toggles(log[..|log| - 1]) + (if last == Resumed || last == Suspended then [last] else [])
  }

  /** How often `a` occurs in a log. */
  function Count(log: seq<SourceAction>, a: SourceAction): nat
  {
    if |log| == 0 then 0
    else Count(log[..|log| - 1], a) + (if log[|log| - 1] == a then 1 else 0)
  }

  /** Resumes and suspends strictly alternate, starting with a resume. */
  predicate Alternating(t: seq<SourceAction>)
  {
    forall i :: 0 <= i < |t| ==> t[i] == (if i % 2 == 0 then Resumed else Suspended)
  }

  /**
   The `Source` invariant: resume and suspend alternate, it is running exactly after a
   resume, a running source exists, and at most one source object is alive at a time.
   */
  predicate SourceInv(s: Source)
  {
    && Alternating(Toggles(s.log))
    && (s.running <==> |Toggles(s.log)| % 2 == 1)
    && (s.running ==> s.present)
    && Count(s.log, Created) == Count(s.log, Cancelled) + (if s.present then 1 else 0)
  }

  lemma LogAppend(log: seq<SourceAction>, a: SourceAction)
    ensures Toggles(log + [a]) == Toggles(log) + (if a == Resumed || a == Suspended then [a] else [])
    ensures Count(log + [a], Created) == Count(log, Created) + (if a == Created then 1 else 0)
    ensures Count(log + [a], Cancelled) == Count(log, Cancelled) + (if a == Cancelled then 1 else 0)
  {
    assert (log + [a])[..|log|] == log;
  }

  lemma AlternatingExtend(t: seq<SourceAction>, a: SourceAction)
    requires Alternating(t) && a == (if |t| % 2 == 0 then Resumed else Suspended)
    ensures Alternating(t + [a])
  {
  }

  /** Creating a source when there is none keeps the invariant of a stopped source. */
  function Create(s: Source): (r: Source)
    requires SourceInv(s) && !s.running
    ensures SourceInv(r) && !r.running && r.present && r.handler == s.handler
    ensures r.log == s.log + (if s.present then [] else [Created])
    ensures Toggles(r.log) == Toggles(s.log)
  {
    if s.present then s
    else
      LogAppend(s.log, Created);
      s.(present := true, log := s.log + [Created])
  }

  /** `resume()` on an existing, stopped source. */
  function Resume(s: Source): (r: Source)
    requires SourceInv(s) && !s.running && s.present
    ensures SourceInv(r) && r.running && r.present && r.handler == s.handler
    ensures r.log == s.log + [Resumed] && Toggles(r.log) == Toggles(s.log) + [Resumed]
  {
    LogAppend(s.log, Resumed);
    AlternatingExtend(Toggles(s.log), Resumed);
    s.(running := true, log := s.log + [Resumed])
  }

  /** `suspend()` on a running source. */
  function Suspend(s: Source): (r: Source)
    requires SourceInv(s) && s.running
    ensures SourceInv(r) && !r.running && r.present && r.handler == s.handler
    ensures r.log == s.log + [Suspended] && Toggles(r.log) == Toggles(s.log) + [Suspended]
  {
    LogAppend(s.log, Suspended);
    AlternatingExtend(Toggles(s.log), Suspended);
    s.(running := false, log := s.log + [Suspended])
  }

  /**
   The `running` setter. Turning it on creates the source if there is none (attaching the
   handler) and resumes it; turning it off suspends it; assigning the current value does
   nothing.
   */
  function SetRunning(s: Source, v: bool): (r: Source)
    requires SourceInv(s)
    ensures SourceInv(r) && r.running == v && r.handler == s.handler
    ensures s.running == v ==> r == s
    ensures !s.running && v ==> r.log == s.log + (if s.present then [] else [Created]) + [Resumed] && r.present
    ensures s.running && !v ==> r.log == s.log + [Suspended] && r.present == s.present
    ensures IsPrefix(Toggles(s.log), Toggles(r.log))
  {
    if !s.running && v then
      var r := Resume(Create(s));
      PrefixExtend(Toggles(s.log), Toggles(s.log), [Resumed]);
      r
    else if s.running && !v then
      var r := Suspend(s);
      PrefixExtend(Toggles(s.log), Toggles(s.log), [Suspended]);
      r
    else s
  }

  /**
   `cancel()`: stop running, drop the event handler, forget the source and cancel it if
   there was one.
   */
  function Cancel(s: Source): (r: Source)
    requires SourceInv(s)
    ensures SourceInv(r) && !r.running && !r.handler && !r.present
    ensures r.log == SetRunning(s, false).log + (if s.present then [Cancelled] else [])
    ensures IsPrefix(Toggles(s.log), Toggles(r.log))
  {
    var stopped := SetRunning(s, false);
    LogAppend(stopped.log, Cancelled);
    if stopped.present then
      PrefixExtend(Toggles(s.log), Toggles(stopped.log), []);
      assert Toggles(stopped.log) + [] == Toggles(stopped.log);
      Source(false, false, false, stopped.log + [Cancelled])
    else Source(false, false, false, stopped.log)
  }

  datatype SourceOp = Run(on: bool) | CancelOp

  /**
   Any sequence of `running` assignments and cancels keeps the source invariant: resume
   and suspend alternate across the whole history, and a new source object is created only
   after the previous one has been cancelled.
   */
  function ApplySourceOps(s: Source, ops: seq<SourceOp>): (r: Source)
    requires SourceInv(s)
    ensures SourceInv(r)
    ensures IsPrefix(Toggles(s.log), Toggles(r.log))
    decreases |ops|
  {
    if |ops| == 0 then s
    else
      var next := match ops[0] case Run(on) => SetRunning(s, on) case CancelOp => Cancel(s);
      var r := ApplySourceOps(next, ops[1..]);
      PrefixTransitive(Toggles(s.log), Toggles(next.log), Toggles(r.log));
      r
  }

  /** The single outstanding read, or the accept loop installed by `listen(handler:)`. */
  datatype ReadHandler = Reading(item: ReadItem) | Accepting

  datatype Channel = Channel(
    kind: SocketType,
    isOpen: bool,
    rs: Source,
    ws: Source,
    onReadable: Option<ReadHandler>,
    onWritable: bool,
    writeQueue: seq<Bytes>,
    socketClosed: bool)

  /** `init(socket:)`: open, both sources not yet created, no handlers. */
  function Init(kind: SocketType): (ch: Channel)
    ensures Valid(ch) && ch.isOpen && ch.onReadable == None && !ch.onWritable
  {
    Channel(kind, true, NewSource(), NewSource(), None, false, [], false)
  }

  /**
   Between calls: both sources keep their invariant, each runs exactly when the channel is
   open and its handler is set, an outstanding read is still below its threshold, and a
   closed channel has no handlers, no queue, no sources and a closed descriptor.
   */
  predicate Valid(ch: Channel)
  {
    && SourceInv(ch.rs) && SourceInv(ch.ws)
    && ch.rs.running == (ch.isOpen && ch.onReadable.Some?)
    && ch.ws.running == (ch.isOpen && ch.onWritable)
    && (ch.onReadable.Some? && ch.onReadable.value.Reading? ==> Pending(ch.onReadable.value.item))
    && (ch.isOpen <==> !ch.socketClosed)
    && (!ch.isOpen ==> && ch.onReadable == None && !ch.onWritable && ch.writeQueue == []
                       && !ch.rs.present && !ch.ws.present && !ch.rs.handler && !ch.ws.handler)
  }

  /** The `onReadable` setter: its `didSet` runs the read source iff open and a handler is set. */
  function SetOnReadable(ch: Channel, h: Option<ReadHandler>): (r: Channel)
    requires SourceInv(ch.rs)
    ensures r.rs.running == (ch.isOpen && h.Some?) && SourceInv(r.rs)
    ensures r == ch.(onReadable := h, rs := r.rs)
  {
    ch.(onReadable := h, rs := SetRunning(ch.rs, ch.isOpen && h.Some?))
  }

  /** The `onWritable` setter, likewise for the write source. */
  function SetOnWritable(ch: Channel, on: bool): (r: Channel)
    requires SourceInv(ch.ws)
    ensures r.ws.running == (ch.isOpen && on) && SourceInv(r.ws)
    ensures r == ch.(onWritable := on, ws := r.ws)
  {
    ch.(onWritable := on, ws := SetRunning(ch.ws, ch.isOpen && on))
  }

  /**
   `close()`: the first call marks the channel closed, clears both handlers and the write
   queue, cancels both sources and closes the descriptor; later calls do nothing.
   */
  function Close(ch: Channel): (r: Channel)
    requires Valid(ch)
    ensures Valid(r) && !r.isOpen && r.socketClosed && r.kind == ch.kind
    ensures r.onReadable == None && !r.onWritable && r.writeQueue == []
    ensures !r.rs.running && !r.ws.running && !r.rs.present && !r.ws.present
    ensures !ch.isOpen ==> r == ch
  {
    if !ch.isOpen then ch
    else
      var closing := ch.(isOpen := false);
      var noReader := SetOnReadable(closing, None);
      var noWriter := SetOnWritable(noReader, false);
      noWriter.(writeQueue := [], rs := Cancel(noWriter.rs), ws := Cancel(noWriter.ws), socketClosed := true)
  }

  lemma CloseIdempotent(ch: Channel)
    requires Valid(ch)
    ensures Close(Close(ch)) == Close(ch)
  {
  }

  /**
   `read(min:max:completion:)`: installs the read handler on an open channel with no
   readable handler; on a closed channel, or while another read is pending, it does nothing,
   so at most one read is ever outstanding.
   */
  function Read(ch: Channel, min: nat, max: nat, tag: nat): (r: Channel)
    requires Valid(ch) && 0 < min <= max
    ensures Valid(r)
    ensures !ch.isOpen || ch.onReadable.Some? ==> r == ch
    ensures ch.isOpen && ch.onReadable == None ==>
              r.onReadable == Some(Reading(ReadItem([], min, max, tag))) && r.rs.running
    ensures r.writeQueue == ch.writeQueue && r.isOpen == ch.isOpen
  {
    if !ch.isOpen || ch.onReadable.Some? then ch
    else SetOnReadable(ch, Some(Reading(NewItem(min, max, tag))))
  }

  /** `read(_ count:)`. */
  function ReadExact(ch: Channel, count: nat, tag: nat): (r: Channel)
    requires Valid(ch) && 0 < count
    ensures ch.isOpen && ch.onReadable == None ==> r.onReadable == Some(Reading(ReadItem([], count, count, tag)))
    ensures !ch.isOpen || ch.onReadable.Some? ==> r == ch
  {
    Read(ch, count, count, tag)
  }

  /** `read(max:)`. */
  function ReadUpTo(ch: Channel, max: nat, tag: nat): (r: Channel)
    requires Valid(ch) && 0 < max
    ensures ch.isOpen && ch.onReadable == None ==> r.onReadable == Some(Reading(ReadItem([], 1, max, tag)))
    ensures !ch.isOpen || ch.onReadable.Some? ==> r == ch
  {
    Read(ch, 1, max, tag)
  }

  /**
   What one readable event produced: at most one read completion, the bytes the read
   handler received, or accepted sockets.
   */
  datatype Readout = Readout(ch: Channel, completed: seq<ReadItem>, received: Bytes, accepted: seq<nat>, rest: seq<RecvReply>)

  /** The channel has a read (not an accept loop) outstanding. */
  predicate IsReading(ch: Channel)
  {
    ch.onReadable.Some? && ch.onReadable.value.Reading?
  }

  /**
   A readable event with `available` bytes pending runs the installed handler. The read
   handler ignores `available == 0`, asks for `max - buffered` bytes, and once `min` is
   reached uninstalls itself and completes; a would-block is absorbed and any other error
   closes. The accept handler accepts one connection when the accept succeeds.
   */
  function Readable(ch: Channel, available: nat, script: seq<RecvReply>, accept: Option<nat>): (o: Readout)
    requires Valid(ch)
    ensures Valid(o.ch) && o.ch.kind == ch.kind
    ensures |o.completed| <= 1 && AllSatisfied(o.completed)
    ensures |o.completed| == 1 ==> && IsReading(ch)
                                   && o.completed[0].tag == ch.onReadable.value.item.tag
                                   && o.completed[0].buffer == ch.onReadable.value.item.buffer + o.received
                                   && o.ch.onReadable == None && !o.ch.rs.running
    ensures IsReading(ch) && o.ch.onReadable.Some? ==>
              && IsReading(o.ch)
              && o.ch.onReadable.value.item.tag == ch.onReadable.value.item.tag
              && o.ch.onReadable.value.item.buffer == ch.onReadable.value.item.buffer + o.received
    ensures o.received != [] ==> && IsReading(ch) && 0 < |script| && script[0].Received?
                                 && IsPrefix(o.received, script[0].bytes)
                                 && |o.received| <= ch.onReadable.value.item.max - |ch.onReadable.value.item.buffer|
    ensures IsReading(ch) ==> (o.ch.isOpen <==> !(available > 0 && RecvFailsHard(script, 0)))
    ensures IsReading(ch) && available > 0 ==>
              && o.rest == Rest(script)
              && o.received == (if |script| > 0 && script[0].Received?
                                then Take(script[0].bytes, ch.onReadable.value.item.max - |ch.onReadable.value.item.buffer|)
                                else [])
    ensures IsReading(ch) ==>
              (|o.completed| == 1 <==> available > 0 && ch.onReadable.value.item.min <= |ch.onReadable.value.item.buffer| + |o.received|)
    ensures !IsReading(ch) || available == 0 ==> o.rest == script
    ensures !IsReading(ch) ==> o.ch == ch && o.completed == [] && o.received == []
    ensures available == 0 ==> o.ch == ch
    ensures o.ch.isOpen ==> o.ch.writeQueue == ch.writeQueue && o.ch.onWritable == ch.onWritable
  {
    match ch.onReadable
    case None => Readout(ch, [], [], [], script)
    case Some(Accepting) =>
      var accepted := if ch.isOpen && accept.Some? then [accept.value] else [];
      Readout(ch, [], [], accepted, script)
    case Some(Reading(item)) => HandleRead(ch, item, available, script)
  }

  /**
   The closure `read(min:max:completion:)` installs, run with `available` bytes pending:
   nothing for zero; otherwise one `recv` of `max - buffered` bytes. Received bytes are
   appended, and a request that reaches `min` uninstalls the handler and completes; an
   empty receive and a would-block change nothing, and any other error closes.
   */
  function HandleRead(ch: Channel, item: ReadItem, available: nat, script: seq<RecvReply>): (o: Readout)
    requires Valid(ch) && ch.onReadable == Some(Reading(item))
    ensures Valid(o.ch) && o.ch.kind == ch.kind && o.accepted == []
    ensures |o.completed| <= 1 && AllSatisfied(o.completed)
    ensures |o.completed| == 1 ==> && o.completed[0].tag == item.tag
                                   && o.completed[0].buffer == item.buffer + o.received
                                   && o.ch.onReadable == None && !o.ch.rs.running
    ensures o.ch.onReadable.Some? ==> o.ch.onReadable == Some(Reading(item.(buffer := item.buffer + o.received)))
    ensures o.received != [] ==> && 0 < |script| && script[0].Received?
                                 && IsPrefix(o.received, script[0].bytes)
                                 && |o.received| <= item.max - |item.buffer|
    ensures o.ch.isOpen <==> !(available > 0 && RecvFailsHard(script, 0))
    ensures available == 0 ==> o.ch == ch && o.rest == script && o.received == []
    ensures available > 0 ==>
              && o.rest == Rest(script)
              && o.received == (if |script| > 0 && script[0].Received?
                                then Take(script[0].bytes, item.max - |item.buffer|) else [])
    ensures |o.completed| == 1 <==> available > 0 && item.min <= |item.buffer| + |o.received|
    ensures o.ch.isOpen ==> o.ch.writeQueue == ch.writeQueue && o.ch.onWritable == ch.onWritable
  {
    assert item.(buffer := item.buffer + []) == item;
    if available == 0 then Readout(ch, [], [], [], script)
    else
      match Recv(script, item.max - |item.buffer|)
      case RecvFailed(e) =>
        Readout(if IsWouldBlock(e) then ch else Close(ch), [], [], [], Rest(script))
      case Received(data) =>
        if |data| == 0 then Readout(ch, [], [], [], Rest(script))
        else
          var filled := item.(buffer := item.buffer + data);
          if |filled.buffer| >= filled.min then
            Readout(SetOnReadable(ch, None), [filled], data, [], Rest(script))
          else
            Readout(ch.(onReadable := Some(Reading(filled))), [], data, [], Rest(script))
  }

  /**
   `write(_:)`: on an open channel, queue the payload at the tail and (re)install the
   writable handler; on a closed one, nothing.
   */
  function Write(ch: Channel, data: Bytes): (r: Channel)
    requires Valid(ch)
    ensures Valid(r)
    ensures !ch.isOpen ==> r == ch
    ensures ch.isOpen ==> r.writeQueue == ch.writeQueue + [data] && r.onWritable && r.ws.running
    ensures r.onReadable == ch.onReadable && r.isOpen == ch.isOpen
  {
    if !ch.isOpen then ch
    else SetOnWritable(ch.(writeQueue := ch.writeQueue + [data]), true)
  }

  datatype Writeout = Writeout(ch: Channel, sends: seq<Bytes>, rest: seq<SendReply>)

  /**
   A writable event runs the write handler: the shared write loop, with a would-block
   absorbed and any other error closing. The handler stays installed when the queue drains,
   so the write source keeps running.
   */
  function Writable(ch: Channel, script: seq<SendReply>): (o: Writeout)
    requires Valid(ch)
    ensures Valid(o.ch) && o.ch.kind == ch.kind
    ensures !ch.onWritable ==> o.ch == ch && o.sends == []
    ensures o.ch.isOpen ==> o.ch.onWritable == ch.onWritable && o.ch.onReadable == ch.onReadable
    ensures o.ch.isOpen && ch.kind == Stream ==>
              Flatten(o.sends) + Flatten(o.ch.writeQueue) == Flatten(ch.writeQueue)
    ensures ch.kind == Datagram ==>
              forall i :: 0 <= i < |o.sends| ==> i < |ch.writeQueue| && IsPrefix(o.sends[i], ch.writeQueue[i])
    ensures o.ch.isOpen && ch.kind == Datagram ==>
              |o.sends| <= |ch.writeQueue| && o.ch.writeQueue == ch.writeQueue[|o.sends|..]
    ensures ch.onWritable ==> (o.ch.isOpen <==> !PumpWrites(ch.kind, ch.writeQueue, script).fatal)
    ensures ch.onWritable ==>
              && |o.sends| <= |ch.writeQueue|
              && SendsAnswered(ch.kind, ch.writeQueue, script,
                               WritePump(if o.ch.isOpen then o.ch.writeQueue else ch.writeQueue[|o.sends|..],
                                         o.sends, o.rest, !o.ch.isOpen))
  {
    if !ch.onWritable then Writeout(ch, [], script)
    else
      var p := PumpWrites(ch.kind, ch.writeQueue, script);
      if p.fatal then Writeout(Close(ch.(writeQueue := p.queue)), p.sends, p.rest)
      else Writeout(ch.(writeQueue := p.queue), p.sends, p.rest)
  }

  /** After a writable event drains an open channel's queue, the write source is still running. */
  lemma DrainedWriterKeepsRunning(ch: Channel, script: seq<SendReply>)
    requires Valid(ch) && ch.onWritable
    requires var o := Writable(ch, script); o.ch.isOpen && o.ch.writeQueue == []
    ensures Writable(ch, script).ch.ws.running
  {
  }
}
