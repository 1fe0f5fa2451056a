/**
 `SecureTransportSocket`: a TLS session layered over the readiness loop. The TLS engine
 (`SSLHandshake`, `SSLRead`, `SSLWrite`) is an oracle; while it runs it calls back into the
 socket through the I/O functions, which do non-blocking `recv`/`send` on the raw socket and
 record would-block in `readBlocked`/`writeBlocked`, and those two flags decide which raw
 readiness notifications are armed. Plaintext read and write queues are served only once
 the handshake has completed.
 */
module SecureTransport {
  import opened Octets
  import opened Posix
  import opened Io
  import opened TransferQueue
  import opened SecureSocket

  /** Security framework status codes (`OSStatus` is a 32-bit signed integer). */
  newtype OSStatus = x: int | -0x8000_0000 <= x < 0x8000_0000

  const NoErr: OSStatus := 0
  const ErrSSLWouldBlock: OSStatus := -9803
  const ErrSSLUnknownRootCert: OSStatus := -9812
  const ErrSSLNoRootCert: OSStatus := -9813
  const ErrSSLCertExpired: OSStatus := -9814
  const ErrSSLPeerAuthCompleted: OSStatus := -9841

  /** The failure table of `checkHandshake`: two root-certificate errors, one expiry, else unknown. */
  function Classify(status: OSStatus): (e: SecureSocketError)
  {
    if status == ErrSSLUnknownRootCert || status == ErrSSLNoRootCert then InvalidCert
    else if status == ErrSSLCertExpired then ExpiredCert
    else Unknown
  }

  /** Which statuses a delegate sees as which failure reason, in both directions. */
  lemma ClassifyTable(status: OSStatus)
    ensures Classify(status) == InvalidCert <==> status in {-9812, -9813}
    ensures Classify(status) == ExpiredCert <==> status == -9814
    ensures Classify(status) == Unknown <==> status !in {-9812, -9813, -9814}
  {
  }

  datatype TlsChannel = TlsChannel(
    isOpen: bool,
    hasContext: bool,
    handshakeComplete: bool,
    readBlocked: bool,
    writeBlocked: bool,
    readArmed: bool,
    writeArmed: bool,
    readQueue: seq<ReadItem>,
    writeQueue: seq<Bytes>)

  /** A fresh session: open, with a context, nothing blocked, no notification armed. */
  function Init(): (ch: TlsChannel)
    ensures Valid(ch) && ch.isOpen && !ch.handshakeComplete && !ch.readArmed && !ch.writeArmed
  {
    TlsChannel(true, true, false, false, false, false, false, [], [])
  }

  /** `updateDelegates`: each raw notification is armed exactly while open and blocked that way. */
  predicate DelegatesAgree(ch: TlsChannel)
  {
    && ch.readArmed == (ch.isOpen && ch.readBlocked)
    && ch.writeArmed == (ch.isOpen && ch.writeBlocked)
  }

  predicate Valid(ch: TlsChannel)
  {
    && DelegatesAgree(ch)
    && WellQueued(ch.readQueue)
    && (ch.isOpen <==> ch.hasContext)
    && (!ch.isOpen ==> ch.readQueue == [] && ch.writeQueue == [])
  }

  function UpdateDelegates(ch: TlsChannel): (r: TlsChannel)
    ensures DelegatesAgree(r)
    ensures r == ch.(readArmed := r.readArmed, writeArmed := r.writeArmed)
  {
    ch.(readArmed := ch.isOpen && ch.readBlocked, writeArmed := ch.isOpen && ch.writeBlocked)
  }

  /** The `readBlocked` observer: the notifications are recomputed only when the flag changes. */
  function SetReadBlocked(ch: TlsChannel, b: bool): (r: TlsChannel)
    ensures DelegatesAgree(ch) ==> DelegatesAgree(r)
    ensures r.readBlocked == b
    ensures r == ch.(readBlocked := b, readArmed := r.readArmed, writeArmed := r.writeArmed)
    ensures b == ch.readBlocked ==> r == ch
  {
    if b != ch.readBlocked then UpdateDelegates(ch.(readBlocked := b)) else ch
  }

  /** The `writeBlocked` observer, likewise. */
  function SetWriteBlocked(ch: TlsChannel, b: bool): (r: TlsChannel)
    ensures DelegatesAgree(ch) ==> DelegatesAgree(r)
    ensures r.writeBlocked == b
    ensures r == ch.(writeBlocked := b, readArmed := r.readArmed, writeArmed := r.writeArmed)
    ensures b == ch.writeBlocked ==> r == ch
  {
    if b != ch.writeBlocked then UpdateDelegates(ch.(writeBlocked := b)) else ch
  }

  /**
   `close()`: drop both plaintext queues (no completion runs) and the context, then close
   the underlying channel, which disarms both notifications. No delegate call is made.
   */
  function Close(ch: TlsChannel): (r: TlsChannel)
    requires Valid(ch)
    ensures Valid(r) && !r.isOpen && !r.hasContext
    ensures r.readQueue == [] && r.writeQueue == [] && !r.readArmed && !r.writeArmed
    ensures r.handshakeComplete == ch.handshakeComplete
    ensures r.readBlocked == ch.readBlocked && r.writeBlocked == ch.writeBlocked
  {
    ch.(isOpen := false, hasContext := false, readQueue := [], writeQueue := [],
        readArmed := false, writeArmed := false)
  }

  lemma CloseIdempotent(ch: TlsChannel)
    requires Valid(ch)
    ensures Close(Close(ch)) == Close(ch)
  {
  }

  /** What an I/O function returned to the engine: its status and the count it reported. */
  datatype IoOut = IoOut(ch: TlsChannel, status: OSStatus, count: nat)

  /**
   `handleRead` for an engine request of `count` bytes, given the socket's answer: a full
   read clears `readBlocked` and reports success; anything short sets `readBlocked` and
   reports would-block, and a zero-byte read or a fatal error also closes.
   */
  function HandleRead(ch: TlsChannel, count: nat, reply: RecvReply): (o: IoOut)
    requires Valid(ch)
    requires reply.Received? ==> |reply.bytes| <= count
    ensures Valid(o.ch)
    ensures o.status == NoErr <==> reply.Received? && |reply.bytes| == count
    ensures o.status == NoErr ==> !o.ch.readBlocked && o.ch.isOpen == ch.isOpen
    ensures o.status != NoErr ==> o.status == ErrSSLWouldBlock && o.ch.readBlocked
    ensures o.count == (if reply.Received? then |reply.bytes| else count)
    ensures o.ch.isOpen <==> && ch.isOpen
                             && !(reply.Received? && |reply.bytes| == 0 && count > 0)
                             && !(reply.RecvFailed? && !IsWouldBlock(reply.err))
    ensures o.ch.isOpen ==> o.ch.readQueue == ch.readQueue && o.ch.writeQueue == ch.writeQueue
    ensures o.ch.handshakeComplete == ch.handshakeComplete && o.ch.writeBlocked == ch.writeBlocked
  {
    match reply
    case Received(bytes) =>
      if |bytes| == count then IoOut(SetReadBlocked(ch, false), NoErr, count)
      else
        var after := if |bytes| == 0 then Close(ch) else ch;
        IoOut(SetReadBlocked(after, true), ErrSSLWouldBlock, |bytes|)
    case RecvFailed(e) =>
      var after := if IsWouldBlock(e) then ch else Close(ch);
      IoOut(SetReadBlocked(after, true), ErrSSLWouldBlock, count)
  }

  /**
   `handleWrite` for an engine request of `count` bytes: a full send clears `writeBlocked`
   and reports success; anything short sets `writeBlocked` and reports would-block, and only
   a fatal error closes.
   */
  function HandleWrite(ch: TlsChannel, count: nat, reply: SendReply): (o: IoOut)
    requires Valid(ch)
    requires reply.Sent? ==> reply.count <= count
    ensures Valid(o.ch)
    ensures o.status == NoErr <==> reply.Sent? && reply.count == count
    ensures o.status == NoErr ==> !o.ch.writeBlocked && o.ch.isOpen == ch.isOpen
    ensures o.status != NoErr ==> o.status == ErrSSLWouldBlock && o.ch.writeBlocked
    ensures o.count == (if reply.Sent? then reply.count else count)
    ensures o.ch.isOpen <==> ch.isOpen && !(reply.SendFailed? && !IsWouldBlock(reply.err))
    ensures o.ch.isOpen ==> o.ch.readQueue == ch.readQueue && o.ch.writeQueue == ch.writeQueue
    ensures o.ch.handshakeComplete == ch.handshakeComplete && o.ch.readBlocked == ch.readBlocked
  {
    match reply
    case Sent(k) =>
      if k == count then IoOut(SetWriteBlocked(ch, false), NoErr, count)
      else IoOut(SetWriteBlocked(ch, true), ErrSSLWouldBlock, k)
    case SendFailed(e) =>
      var after := if IsWouldBlock(e) then ch else Close(ch);
      IoOut(SetWriteBlocked(after, true), ErrSSLWouldBlock, count)
  }

  /** An I/O request the engine makes while it runs: read or write that many ciphertext bytes. */
  datatype IoRequest = EngineRead(count: nat) | EngineWrite(count: nat)

  /** Which of the two I/O functions answers a request. */
  datatype Handler = ReadHandler | WriteHandler

  /** The pair of functions given to `SSLSetIOFuncs`: the read function, then the write function. */
  datatype IoFuncs = IoFuncs(read: Handler, write: Handler)

  /** The registration as written: both the read and the write function call `handleWrite`. */
  const IoFuncsAsWritten: IoFuncs := IoFuncs(WriteHandler, WriteHandler)

  /** The registration the two handlers are written for: reads to `handleRead`. */
  const IoFuncsIntended: IoFuncs := IoFuncs(ReadHandler, WriteHandler)

  /** The engine's ciphertext; its contents play no part in the pump, only its length. */
  function Ciphertext(n: nat): (c: Bytes)
    ensures |c| == n
  {
    seq(n, _ => 0)
  }

  /** The three oracles: the engine's replies, and the raw socket's `recv` and `send` answers. */
  datatype Env = Env(engine: seq<EngineReply>, recvs: seq<RecvReply>, sends: seq<SendReply>)

  /**
   One engine call: the I/O requests it makes (in order), its status, the plaintext an
   `SSLRead` produces, and the count an `SSLWrite` reports as accepted.
   */
  datatype EngineReply = EngineReply(io: seq<IoRequest>, status: OSStatus, plaintext: Bytes, written: nat)

  /** The engine's reply once the script is exhausted: no I/O, would-block, nothing moved. */
  const Idle: EngineReply := EngineReply([], ErrSSLWouldBlock, [], 0)

  datatype IoRun = IoRun(ch: TlsChannel, env: Env, statuses: seq<OSStatus>)

  /** One request answered by the function the registration assigns to its direction. */
  function Serve(ch: TlsChannel, funcs: IoFuncs, req: IoRequest, env: Env): (o: IoRun)
    requires Valid(ch)
    ensures Valid(o.ch) && o.env.engine == env.engine && |o.statuses| == 1
    ensures o.ch.isOpen ==> o.ch.readQueue == ch.readQueue && o.ch.writeQueue == ch.writeQueue
    ensures o.ch.isOpen ==> ch.isOpen
    ensures o.ch.handshakeComplete == ch.handshakeComplete
  {
    var h := if req.EngineRead? then funcs.read else funcs.write;
    match h
    case ReadHandler =>
      var out := HandleRead(ch, req.count, Recv(env.recvs, req.count));
      IoRun(out.ch, env.(recvs := Rest(env.recvs)), [out.status])
    case WriteHandler =>
      var out := HandleWrite(ch, req.count, Send(env.sends, Ciphertext(req.count)));
      IoRun(out.ch, env.(sends := Rest(env.sends)), [out.status])
  }

  /** The I/O requests of one engine call, answered in order. */
  function RunIo(ch: TlsChannel, funcs: IoFuncs, io: seq<IoRequest>, env: Env): (o: IoRun)
    requires Valid(ch)
    ensures Valid(o.ch) && o.env.engine == env.engine && |o.statuses| == |io|
    ensures o.ch.isOpen ==> o.ch.readQueue == ch.readQueue && o.ch.writeQueue == ch.writeQueue
    ensures o.ch.isOpen ==> ch.isOpen
    ensures o.ch.handshakeComplete == ch.handshakeComplete
    decreases |io|
  {
    if |io| == 0 then IoRun(ch, env, [])
    else
      var first := Serve(ch, funcs, io[0], env);
      var rest := RunIo(first.ch, funcs, io[1..], first.env);
      IoRun(rest.ch, rest.env, first.statuses + rest.statuses)
  }

  datatype EngineOut = EngineOut(ch: TlsChannel, env: Env, reply: EngineReply)

  /**
   One call into the engine: it makes its I/O requests through the registered I/O functions
   `funcs`, then returns. Every operation above the engine takes the registration as a
   parameter: `IoFuncsAsWritten` is the session as it stands, `IoFuncsIntended` the
   corrected one.
   */
  function EngineCall(ch: TlsChannel, funcs: IoFuncs, env: Env): (o: EngineOut)
    requires Valid(ch)
    ensures Valid(o.ch)
    ensures |env.engine| == 0 ==> o.reply == Idle && o.ch == ch && o.env == env
    ensures |env.engine| > 0 ==> o.reply == env.engine[0] && o.env.engine == env.engine[1..]
    ensures o.ch.isOpen ==> o.ch.readQueue == ch.readQueue && o.ch.writeQueue == ch.writeQueue
    ensures o.ch.isOpen ==> ch.isOpen
    ensures o.ch.handshakeComplete == ch.handshakeComplete
  {
    if |env.engine| == 0 then EngineOut(ch, env, Idle)
    else
      var run := RunIo(ch, funcs, env.engine[0].io, env.(engine := env.engine[1..]));
      EngineOut(run.ch, run.env, env.engine[0])
  }

  datatype Handshake = Handshake(ch: TlsChannel, env: Env, ok: bool, notices: seq<Notice>)

  /**
   `checkHandshake`: false when closed or without a context; true at once when already
   complete; otherwise one `SSLHandshake` step, where success marks the handshake complete
   and notifies the delegate, peer-authentication-completed steps again, would-block waits,
   and any other status notifies the classified failure.
   */
  function CheckHandshake(ch: TlsChannel, funcs: IoFuncs, env: Env): (h: Handshake)
    requires Valid(ch)
    ensures Valid(h.ch)
    ensures !ch.isOpen ==> h == Handshake(ch, env, false, [])
    ensures ch.isOpen && ch.handshakeComplete ==> h == Handshake(ch, env, true, [])
    ensures h.ch.handshakeComplete <==> ch.handshakeComplete || h.ok
    ensures h.ok ==> ch.isOpen
    ensures HandshakeSucceeded in h.notices <==> !ch.handshakeComplete && h.ch.handshakeComplete
    ensures |h.notices| <= 1 && Disconnected !in h.notices
    ensures (exists r :: HandshakeFailed(r) in h.notices) ==> !h.ok
    ensures h.ch.isOpen ==> h.ch.readQueue == ch.readQueue && h.ch.writeQueue == ch.writeQueue
    ensures ch.isOpen && !ch.handshakeComplete && |env.engine| == 0 ==> h == Handshake(ch, env, false, [])
    ensures ch.isOpen && !ch.handshakeComplete ==>
              var call := EngineCall(ch, funcs, env);
              var status := call.reply.status;
              && (status == NoErr ==>
                    h.ok && h.notices == [HandshakeSucceeded] && h.ch == call.ch.(handshakeComplete := true) && h.env == call.env)
              && (status == ErrSSLWouldBlock ==> !h.ok && h.notices == [] && h.ch == call.ch && h.env == call.env)
              && (status == ErrSSLPeerAuthCompleted ==> |env.engine| > 0 && |h.env.engine| < |env.engine|)
              && (status != NoErr && status != ErrSSLWouldBlock && status != ErrSSLPeerAuthCompleted ==>
                    !h.ok && h.notices == [HandshakeFailed(Classify(status))] && h.ch == call.ch && h.env == call.env)
    decreases |env.engine|
  {
    if !ch.isOpen || !ch.hasContext then Handshake(ch, env, false, [])
    else if ch.handshakeComplete then Handshake(ch, env, true, [])
    else
      var call := EngineCall(ch, funcs, env);
      var status := call.reply.status;
      if status == NoErr then
        Handshake(call.ch.(handshakeComplete := true), call.env, true, [HandshakeSucceeded])
      else if status == ErrSSLPeerAuthCompleted then
        CheckHandshake(call.ch, funcs, call.env)
      else if status == ErrSSLWouldBlock then
        Handshake(call.ch, call.env, false, [])
      else
        Handshake(call.ch, call.env, false, [HandshakeFailed(Classify(status))])
  }

  /** A peer-authentication-completed step is followed at once by another handshake step. */
  lemma PeerAuthStepsAgain(ch: TlsChannel, funcs: IoFuncs, env: Env)
    requires Valid(ch) && ch.isOpen && !ch.handshakeComplete
    requires EngineCall(ch, funcs, env).reply.status == ErrSSLPeerAuthCompleted
    ensures var call := EngineCall(ch, funcs, env);
            |env.engine| > 0 && CheckHandshake(ch, funcs, env) == CheckHandshake(call.ch, funcs, call.env)
  {
  }

  datatype ReadRun = ReadRun(ch: TlsChannel, env: Env, completed: seq<ReadItem>, plaintext: Bytes)

  /**
   A request after an `SSLRead` for the room it has left returned `plaintext`; one already
   at its maximum has no room.
   */
  function Feed(it: ReadItem, plaintext: Bytes): (r: ReadItem)
    ensures r.min == it.min && r.max == it.max && r.tag == it.tag
    ensures IsPrefix(it.buffer, r.buffer)
    ensures |it.buffer| <= it.max ==> |r.buffer| <= it.max
  {
    it.(buffer := it.buffer + Take(plaintext, if |it.buffer| <= it.max then it.max - |it.buffer| else 0))
  }

  /** An `SSLRead` answered by `reply` filled request `it` to its minimum, completing it as `done`. */
  predicate Completes(it: ReadItem, reply: EngineReply, done: ReadItem)
  {
    done == Feed(it, reply.plaintext) && it.min <= |done.buffer|
  }

  /** The first `n` `SSLRead` calls of the read pump each completed their request. */
  predicate DecryptedBy(queue: seq<ReadItem>, engine: seq<EngineReply>, done: seq<ReadItem>, n: nat)
  {
    && n <= |queue| && n <= |engine| && n == |done|
    && forall i :: 0 <= i < n ==> Completes(queue[i], engine[i], done[i])
  }

  /**
   Where the read pump ended, seen from the requests it did not complete (`rest`) and the
   engine replies not used for completions (`engine`). It made at most one more call. If
   the session is still open with requests left, that call was made unless the script was
   exhausted; it returned no plaintext, which leaves the queue as it was, or too little,
   which leaves the head filled but below its minimum.
   */
  predicate ReadStop(rest: seq<ReadItem>, engine: seq<EngineReply>, open: bool, left: seq<ReadItem>,
                     unused: seq<EngineReply>)
  {
    && (unused == engine || (engine != [] && unused == engine[1..]))
    && (open && rest == [] ==> unused == engine)
    && (open && rest != [] ==>
          if engine == [] then left == rest
          else
            && unused == engine[1..]
            && var f := Feed(rest[0], engine[0].plaintext);
               if f == rest[0] then left == rest
               else |f.buffer| < rest[0].min && left == [f] + rest[1..])
  }

  /** Where the read pump ended after `n` completions. */
  predicate DecryptStop(queue: seq<ReadItem>, engine: seq<EngineReply>, p: ReadRun, n: nat)
  {
    ReadStop(Skip(queue, n), Skip(engine, n), p.ch.isOpen, p.ch.readQueue, p.env.engine)
  }

  /** The read pump against the engine's replies, one `SSLRead` per call. */
  predicate ReadsDecrypted(queue: seq<ReadItem>, engine: seq<EngineReply>, p: ReadRun)
  {
    DecryptedBy(queue, engine, p.completed, |p.completed|) && DecryptStop(queue, engine, p, |p.completed|)
  }

  /**
   `pumpReads`: while open with a request at the head, ask the engine for `max - buffered`
   plaintext bytes; nothing stops the loop; otherwise the bytes join the head, which is
   popped and completed once it reaches `min` (and the loop goes on) or stays partially
   filled (and the loop stops).
   */
  function PumpReads(ch: TlsChannel, funcs: IoFuncs, env: Env): (p: ReadRun)
    requires Valid(ch)
    ensures Valid(p.ch) && AllSatisfied(p.completed) && SameRequests(p.completed, ch.readQueue)
    ensures p.ch.handshakeComplete == ch.handshakeComplete
    ensures p.ch.isOpen ==> p.ch.writeQueue == ch.writeQueue && ch.isOpen
    ensures IsPrefix(Tags(p.completed), Tags(ch.readQueue))
    ensures p.ch.isOpen ==> Tags(p.completed) + Tags(p.ch.readQueue) == Tags(ch.readQueue)
    ensures p.ch.isOpen ==> Flatten(Buffers(ch.readQueue)) + p.plaintext
                            == Flatten(Buffers(p.completed)) + Flatten(Buffers(p.ch.readQueue))
    ensures !ch.isOpen ==> p.completed == []
    decreases |ch.readQueue|
  {
    if |ch.readQueue| == 0 || !ch.isOpen then ReadRun(ch, env, [], [])
    else
      var queue := ch.readQueue;
      var item := queue[0];
      var call := EngineCall(ch, funcs, env);
      var bytes := Take(call.reply.plaintext, item.max - |item.buffer|);
      if |bytes| == 0 || !call.ch.isOpen then ReadRun(call.ch, call.env, [], [])
      else
        var filled := item.(buffer := item.buffer + bytes);
        if |filled.buffer| >= filled.min then
          var tail := PumpReads(call.ch.(readQueue := queue[1..]), funcs, call.env);
          PoppedSound(ch, call.ch, filled, bytes, tail);
          ReadRun(tail.ch, tail.env, [filled] + tail.completed, bytes + tail.plaintext)
        else
          ReadPartialStep(queue, filled, bytes);
          ReadRun(call.ch.(readQueue := [filled] + queue[1..]), call.env, [], bytes)
  }

  /**
   Every `SSLRead` the read pump makes is answered by the engine's next reply: the heads it
   completes are exactly those that this reply fills to their minimum, and it stops at the
   first reply that returns nothing or too little, or when the engine has no reply left.
   */
  lemma {:induction false} PumpReadsDecrypted(ch: TlsChannel, funcs: IoFuncs, env: Env)
    requires Valid(ch)
    ensures ReadsDecrypted(ch.readQueue, env.engine, PumpReads(ch, funcs, env))
    decreases |ch.readQueue|
  {
    if |ch.readQueue| > 0 && ch.isOpen {
      var item := ch.readQueue[0];
      var call := EngineCall(ch, funcs, env);
      var bytes := Take(call.reply.plaintext, item.max - |item.buffer|);
      if |bytes| == 0 || !call.ch.isOpen {
        StoppedDecrypted(ch, funcs, env);
      } else if item.min <= |item.buffer| + |bytes| {
        PumpReadsDecrypted(call.ch.(readQueue := ch.readQueue[1..]), funcs, call.env);
        CompletedDecrypted(ch, funcs, env);
      } else {
        PartialDecrypted(ch, funcs, env);
      }
    }
  }

  /** The read pump completes its head from the first reply, then pumps the rest. */
  lemma CompletedDecrypted(ch: TlsChannel, funcs: IoFuncs, env: Env)
    requires Valid(ch) && ch.isOpen && |ch.readQueue| > 0
    requires var call := EngineCall(ch, funcs, env);
             var item := ch.readQueue[0];
             var bytes := Take(call.reply.plaintext, item.max - |item.buffer|);
             && call.ch.isOpen && |bytes| > 0 && item.min <= |item.buffer| + |bytes|
             && ReadsDecrypted(ch.readQueue[1..], call.env.engine,
                               PumpReads(call.ch.(readQueue := ch.readQueue[1..]), funcs, call.env))
    ensures ReadsDecrypted(ch.readQueue, env.engine, PumpReads(ch, funcs, env))
  {
    var queue := ch.readQueue;
    var call := EngineCall(ch, funcs, env);
    var p := PumpReads(ch, funcs, env);
    var tail := PumpReads(call.ch.(readQueue := queue[1..]), funcs, call.env);
    assert |env.engine| > 0 && call.reply == env.engine[0] && call.env.engine == env.engine[1..];
    assert p.completed == [Feed(queue[0], env.engine[0].plaintext)] + tail.completed;
    assert p.ch == tail.ch && p.env == tail.env;
    PoppedDecrypted(queue, env.engine, tail, p);
  }

  /** The read pump stops after a reply that fills its head but leaves it below its minimum. */
  lemma PartialDecrypted(ch: TlsChannel, funcs: IoFuncs, env: Env)
    requires Valid(ch) && ch.isOpen && |ch.readQueue| > 0
    requires var call := EngineCall(ch, funcs, env);
             var item := ch.readQueue[0];
             var bytes := Take(call.reply.plaintext, item.max - |item.buffer|);
             && call.ch.isOpen && |bytes| > 0 && |item.buffer| + |bytes| < item.min
    ensures ReadsDecrypted(ch.readQueue, env.engine, PumpReads(ch, funcs, env))
  {
  }

  /** The read pump stops at its first call when the engine returns no plaintext or the session closed. */
  lemma StoppedDecrypted(ch: TlsChannel, funcs: IoFuncs, env: Env)
    requires Valid(ch) && ch.isOpen && |ch.readQueue| > 0
    requires var call := EngineCall(ch, funcs, env);
             |Take(call.reply.plaintext, ch.readQueue[0].max - |ch.readQueue[0].buffer|)| == 0 || !call.ch.isOpen
    ensures var call := EngineCall(ch, funcs, env);
            ReadsDecrypted(ch.readQueue, env.engine, ReadRun(call.ch, call.env, [], []))
  {
    var call := EngineCall(ch, funcs, env);
    var q := ch.readQueue;
    if |env.engine| > 0 && call.ch.isOpen {
      assert Feed(q[0], env.engine[0].plaintext) == q[0];
    }
  }

  /** A head completed from the first engine reply, then the pump of the rest. */
  lemma PoppedDecrypted(queue: seq<ReadItem>, engine: seq<EngineReply>, tail: ReadRun, p: ReadRun)
    requires |queue| > 0 && |engine| > 0
    requires queue[0].min <= |Feed(queue[0], engine[0].plaintext).buffer|
    requires ReadsDecrypted(queue[1..], engine[1..], tail)
    requires p.ch == tail.ch && p.env == tail.env
    requires p.completed == [Feed(queue[0], engine[0].plaintext)] + tail.completed
    ensures ReadsDecrypted(queue, engine, p)
  {
    DecryptedCons(queue, engine, tail.completed);
    DecryptStopCons(queue, engine, tail, |tail.completed|);
  }

  lemma DecryptedCons(queue: seq<ReadItem>, engine: seq<EngineReply>, done: seq<ReadItem>)
    requires |queue| > 0 && |engine| > 0
    requires queue[0].min <= |Feed(queue[0], engine[0].plaintext).buffer|
    requires DecryptedBy(queue[1..], engine[1..], done, |done|)
    ensures DecryptedBy(queue, engine, [Feed(queue[0], engine[0].plaintext)] + done, |done| + 1)
  {
    var all := [Feed(queue[0], engine[0].plaintext)] + done;
    assert Completes(queue[0], engine[0], all[0]);
    forall i | 0 < i < |all|
      ensures Completes(queue[i], engine[i], all[i])
    {
      var k := i - 1;
      assert Completes(queue[1..][k], engine[1..][k], done[k]);
      assert queue[1..][k] == queue[i] && engine[1..][k] == engine[i] && all[i] == done[k];
    }
  }

  lemma DecryptStopCons(queue: seq<ReadItem>, engine: seq<EngineReply>, tail: ReadRun, m: nat)
    requires |queue| > 0 && |engine| > 0 && m <= |queue| - 1 && m <= |engine| - 1
    requires DecryptStop(queue[1..], engine[1..], tail, m)
    ensures DecryptStop(queue, engine, tail, m + 1)
  {
    assert Skip(queue, m + 1) == Skip(queue[1..], m) && Skip(engine, m + 1) == Skip(engine[1..], m);
  }

  /** `PumpReads`' contract for a completed head followed by the pump of the rest. */
  lemma PoppedSound(ch: TlsChannel, c: TlsChannel, filled: ReadItem, bytes: Bytes, tail: ReadRun)
    requires Valid(ch) && ch.isOpen && |ch.readQueue| > 0
    requires Valid(c) && c.isOpen && c.readQueue == ch.readQueue && c.writeQueue == ch.writeQueue
    requires c.handshakeComplete == ch.handshakeComplete
    requires filled == ch.readQueue[0].(buffer := ch.readQueue[0].buffer + bytes)
    requires filled.min <= |filled.buffer| <= filled.max
    requires Valid(tail.ch) && AllSatisfied(tail.completed) && SameRequests(tail.completed, ch.readQueue[1..])
    requires tail.ch.handshakeComplete == c.handshakeComplete
    requires tail.ch.isOpen ==> tail.ch.writeQueue == c.writeQueue
    requires IsPrefix(Tags(tail.completed), Tags(ch.readQueue[1..]))
    requires tail.ch.isOpen ==> Tags(tail.completed) + Tags(tail.ch.readQueue) == Tags(ch.readQueue[1..])
    requires tail.ch.isOpen ==> Flatten(Buffers(ch.readQueue[1..])) + tail.plaintext
                                == Flatten(Buffers(tail.completed)) + Flatten(Buffers(tail.ch.readQueue))
    ensures var p := ReadRun(tail.ch, tail.env, [filled] + tail.completed, bytes + tail.plaintext);
      && AllSatisfied(p.completed) && SameRequests(p.completed, ch.readQueue)
      && IsPrefix(Tags(p.completed), Tags(ch.readQueue))
      && (p.ch.isOpen ==> Tags(p.completed) + Tags(p.ch.readQueue) == Tags(ch.readQueue))
      && (p.ch.isOpen ==> Flatten(Buffers(ch.readQueue)) + p.plaintext
                          == Flatten(Buffers(p.completed)) + Flatten(Buffers(p.ch.readQueue)))
  {
    var q := ch.readQueue;
    ReadPopped(q, filled, bytes, tail.completed, tail.ch.readQueue, tail.plaintext, tail.ch.isOpen);
    var done := [filled] + tail.completed;
    assert forall i :: 0 < i < |done| ==> done[i] == tail.completed[i - 1] && q[i] == q[1..][i - 1];
  }

  /** The bookkeeping of `PumpReads` when the head completes and the rest is pumped. */
  lemma ReadPopped(queue: seq<ReadItem>, filled: ReadItem, bytes: Bytes, completed: seq<ReadItem>,
                   rest: seq<ReadItem>, received: Bytes, open: bool)
    requires WellQueued(queue) && |queue| > 0
    requires filled == queue[0].(buffer := queue[0].buffer + bytes)
    requires IsPrefix(Tags(completed), Tags(queue[1..]))
    requires open ==> Tags(completed) + Tags(rest) == Tags(queue[1..])
    requires open ==> Flatten(Buffers(queue[1..])) + received == Flatten(Buffers(completed)) + Flatten(Buffers(rest))
    ensures IsPrefix(Tags([filled] + completed), Tags(queue))
    ensures open ==> Tags([filled] + completed) + Tags(rest) == Tags(queue)
    ensures open ==> Flatten(Buffers(queue)) + (bytes + received)
                     == Flatten(Buffers([filled] + completed)) + Flatten(Buffers(rest))
  {
    TagsCons(filled, completed);
    assert queue == [queue[0]] + queue[1..];
    TagsCons(queue[0], queue[1..]);
    PrefixPrepend([filled.tag], Tags(completed), Tags(queue[1..]));
    if open {
      ReadCompleteStep(queue, filled, bytes, completed, rest);
      ReadCompleteBytes(queue, filled, bytes, completed, rest, received);
    }
  }

  datatype WriteRun = WriteRun(ch: TlsChannel, env: Env, sent: seq<Bytes>)

  /**
   `pumpWrites`: while open with a payload at the head, hand it to the engine; a full write
   pops it and the loop goes on, a partial positive write keeps the unwritten suffix at the
   head, and either that or a zero write stops the loop.
   */
  function PumpWrites(ch: TlsChannel, funcs: IoFuncs, env: Env): (p: WriteRun)
    requires Valid(ch)
    ensures Valid(p.ch)
    ensures p.ch.handshakeComplete == ch.handshakeComplete
    ensures p.ch.isOpen ==> p.ch.readQueue == ch.readQueue && ch.isOpen
    ensures IsPrefix(Flatten(p.sent), Flatten(ch.writeQueue))
    ensures p.ch.isOpen ==> Flatten(p.sent) + Flatten(p.ch.writeQueue) == Flatten(ch.writeQueue)
    ensures !ch.isOpen ==> p.sent == []
    decreases |ch.writeQueue|
  {
    if |ch.writeQueue| == 0 || !ch.isOpen then WriteRun(ch, env, [])
    else
      var queue := ch.writeQueue;
      var packet := queue[0];
      var call := EngineCall(ch, funcs, env);
      var written := Min(call.reply.written, |packet|);
      if !call.ch.isOpen then WriteRun(call.ch, call.env, [])
      else if written == |packet| then
        var tail := PumpWrites(call.ch.(writeQueue := queue[1..]), funcs, call.env);
        WritePopped(queue, tail.sent, tail.ch.writeQueue, tail.ch.isOpen);
        WriteRun(tail.ch, tail.env, [packet] + tail.sent)
      else if written > 0 then
        WritePartialStep(queue, written);
        PrefixExtend(Flatten([packet[..written]]), Flatten([packet[..written]]), Flatten([packet[written..]] + queue[1..]));
        WriteRun(call.ch.(writeQueue := [packet[written..]] + queue[1..]), call.env, [packet[..written]])
      else WriteRun(call.ch, call.env, [])
  }

  /** The bookkeeping of `PumpWrites` when the head is written whole and the rest is pumped. */
  lemma WritePopped(queue: seq<Bytes>, sent: seq<Bytes>, rest: seq<Bytes>, open: bool)
    requires |queue| > 0
    requires IsPrefix(Flatten(sent), Flatten(queue[1..]))
    requires open ==> Flatten(sent) + Flatten(rest) == Flatten(queue[1..])
    ensures IsPrefix(Flatten([queue[0]] + sent), Flatten(queue))
    ensures open ==> Flatten([queue[0]] + sent) + Flatten(rest) == Flatten(queue)
  {
    FlattenCons(queue[0], sent);
    assert queue == [queue[0]] + queue[1..];
    FlattenCons(queue[0], queue[1..]);
    PrefixPrepend(queue[0], Flatten(sent), Flatten(queue[1..]));
    if open {
      Assoc(queue[0], Flatten(sent), Flatten(rest));
    }
  }

  /** The engine's reply to its `i`th call: the script's, or `Idle` once it is exhausted. */
  function ReplyAt(engine: seq<EngineReply>, i: nat): (r: EngineReply)
    ensures i >= |engine| ==> r == Idle
  {
    if i < |engine| then engine[i] else Idle
  }

  /** An `SSLWrite` answered by `reply` wrote the whole of `packet`, which was handed on as `sent`. */
  predicate WritesWhole(packet: Bytes, reply: EngineReply, sent: Bytes)
  {
    |packet| <= reply.written && sent == packet
  }

  /** The first `n` `SSLWrite` calls of the write pump each wrote their whole payload. */
  predicate EncryptedBy(queue: seq<Bytes>, engine: seq<EngineReply>, sent: seq<Bytes>, n: nat)
  {
    && n <= |queue| && n <= |sent|
    && forall i :: 0 <= i < n ==> WritesWhole(queue[i], ReplyAt(engine, i), sent[i])
  }

  /**
   Where a write pump that left the session open ended, seen from the payloads it did not
   write whole (`rest`) and the engine replies not used for them (`engine`): the queue was
   drained, or the next call wrote only part of its payload, whose unwritten suffix stays at
   the head (a zero write leaves the queue as it was).
   */
  predicate WriteStop(rest: seq<Bytes>, engine: seq<EngineReply>, sent: seq<Bytes>, left: seq<Bytes>,
                      unused: seq<EngineReply>)
  {
    if rest == [] then sent == [] && unused == engine
    else
      && unused == Skip(engine, 1)
      && var w := Min(ReplyAt(engine, 0).written, |rest[0]|);
         && w < |rest[0]|
         && if w > 0 then sent == [rest[0][..w]] && left == [rest[0][w..]] + rest[1..]
            else sent == [] && left == rest
  }

  /** Where a write pump that left the session open ended after `n` whole writes. */
  predicate EncryptStop(queue: seq<Bytes>, engine: seq<EngineReply>, p: WriteRun, n: nat)
  {
    n <= |p.sent| && WriteStop(Skip(queue, n), Skip(engine, n), Skip(p.sent, n), p.ch.writeQueue, p.env.engine)
  }

  /**
   The write pump against the engine's replies, one `SSLWrite` per call. While the session
   stays open, the payloads it hands on are the heads written whole and then the written
   part of the head where it stopped; when a call closes the session, that call was one
   the script answered, and only the heads before it were sent.
   */
  predicate WritesEncrypted(queue: seq<Bytes>, engine: seq<EngineReply>, p: WriteRun)
  {
    if p.ch.isOpen then
      && |p.ch.writeQueue| <= |queue|
      && EncryptedBy(queue, engine, p.sent, |queue| - |p.ch.writeQueue|)
      && EncryptStop(queue, engine, p, |queue| - |p.ch.writeQueue|)
    else
      && EncryptedBy(queue, engine, p.sent, |p.sent|)
      && (queue == [] ==> p.sent == [] && p.env.engine == engine)
      && (queue != [] ==> |p.sent| < |queue| && |p.sent| < |engine| && p.env.engine == Skip(engine, |p.sent| + 1))
  }

  /**
   Every `SSLWrite` the write pump makes is answered by the engine's next reply: the heads
   it pops are exactly those this reply wrote whole, and it stops at the first reply that
   writes less, or at the first call that closes the session.
   */
  lemma {:induction false} PumpWritesEncrypted(ch: TlsChannel, funcs: IoFuncs, env: Env)
    requires Valid(ch)
    ensures WritesEncrypted(ch.writeQueue, env.engine, PumpWrites(ch, funcs, env))
    decreases |ch.writeQueue|
  {
    if |ch.writeQueue| > 0 && ch.isOpen {
      var packet := ch.writeQueue[0];
      var call := EngineCall(ch, funcs, env);
      var written := Min(call.reply.written, |packet|);
      if !call.ch.isOpen {
        ClosedEncrypted(ch, funcs, env);
      } else if written == |packet| {
        PumpWritesEncrypted(call.ch.(writeQueue := ch.writeQueue[1..]), funcs, call.env);
        WholeEncrypted(ch, funcs, env);
      } else {
        PartEncrypted(ch, funcs, env);
      }
    }
  }

  /** A call that closes the session ends the write pump with nothing sent. */
  lemma ClosedEncrypted(ch: TlsChannel, funcs: IoFuncs, env: Env)
    requires Valid(ch) && ch.isOpen && |ch.writeQueue| > 0
    requires !EngineCall(ch, funcs, env).ch.isOpen
    ensures WritesEncrypted(ch.writeQueue, env.engine, PumpWrites(ch, funcs, env))
  {
    var call := EngineCall(ch, funcs, env);
    assert PumpWrites(ch, funcs, env) == WriteRun(call.ch, call.env, []);
  }

  /** A call that writes only part of the head, possibly nothing, ends the write pump. */
  lemma PartEncrypted(ch: TlsChannel, funcs: IoFuncs, env: Env)
    requires Valid(ch) && ch.isOpen && |ch.writeQueue| > 0
    requires var call := EngineCall(ch, funcs, env);
             call.ch.isOpen && Min(call.reply.written, |ch.writeQueue[0]|) < |ch.writeQueue[0]|
    ensures WritesEncrypted(ch.writeQueue, env.engine, PumpWrites(ch, funcs, env))
  {
    var queue := ch.writeQueue;
    var packet := queue[0];
    var call := EngineCall(ch, funcs, env);
    var written := Min(call.reply.written, |packet|);
    var p := PumpWrites(ch, funcs, env);
    assert call.reply == ReplyAt(env.engine, 0) && call.env.engine == Skip(env.engine, 1);
    if written > 0 {
      assert p == WriteRun(call.ch.(writeQueue := [packet[written..]] + queue[1..]), call.env, [packet[..written]]);
    } else {
      assert p == WriteRun(call.ch, call.env, []);
    }
    PartCons(queue, env.engine, p);
  }

  /** A call that writes the whole head, then the pump of the rest. */
  lemma WholeEncrypted(ch: TlsChannel, funcs: IoFuncs, env: Env)
    requires Valid(ch) && ch.isOpen && |ch.writeQueue| > 0
    requires var call := EngineCall(ch, funcs, env);
             && call.ch.isOpen && Min(call.reply.written, |ch.writeQueue[0]|) == |ch.writeQueue[0]|
             && WritesEncrypted(ch.writeQueue[1..], call.env.engine,
                                PumpWrites(call.ch.(writeQueue := ch.writeQueue[1..]), funcs, call.env))
    ensures WritesEncrypted(ch.writeQueue, env.engine, PumpWrites(ch, funcs, env))
  {
    var queue := ch.writeQueue;
    var call := EngineCall(ch, funcs, env);
    var p := PumpWrites(ch, funcs, env);
    var tail := PumpWrites(call.ch.(writeQueue := queue[1..]), funcs, call.env);
    assert p == WriteRun(tail.ch, tail.env, [queue[0]] + tail.sent);
    assert call.env.engine == Skip(env.engine, 1) && call.reply == ReplyAt(env.engine, 0);
    assert !tail.ch.isOpen ==> |queue| > 1 by {
      if |queue| == 1 {
        assert |queue[1..]| == 0 && tail.ch == call.ch.(writeQueue := queue[1..]);
      }
    }
    WholeCons(queue, env.engine, tail, p);
  }

  /** The write pump stops at a call that writes only part of the head, possibly nothing. */
  lemma PartCons(queue: seq<Bytes>, engine: seq<EngineReply>, p: WriteRun)
    requires |queue| > 0 && p.ch.isOpen && p.env.engine == Skip(engine, 1)
    requires var w := Min(ReplyAt(engine, 0).written, |queue[0]|);
             && w < |queue[0]|
             && (w > 0 ==> p.sent == [queue[0][..w]] && p.ch.writeQueue == [queue[0][w..]] + queue[1..])
             && (w == 0 ==> p.sent == [] && p.ch.writeQueue == queue)
    ensures WritesEncrypted(queue, engine, p)
  {
    assert |p.ch.writeQueue| == |queue|;
    assert EncryptedBy(queue, engine, p.sent, 0);
    assert WriteStop(queue, engine, p.sent, p.ch.writeQueue, p.env.engine);
    assert EncryptStop(queue, engine, p, 0);
  }

  /** A head written whole by the first call, followed by the pump of the rest. */
  lemma WholeCons(queue: seq<Bytes>, engine: seq<EngineReply>, tail: WriteRun, p: WriteRun)
    requires |queue| > 0 && |queue[0]| <= ReplyAt(engine, 0).written
    requires WritesEncrypted(queue[1..], Skip(engine, 1), tail)
    requires p.ch == tail.ch && p.env == tail.env && p.sent == [queue[0]] + tail.sent
    requires !tail.ch.isOpen ==> |queue| > 1
    ensures WritesEncrypted(queue, engine, p)
  {
    var m := if p.ch.isOpen then |queue[1..]| - |p.ch.writeQueue| else |tail.sent|;
    EncryptedCons(queue, engine, tail.sent, m);
    if p.ch.isOpen {
      EncryptStopCons(queue, engine, tail, p, m);
    } else {
      assert |engine| > 0 && Skip(engine, 1) == engine[1..];
      assert Skip(engine[1..], |tail.sent| + 1) == Skip(engine, |p.sent| + 1);
    }
  }

  lemma EncryptedCons(queue: seq<Bytes>, engine: seq<EngineReply>, sent: seq<Bytes>, m: nat)
    requires |queue| > 0 && |queue[0]| <= ReplyAt(engine, 0).written
    requires EncryptedBy(queue[1..], Skip(engine, 1), sent, m)
    ensures EncryptedBy(queue, engine, [queue[0]] + sent, m + 1)
  {
    var all := [queue[0]] + sent;
    assert WritesWhole(queue[0], ReplyAt(engine, 0), all[0]);
    forall i | 0 < i < m + 1
      ensures WritesWhole(queue[i], ReplyAt(engine, i), all[i])
    {
      var k := i - 1;
      assert WritesWhole(queue[1..][k], ReplyAt(Skip(engine, 1), k), sent[k]);
      assert queue[1..][k] == queue[i] && all[i] == sent[k] && ReplyAt(Skip(engine, 1), k) == ReplyAt(engine, i);
    }
  }

  lemma EncryptStopCons(queue: seq<Bytes>, engine: seq<EngineReply>, tail: WriteRun, p: WriteRun, m: nat)
    requires |queue| > 0 && m <= |queue| - 1
    requires p.ch == tail.ch && p.env == tail.env && p.sent == [queue[0]] + tail.sent
    requires EncryptStop(queue[1..], Skip(engine, 1), tail, m)
    ensures EncryptStop(queue, engine, p, m + 1)
  {
    assert p.sent[1..] == tail.sent;
    assert Skip(queue, m + 1) == Skip(queue[1..], m) && Skip(p.sent, m + 1) == Skip(tail.sent, m);
    assert Skip(Skip(engine, 1), m) == Skip(engine, m + 1);
  }

  /** A queue the read pump left alone, or a close emptied, holds an initial part of the bytes. */
  lemma UntouchedOrDropped(before: seq<Bytes>, after: seq<Bytes>)
    requires after == before || after == []
    ensures IsPrefix(Flatten(after), Flatten(before))
  {
  }

  /** Everything one pump of both queues produced. */
  datatype Pumped = Pumped(ch: TlsChannel, env: Env, completed: seq<ReadItem>, plaintext: Bytes,
                           sent: seq<Bytes>, notices: seq<Notice>)

  /**
   `pumpQueues`: the plaintext queues are touched only when `checkHandshake` says the
   session is up; then reads are pumped before writes.
   */
  function PumpQueues(ch: TlsChannel, funcs: IoFuncs, env: Env): (o: Pumped)
    requires Valid(ch)
    ensures Valid(o.ch)
    ensures o.completed != [] || o.sent != [] ==> o.ch.handshakeComplete
    ensures !o.ch.handshakeComplete && o.ch.isOpen ==>
              o.ch.readQueue == ch.readQueue && o.ch.writeQueue == ch.writeQueue
    ensures AllSatisfied(o.completed)
    ensures SameRequests(o.completed, ch.readQueue)
    ensures IsPrefix(Tags(o.completed), Tags(ch.readQueue))
    ensures o.ch.isOpen ==> Tags(o.completed) + Tags(o.ch.readQueue) == Tags(ch.readQueue)
    ensures o.ch.isOpen ==> Flatten(Buffers(ch.readQueue)) + o.plaintext
                            == Flatten(Buffers(o.completed)) + Flatten(Buffers(o.ch.readQueue))
    ensures IsPrefix(Flatten(o.sent), Flatten(ch.writeQueue))
    ensures o.ch.isOpen ==> Flatten(o.sent) + Flatten(o.ch.writeQueue) == Flatten(ch.writeQueue)
    ensures HandshakeSucceeded in o.notices <==> !ch.handshakeComplete && o.ch.handshakeComplete
    ensures |o.notices| <= 1 && Disconnected !in o.notices
    ensures ch.handshakeComplete ==> o.ch.handshakeComplete
  {
    var h := CheckHandshake(ch, funcs, env);
    if !h.ok then
      Pumped(h.ch, h.env, [], [], [], h.notices)
    else
      var r := PumpReads(h.ch, funcs, h.env);
      var w := PumpWrites(r.ch, funcs, r.env);
      UntouchedOrDropped(ch.writeQueue, r.ch.writeQueue);
      PrefixTransitive(Flatten(w.sent), Flatten(r.ch.writeQueue), Flatten(ch.writeQueue));
      Pumped(w.ch, w.env, r.completed, r.plaintext, w.sent, h.notices)
  }

  /**
   `pumpQueues` against the engine's replies: the handshake step decides; once it is up, the
   completions are the read pump's against the replies left after it, and the payloads sent
   are the write pump's against the replies the read pump left.
   */
  lemma PumpQueuesAnswered(ch: TlsChannel, funcs: IoFuncs, env: Env)
    requires Valid(ch)
    ensures var o := PumpQueues(ch, funcs, env);
            var h := CheckHandshake(ch, funcs, env);
            && o.notices == h.notices
            && (!h.ok ==> o.ch == h.ch && o.env == h.env && o.completed == [] && o.sent == [])
            && (h.ok ==> var r := PumpReads(h.ch, funcs, h.env);
                         var w := PumpWrites(r.ch, funcs, r.env);
                         && ReadsDecrypted(ch.readQueue, h.env.engine, r) && o.completed == r.completed
                         && WritesEncrypted(r.ch.writeQueue, r.env.engine, w) && o.sent == w.sent
                         && o.ch == w.ch && o.env == w.env)
  {
    var h := CheckHandshake(ch, funcs, env);
    if h.ok {
      var r := PumpReads(h.ch, funcs, h.env);
      PumpReadsDecrypted(h.ch, funcs, h.env);
      PumpWritesEncrypted(r.ch, funcs, r.env);
    }
  }

  /**
   `read(min:max:)`: on an open session, queue the request at the tail and pump; on a closed
   one, nothing. Completions come strictly in request order.
   */
  function Read(ch: TlsChannel, funcs: IoFuncs, min: nat, max: nat, tag: nat, env: Env): (o: Pumped)
    requires Valid(ch) && 0 < min <= max
    ensures Valid(o.ch)
    ensures !ch.isOpen ==> o == Pumped(ch, env, [], [], [], [])
    ensures IsPrefix(Tags(o.completed), Tags(ch.readQueue) + [tag])
    ensures o.ch.isOpen ==> Tags(o.completed) + Tags(o.ch.readQueue) == Tags(ch.readQueue) + [tag]
    ensures o.completed != [] ==> o.ch.handshakeComplete
    ensures SameRequests(o.completed, ch.readQueue + [NewItem(min, max, tag)])
    ensures ch.isOpen ==> o == PumpQueues(ch.(readQueue := ch.readQueue + [NewItem(min, max, tag)]), funcs, env)
  {
    if !ch.isOpen then Pumped(ch, env, [], [], [], [])
    else
      var queued := ch.(readQueue := ch.readQueue + [NewItem(min, max, tag)]);
      TagsAppend(ch.readQueue, [NewItem(min, max, tag)]);
      PumpQueues(queued, funcs, env)
  }

  /** The default `read(_ count:)` of `SecureSocket`: a completion of this request holds exactly `count` bytes. */
  function ReadExact(ch: TlsChannel, funcs: IoFuncs, count: nat, tag: nat, env: Env): (o: Pumped)
    requires Valid(ch) && 0 < count
    ensures o == Read(ch, funcs, count, count, tag, env)
    ensures ch.isOpen && |o.completed| == |ch.readQueue| + 1 ==> |o.completed[|ch.readQueue|].buffer| == count
  {
    Read(ch, funcs, count, count, tag, env)
  }

  /** The default `read(max:)` of `SecureSocket`: a completion of this request holds 1 to `max` bytes. */
  function ReadUpTo(ch: TlsChannel, funcs: IoFuncs, max: nat, tag: nat, env: Env): (o: Pumped)
    requires Valid(ch) && 0 < max
    ensures o == Read(ch, funcs, 1, max, tag, env)
    ensures ch.isOpen && |o.completed| == |ch.readQueue| + 1 ==> 0 < |o.completed[|ch.readQueue|].buffer| <= max
  {
    Read(ch, funcs, 1, max, tag, env)
  }

  /** `write(_:)`: on an open session, queue the payload at the tail and pump; on a closed one, nothing. */
  function Write(ch: TlsChannel, funcs: IoFuncs, data: Bytes, env: Env): (o: Pumped)
    requires Valid(ch)
    ensures Valid(o.ch)
    ensures !ch.isOpen ==> o == Pumped(ch, env, [], [], [], [])
    ensures IsPrefix(Flatten(o.sent), Flatten(ch.writeQueue) + data)
    ensures o.ch.isOpen ==> Flatten(o.sent) + Flatten(o.ch.writeQueue) == Flatten(ch.writeQueue) + data
    ensures o.sent != [] ==> o.ch.handshakeComplete
    ensures ch.isOpen ==> o == PumpQueues(ch.(writeQueue := ch.writeQueue + [data]), funcs, env)
  {
    if !ch.isOpen then Pumped(ch, env, [], [], [], [])
    else
      FlattenAppend(ch.writeQueue, [data]);
      FlattenSingle(data);
      PumpQueues(ch.(writeQueue := ch.writeQueue + [data]), funcs, env)
  }

  /**
   `dispatchSocketReadable`: a readiness report of zero bytes means the peer went away, so
   the session closes and the delegate hears of the disconnection (whatever the handshake
   state); otherwise both queues are pumped.
   */
  function Readable(ch: TlsChannel, funcs: IoFuncs, count: nat, env: Env): (o: Pumped)
    requires Valid(ch)
    ensures Valid(o.ch)
    ensures count == 0 ==> o == Pumped(Close(ch), env, [], [], [], [Disconnected])
    ensures count > 0 ==> o == PumpQueues(ch, funcs, env)
    ensures Disconnected in o.notices <==> count == 0
  {
    if count == 0 then Pumped(Close(ch), env, [], [], [], [Disconnected])
    else PumpQueues(ch, funcs, env)
  }

  /**
   `dispatchSocketWritable`: pump both queues. A closed session does nothing; nothing is
   completed or sent before the handshake is complete; completions follow the queued
   requests and the bytes sent are the queued payloads' bytes, in order; the delegate may
   hear of the handshake but never of a disconnection.
   */
  function Writable(ch: TlsChannel, funcs: IoFuncs, env: Env): (o: Pumped)
    requires Valid(ch)
    ensures Valid(o.ch) && o == PumpQueues(ch, funcs, env)
    ensures !ch.isOpen ==> o == Pumped(ch, env, [], [], [], [])
    ensures o.completed != [] || o.sent != [] ==> o.ch.handshakeComplete
    ensures IsPrefix(Tags(o.completed), Tags(ch.readQueue))
    ensures IsPrefix(Flatten(o.sent), Flatten(ch.writeQueue))
    ensures o.ch.isOpen ==> Flatten(o.sent) + Flatten(o.ch.writeQueue) == Flatten(ch.writeQueue)
    ensures Disconnected !in o.notices
  {
    PumpQueues(ch, funcs, env)
  }

  /** What can happen to a session: the public calls and the two raw readiness reports. */
  datatype Event =
    | ReadCall(min: nat, max: nat, tag: nat)
    | WriteCall(data: Bytes)
    | ReadableEvent(count: nat)
    | WritableEvent
    | CloseCall

  predicate WellFormed(e: Event)
  {
    e.ReadCall? ==> 0 < e.min <= e.max
  }

  function Apply(ch: TlsChannel, funcs: IoFuncs, e: Event, env: Env): (o: Pumped)
    requires Valid(ch) && WellFormed(e)
    ensures Valid(o.ch)
    ensures ch.handshakeComplete ==> o.ch.handshakeComplete
    ensures Count(o.notices, HandshakeSucceeded) == (if !ch.handshakeComplete && o.ch.handshakeComplete then 1 else 0)
    ensures Count(o.notices, Disconnected) == (if e == ReadableEvent(0) then 1 else 0)
  {
    var o := match e
      case ReadCall(min, max, tag) => Read(ch, funcs, min, max, tag, env)
      case WriteCall(data) => Write(ch, funcs, data, env)
      case ReadableEvent(count) => Readable(ch, funcs, count, env)
      case WritableEvent => Writable(ch, funcs, env)
      case CloseCall => Pumped(Close(ch), env, [], [], [], []);
    NoticeCounts(o.notices);
    o
  }

  /** How often `n` occurs among the delegate calls `ns`. */
  function Count(ns: seq<Notice>, n: Notice): nat
  {
    if |ns| == 0 then 0 else (if ns[0] == n then 1 else 0) + Count(ns[1..], n)
  }

  lemma NoticeCounts(ns: seq<Notice>)
    requires |ns| <= 1
    ensures Count(ns, HandshakeSucceeded) == (if HandshakeSucceeded in ns then 1 else 0)
    ensures Count(ns, Disconnected) == (if Disconnected in ns then 1 else 0)
  {
    if |ns| == 1 {
      assert ns[1..] == [];
    }
  }

  lemma {:induction false} CountAppend(a: seq<Notice>, b: seq<Notice>, n: Notice)
    ensures Count(a + b, n) == Count(a, n) + Count(b, n)
    decreases |a|
  {
    if |a| == 0 {
      assert a + b == b;
    } else {
      assert (a + b)[1..] == a[1..] + b;
      CountAppend(a[1..], b, n);
    }
  }

  /** How many zero-byte readiness reports a list of events holds. */
  function PeerCloses(events: seq<Event>): nat
  {
    if |events| == 0 then 0 else (if events[0] == ReadableEvent(0) then 1 else 0) + PeerCloses(events[1..])
  }

  datatype Trace = Trace(ch: TlsChannel, env: Env, notices: seq<Notice>)

  /**
   A session driven by any sequence of events: the delegate hears of handshake success at
   most once over the whole life of the session, exactly when the handshake went from
   incomplete to complete, and hears of a disconnection once per zero-byte readiness report
   and never otherwise (in particular never from `close()`).
   */
  function Run(ch: TlsChannel, funcs: IoFuncs, events: seq<Event>, env: Env): (t: Trace)
    requires Valid(ch) && forall i :: 0 <= i < |events| ==> WellFormed(events[i])
    ensures Valid(t.ch)
    ensures ch.handshakeComplete ==> t.ch.handshakeComplete
    ensures Count(t.notices, HandshakeSucceeded) == (if !ch.handshakeComplete && t.ch.handshakeComplete then 1 else 0)
    ensures Count(t.notices, Disconnected) == PeerCloses(events)
    decreases |events|
  {
    if |events| == 0 then Trace(ch, env, [])
    else
      var first := Apply(ch, funcs, events[0], env);
      var rest := Run(first.ch, funcs, events[1..], first.env);
      CountAppend(first.notices, rest.notices, HandshakeSucceeded);
      CountAppend(first.notices, rest.notices, Disconnected);
      Trace(rest.ch, rest.env, first.notices + rest.notices)
  }

  /**
   The registration as written sends the engine's read requests to `handleWrite`: the raw
   socket is never read, `readBlocked` never changes, and whatever the requests are, the
   receive script is left untouched.
   */
  lemma {:induction false} ReadRequestsAsWired(ch: TlsChannel, io: seq<IoRequest>, env: Env)
    requires Valid(ch)
    ensures RunIo(ch, IoFuncsAsWritten, io, env).env.recvs == env.recvs
    ensures RunIo(ch, IoFuncsAsWritten, io, env).ch.readBlocked == ch.readBlocked
    decreases |io|
  {
    if |io| > 0 {
      var first := Serve(ch, IoFuncsAsWritten, io[0], env);
      ReadRequestsAsWired(first.ch, io[1..], first.env);
    }
  }

  /**
   A concrete run showing the registration as written: a fresh session whose engine asks to
   read five bytes, with five bytes waiting on the socket. As written, the request is
   answered by a send attempt that would block, so the session waits for writability and
   the waiting bytes stay unread; with the intended registration the read succeeds.
   */
  lemma IoFuncsCounterexample()
    ensures var env := Env([], [Received([1, 2, 3, 4, 5])], []);
            var asWritten := RunIo(Init(), IoFuncsAsWritten, [EngineRead(5)], env);
            var intended := RunIo(Init(), IoFuncsIntended, [EngineRead(5)], env);
            && asWritten.statuses == [ErrSSLWouldBlock]
            && asWritten.ch.writeArmed && !asWritten.ch.readArmed
            && asWritten.env.recvs == env.recvs
            && intended.statuses == [NoErr]
            && intended.env.recvs == []
  {
    var env := Env([], [Received([1, 2, 3, 4, 5])], []);
    assert Take([1, 2, 3, 4, 5], 5) == [1, 2, 3, 4, 5];
    assert [EngineRead(5)][1..] == [];
  }

  /**
   With the intended registration, an engine read request goes to the socket: it consumes
   one receive answer and no send answer, succeeds exactly when the socket delivers all
   the bytes asked for, and otherwise leaves the read notification armed if still open.
   */
  lemma ReadRequestsReachSocket(ch: TlsChannel, n: nat, env: Env)
    requires Valid(ch)
    ensures var o := Serve(ch, IoFuncsIntended, EngineRead(n), env);
            && o.env == env.(recvs := Rest(env.recvs))
            && (o.statuses == [NoErr] <==> Recv(env.recvs, n).Received? && |Recv(env.recvs, n).bytes| == n)
            && (o.statuses != [NoErr] && o.ch.isOpen ==> o.ch.readArmed)
  {
  }

  /**
   The handshake failure is neither latched nor followed by a close: a session whose engine
   reports an expired certificate on two handshake steps notifies the failure twice and
   stays open, whichever I/O functions are registered.
   */
  lemma HandshakeFailureRepeats(funcs: IoFuncs)
    ensures var expired := EngineReply([], ErrSSLCertExpired, [], 0);
            var t := Run(Init(), funcs, [WritableEvent, WritableEvent], Env([expired, expired], [], []));
            && t.notices == [HandshakeFailed(ExpiredCert), HandshakeFailed(ExpiredCert)]
            && t.ch.isOpen && !t.ch.handshakeComplete
  {
    var expired := EngineReply([], ErrSSLCertExpired, [], 0);
    var events := [WritableEvent, WritableEvent];
    var env := Env([expired, expired], [], []);
    var first := Apply(Init(), funcs, WritableEvent, env);
    assert first.notices == [HandshakeFailed(ExpiredCert)];
    assert events[1..] == [WritableEvent];
    var second := Apply(first.ch, funcs, WritableEvent, first.env);
    assert second.notices == [HandshakeFailed(ExpiredCert)];
    assert events[1..][1..] == [];
  }
}
