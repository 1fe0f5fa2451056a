/**
 The transfer queues shared by the queued channels. A read request is a buffer being
 filled, the `min` that completes it, the `max` it may never exceed, and a tag standing for
 its completion handler; a write request is the payload still to send. Both queues are
 served strictly from the head.
 */
module TransferQueue {
  import opened Octets
  import opened Posix
  import opened Io

  /** Stream sockets keep unsent suffixes; a datagram is sent by exactly one accepted send. */
  datatype SocketType = Stream | Datagram

  datatype ReadItem = ReadItem(buffer: Bytes, min: nat, max: nat, tag: nat)

  /** A request as `read(min:max:)` creates it: empty buffer, `0 < min <= max`. */
  function NewItem(min: nat, max: nat, tag: nat): (it: ReadItem)
    requires 0 < min <= max
    ensures Pending(it) && it.buffer == [] && it.tag == tag
  {
    ReadItem([], min, max, tag)
  }

  /** A request still waiting in a queue: well-formed and below its threshold. */
  predicate Pending(it: ReadItem)
  {
    0 < it.min <= it.max && |it.buffer| < it.min
  }

  /** A request as handed to its completion: between `min` and `max` bytes. */
  predicate Satisfied(it: ReadItem)
  {
    it.min <= |it.buffer| <= it.max
  }

  /**
   The shape of a read queue between events: every request pending, and only the head
   holding bytes (the others have not been served yet).
   */
  predicate WellQueued(q: seq<ReadItem>)
  {
    && (forall i :: 0 <= i < |q| ==> Pending(q[i]))
    && (forall i :: 0 < i < |q| ==> q[i].buffer == [])
  }

  predicate AllSatisfied(done: seq<ReadItem>)
  {
    forall i :: 0 <= i < |done| ==> Satisfied(done[i])
  }

  /** The completed requests are the first ones of `q`, in order, with the bounds they were issued with. */
  predicate SameRequests(done: seq<ReadItem>, q: seq<ReadItem>)
  {
    && |done| <= |q|
    && forall i :: 0 <= i < |done| ==>
         done[i].min == q[i].min && done[i].max == q[i].max && done[i].tag == q[i].tag
  }

  /** The completion handlers of a list of requests, in order. */
  function Tags(q: seq<ReadItem>): (t: seq<nat>)
    ensures |t| == |q|
  {
    if |q| == 0 then [] else [q[0].tag] + Tags(q[1..])
  }

  /** The buffers of a list of requests, in order. */
  function Buffers(q: seq<ReadItem>): (b: seq<Bytes>)
    ensures |b| == |q|
  {
    if |q| == 0 then [] else [q[0].buffer] + Buffers(q[1..])
  }

  lemma {:induction false} TagsAppend(a: seq<ReadItem>, b: seq<ReadItem>)
    ensures Tags(a + b) == Tags(a) + Tags(b)
    decreases |a|
  {
    if |a| == 0 {
      assert a + b == b;
    } else {
      assert (a + b)[1..] == a[1..] + b;
      TagsAppend(a[1..], b);
    }
  }

  lemma {:induction false} BuffersAppend(a: seq<ReadItem>, b: seq<ReadItem>)
    ensures Buffers(a + b) == Buffers(a) + Buffers(b)
    decreases |a|
  {
    if |a| == 0 {
      assert a + b == b;
    } else {
      assert (a + b)[1..] == a[1..] + b;
      BuffersAppend(a[1..], b);
    }
  }

  lemma TagsCons(x: ReadItem, q: seq<ReadItem>)
    ensures Tags([x] + q) == [x.tag] + Tags(q)
  {
    assert ([x] + q)[1..] == q;
  }

  lemma BuffersCons(x: ReadItem, q: seq<ReadItem>)
    ensures Buffers([x] + q) == [x.buffer] + Buffers(q)
  {
    assert ([x] + q)[1..] == q;
  }

  /** Bytes held by a well-queued read queue are exactly those of its head. */
  lemma WellQueuedBytes(q: seq<ReadItem>)
    requires WellQueued(q) && |q| > 0
    ensures Flatten(Buffers(q)) == q[0].buffer
  {
    assert q == [q[0]] + q[1..];
    BuffersCons(q[0], q[1..]);
    FlattenCons(q[0].buffer, Buffers(q[1..]));
    EmptyBuffersFlatten(q[1..]);
  }

  lemma {:induction false} EmptyBuffersFlatten(q: seq<ReadItem>)
    requires forall i :: 0 <= i < |q| ==> q[i].buffer == []
    ensures Flatten(Buffers(q)) == []
    decreases |q|
  {
    if |q| > 0 {
      assert Buffers(q) == [q[0].buffer] + Buffers(q[1..]);
      FlattenCons(q[0].buffer, Buffers(q[1..]));
      EmptyBuffersFlatten(q[1..]);
    }
  }

  /** Bookkeeping for a head that completes: FIFO order and byte conservation carry over. */
  lemma ReadCompleteStep(queue: seq<ReadItem>, filled: ReadItem, bytes: Bytes, completed: seq<ReadItem>, rest: seq<ReadItem>)
    requires WellQueued(queue) && |queue| > 0
    requires filled == queue[0].(buffer := queue[0].buffer + bytes)
    requires Tags(completed) + Tags(rest) == Tags(queue[1..])
    ensures Tags([filled] + completed) + Tags(rest) == Tags(queue)
  {
    TagsCons(filled, completed);
    assert queue == [queue[0]] + queue[1..];
    TagsCons(queue[0], queue[1..]);
    ConsRegroup(filled.tag, Tags(completed), Tags(rest), Tags(queue[1..]));
  }

  lemma ConsRegroup<T>(x: T, c: seq<T>, t: seq<T>, q: seq<T>)
    requires c + t == q
    ensures ([x] + c) + t == [x] + q
  {
  }

  lemma ReadCompleteBytes(queue: seq<ReadItem>, filled: ReadItem, bytes: Bytes, completed: seq<ReadItem>,
                          rest: seq<ReadItem>, received: Bytes)
    requires WellQueued(queue) && |queue| > 0
    requires filled == queue[0].(buffer := queue[0].buffer + bytes)
    requires Flatten(Buffers(queue[1..])) + received
             == Flatten(Buffers(completed)) + Flatten(Buffers(rest))
    ensures Flatten(Buffers(queue)) + (bytes + received)
            == Flatten(Buffers([filled] + completed)) + Flatten(Buffers(rest))
  {
    EmptyBuffersFlatten(queue[1..]);
    WellQueuedBytes(queue);
    BuffersCons(filled, completed);
    FlattenCons(filled.buffer, Buffers(completed));
    Regroup(Flatten(Buffers(queue)), queue[0].buffer, filled.buffer, bytes, received,
            Flatten(Buffers(completed)), Flatten(Buffers(rest)));
  }

  /** Appending received bytes to a head, then splitting off what follows, regroups the same bytes. */
  lemma Regroup(h: Bytes, x: Bytes, fb: Bytes, bytes: Bytes, recv: Bytes, c: Bytes, t: Bytes)
    requires h == x && fb == x + bytes && recv == c + t
    ensures h + (bytes + recv) == (fb + c) + t
  {
  }

  /** Bookkeeping for a head that stays partially filled. */
  lemma ReadPartialStep(queue: seq<ReadItem>, filled: ReadItem, bytes: Bytes)
    requires WellQueued(queue) && |queue| > 0
    requires filled == queue[0].(buffer := queue[0].buffer + bytes)
    requires |filled.buffer| < filled.min
    ensures WellQueued([filled] + queue[1..])
    ensures Tags([filled] + queue[1..]) == Tags(queue)
    ensures Flatten(Buffers(queue)) + bytes == Flatten(Buffers([filled] + queue[1..]))
  {
    var q' := [filled] + queue[1..];
    assert q'[1..] == queue[1..];
    WellQueuedBytes(queue);
    WellQueuedBytes(q');
  }

  /** The result of the write loop of one writable event. */
  datatype WritePump = WritePump(queue: seq<Bytes>, sends: seq<Bytes>, rest: seq<SendReply>, fatal: bool)

  /**
   What one run of the write loop over `queue` leaves, with `m` heads popped: on a stream,
   the bytes sent and then the bytes still queued are the queued bytes; behind the head, the
   queue left is the queue after the popped heads (the head itself may have lost its sent
   prefix); on a datagram socket exactly the popped heads were sent, each cut to a prefix;
   and the loop asks for a close exactly when it stopped at a head whose send failed with
   an error other than a would-block, which leaves that head whole.
   */
  predicate Pumped(kind: SocketType, queue: seq<Bytes>, script: seq<SendReply>, p: WritePump)
  {
    && (kind == Stream ==> Flatten(p.sends) + Flatten(p.queue) == Flatten(queue))
    && |p.queue| <= |queue|
    && (|p.queue| > 0 ==> p.queue[1..] == queue[|queue| - |p.queue| + 1..])
    && (kind == Datagram ==> && p.queue == queue[|queue| - |p.queue|..]
                             && |p.sends| == |queue| - |p.queue|
                             && forall i :: 0 <= i < |p.sends| ==> IsPrefix(p.sends[i], queue[i]))
    && (p.fatal ==> p.queue == queue[|queue| - |p.queue|..])
    && (p.fatal <==> |p.queue| > 0 && SendFailsHard(script, |queue| - |p.queue|))
  }

  /**
   The `i`th send of the write loop took the whole head, or any part of a datagram: the
   loop pops that head and goes on.
   */
  predicate Pops(kind: SocketType, queue: seq<Bytes>, script: seq<SendReply>, i: nat)
  {
    i < |queue| && i < |script| && script[i].Sent? && (kind == Datagram || |queue[i]| <= script[i].count)
  }

  /**
   The first `n` sends of the write loop each popped their head, which went out cut to the
   count the socket accepted.
   */
  predicate PoppedBy(kind: SocketType, queue: seq<Bytes>, script: seq<SendReply>, sends: seq<Bytes>, n: nat)
  {
    && n <= |queue| && n <= |script| && n <= |sends|
    && forall i :: 0 <= i < n ==> Pops(kind, queue, script, i) && sends[i] == Take(queue[i], script[i].count)
  }

  /**
   Where the write loop ended after `n` pops: out of queue, with the replies after the
   `n`th left; or at the `n`th reply, which did not pop. A failure there (or an exhausted
   script) leaves the queue from that head on as it was; a short send on a stream keeps the
   unsent suffix of the head. Either way that reply is consumed.
   */
  predicate StoppedAt(kind: SocketType, queue: seq<Bytes>, script: seq<SendReply>, p: WritePump, n: nat)
    requires n <= |queue| && n <= |script|
  {
    && (n == |queue| ==> |p.sends| == n && p.rest == script[n..])
    && (n < |queue| ==>
          && !Pops(kind, queue, script, n)
          && p.rest == Rest(script[n..])
          && if n < |script| && script[n].Sent? then
               && |p.sends| == n + 1 && p.sends[n] == queue[n][..script[n].count]
               && p.queue == [queue[n][script[n].count..]] + queue[n + 1..]
             else |p.sends| == n && p.queue == queue[n..])
  }

  /** The write loop against the socket's replies, one reply per send. */
  predicate SendsAnswered(kind: SocketType, queue: seq<Bytes>, script: seq<SendReply>, p: WritePump)
  {
    && |p.queue| <= |queue|
    && PoppedBy(kind, queue, script, p.sends, |queue| - |p.queue|)
    && StoppedAt(kind, queue, script, p, |queue| - |p.queue|)
  }

  /**
   The write loop shared by `BufferedSocket.dispatchSocketWritable` and the write handler
   of `DispatchSocket.write`: a send that takes the whole head, or any send on
   a datagram socket, pops the head and the loop goes on; a partial send on a stream
   replaces the head with its unsent suffix (a zero-byte send leaves it) and stops; a failed
   send stops, asking for a close unless it was a would-block.
   */
  function PumpWrites(kind: SocketType, queue: seq<Bytes>, script: seq<SendReply>): (p: WritePump)
    ensures Pumped(kind, queue, script, p)
    ensures SendsAnswered(kind, queue, script, p)
    decreases |queue|
  {
    if |queue| == 0 then WritePump([], [], script, false)
    else
      var packet := queue[0];
      match Send(script, packet)
      case SendFailed(e) =>
        FailedSound(kind, queue, script, e);
        WritePump(queue, [], Rest(script), !IsWouldBlock(e))
      case Sent(k) =>
        if k == |packet| || kind == Datagram then
          var tail := PumpWrites(kind, queue[1..], Rest(script));
          PopSound(kind, queue, script, k, tail);
          PopAnswered(kind, queue, script, k, tail);
          tail.(sends := [packet[..k]] + tail.sends)
        else
          PartialSound(kind, queue, script, k);
          if k > 0 then WritePump([packet[k..]] + queue[1..], [packet[..k]], Rest(script), false)
          else
            assert queue == [packet[0..]] + queue[1..];
            WritePump(queue, [[]], Rest(script), false)
  }

  /** A popped head answered by the first reply, then the loop over the rest of the queue. */
  lemma PopAnswered(kind: SocketType, queue: seq<Bytes>, script: seq<SendReply>, k: nat, tail: WritePump)
    requires |queue| > 0 && Send(script, queue[0]) == Sent(k) && (k == |queue[0]| || kind == Datagram)
    requires SendsAnswered(kind, queue[1..], Rest(script), tail)
    ensures SendsAnswered(kind, queue, script, tail.(sends := [queue[0][..k]] + tail.sends))
  {
    var m := |queue[1..]| - |tail.queue|;
    assert |script| > 0 && Rest(script) == script[1..];
    PoppedCons(kind, queue, script, k, tail.sends, m);
    StoppedCons(kind, queue, script, k, tail, m);
  }

  lemma PoppedCons(kind: SocketType, queue: seq<Bytes>, script: seq<SendReply>, k: nat, sends: seq<Bytes>, m: nat)
    requires |queue| > 0 && Send(script, queue[0]) == Sent(k) && (k == |queue[0]| || kind == Datagram)
    requires |script| > 0 && PoppedBy(kind, queue[1..], script[1..], sends, m)
    ensures PoppedBy(kind, queue, script, [queue[0][..k]] + sends, m + 1)
  {
    var all := [queue[0][..k]] + sends;
    assert Pops(kind, queue, script, 0) && all[0] == Take(queue[0], script[0].count);
    forall i | 0 < i < m + 1
      ensures Pops(kind, queue, script, i) && all[i] == Take(queue[i], script[i].count)
    {
      assert Pops(kind, queue[1..], script[1..], i - 1);
      assert queue[1..][i - 1] == queue[i] && script[1..][i - 1] == script[i] && all[i] == sends[i - 1];
    }
  }

  lemma StoppedCons(kind: SocketType, queue: seq<Bytes>, script: seq<SendReply>, k: nat, tail: WritePump, m: nat)
    requires |queue| > 0 && |script| > 0 && k <= |queue[0]| && m <= |queue| - 1 && m <= |script| - 1 && m <= |tail.sends|
    requires StoppedAt(kind, queue[1..], script[1..], tail, m)
    ensures StoppedAt(kind, queue, script, tail.(sends := [queue[0][..k]] + tail.sends), m + 1)
  {
    var n := m + 1;
    assert script[1..][m..] == script[n..];
    if n < |queue| {
      assert queue[1..][m] == queue[n] && queue[1..][m + 1..] == queue[n + 1..] && queue[1..][m..] == queue[n..];
      assert !Pops(kind, queue[1..], script[1..], m);
      assert m < |script[1..]| ==> script[1..][m] == script[n];
    }
  }

  lemma FailedSound(kind: SocketType, queue: seq<Bytes>, script: seq<SendReply>, e: Thrown)
    requires |queue| > 0 && Send(script, queue[0]) == SendFailed(e)
    ensures Pumped(kind, queue, script, WritePump(queue, [], Rest(script), !IsWouldBlock(e)))
  {
    assert queue[|queue| - |queue| + 1..] == queue[1..];
  }

  lemma PartialSound(kind: SocketType, queue: seq<Bytes>, script: seq<SendReply>, k: nat)
    requires |queue| > 0 && Send(script, queue[0]) == Sent(k) && k < |queue[0]| && kind == Stream
    ensures k > 0 ==> Pumped(kind, queue, script, WritePump([queue[0][k..]] + queue[1..], [queue[0][..k]], Rest(script), false))
    ensures k == 0 ==> Pumped(kind, queue, script, WritePump(queue, [[]], Rest(script), false))
  {
    if k > 0 {
      WritePartialStep(queue, k);
      assert ([queue[0][k..]] + queue[1..])[1..] == queue[1..];
    } else {
      FlattenSingle([]);
    }
  }

  /** Dropping the head and then `j` more elements drops `j + 1`. */
  lemma DropShift<T>(s: seq<T>, j: nat)
    requires 0 < |s| && j <= |s| - 1
    ensures s[1..][j..] == s[j + 1..]
    ensures j < |s| - 1 ==> s[1..][j + 1..] == s[j + 2..]
  {
  }

  lemma PopSound(kind: SocketType, queue: seq<Bytes>, script: seq<SendReply>, k: nat, tail: WritePump)
    requires |queue| > 0 && Send(script, queue[0]) == Sent(k) && (k == |queue[0]| || kind == Datagram)
    requires Pumped(kind, queue[1..], Rest(script), tail)
    ensures Pumped(kind, queue, script, tail.(sends := [queue[0][..k]] + tail.sends))
  {
    if kind == Stream {
      assert queue[0][..k] == queue[0];
      PopStream(queue, tail.sends, tail.queue);
    } else {
      PopDatagram(queue, k, tail.sends);
    }
    DropShift(queue, |queue[1..]| - |tail.queue|);
    FailsHardShift([], script, |queue[1..]| - |tail.queue|);
  }

  /** A whole head sent, then the rest of the loop: the bytes still add up. */
  lemma PopStream(queue: seq<Bytes>, sends: seq<Bytes>, left: seq<Bytes>)
    requires |queue| > 0 && Flatten(sends) + Flatten(left) == Flatten(queue[1..])
    ensures Flatten([queue[0]] + sends) + Flatten(left) == Flatten(queue)
  {
    FlattenCons(queue[0], sends);
    calc {
      Flatten([queue[0]] + sends) + Flatten(left);
      (queue[0] + Flatten(sends)) + Flatten(left);
      queue[0] + (Flatten(sends) + Flatten(left));
      queue[0] + Flatten(queue[1..]);
    }
  }

  /** A head cut to a prefix, then prefixes of the following heads. */
  lemma PopDatagram(queue: seq<Bytes>, k: nat, sends: seq<Bytes>)
    requires |queue| > 0 && k <= |queue[0]| && |sends| <= |queue| - 1
    requires forall i :: 0 <= i < |sends| ==> IsPrefix(sends[i], queue[1..][i])
    ensures forall i :: 0 <= i < |sends| + 1 ==> IsPrefix(([queue[0][..k]] + sends)[i], queue[i])
  {
    forall i | 0 <= i < |sends| + 1
      ensures IsPrefix(([queue[0][..k]] + sends)[i], queue[i])
    {
      if i > 0 {
        assert ([queue[0][..k]] + sends)[i] == sends[i - 1] && queue[1..][i - 1] == queue[i];
      }
    }
  }

  lemma WritePartialStep(queue: seq<Bytes>, k: nat)
    requires |queue| > 0 && 0 < k < |queue[0]|
    ensures Flatten([queue[0][..k]]) + Flatten([queue[0][k..]] + queue[1..]) == Flatten(queue)
  {
    FlattenSingle(queue[0][..k]);
    FlattenCons(queue[0][k..], queue[1..]);
    calc {
      Flatten([queue[0][..k]]) + Flatten([queue[0][k..]] + queue[1..]);
      queue[0][..k] + (queue[0][k..] + Flatten(queue[1..]));
      (queue[0][..k] + queue[0][k..]) + Flatten(queue[1..]);
      { assert queue[0][..k] + queue[0][k..] == queue[0]; }
      queue[0] + Flatten(queue[1..]);
    }
  }

}
