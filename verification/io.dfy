/**
 The non-blocking socket, replaced by an oracle. A script lists the socket's answers to
 successive calls; each answer is cut to what the call asked for (a `recv(n)` never yields
 more than `n` bytes, a `send(d)` never accepts more than `|d|`), so every behaviour a real
 socket may show is the run of some script. An exhausted script answers EAGAIN.
 */
module Io {
  import opened Octets
  import opened Posix

  datatype RecvReply = Received(bytes: Bytes) | RecvFailed(err: Thrown)

  datatype SendReply = Sent(count: nat) | SendFailed(err: Thrown)

  const Eagain: Thrown := Posix(POSIXError(EAGAIN))

  /** The script after one call has consumed its head. */
  function Rest<T>(script: seq<T>): (r: seq<T>)
    ensures |script| > 0 ==> r == script[1..]
    ensures |script| == 0 ==> r == []
  {
    if |script| == 0 then [] else script[1..]
  }

  /** The socket's answer to `recv(length: n)`. */
  function Recv(script: seq<RecvReply>, n: nat): (r: RecvReply)
    ensures r.Received? ==> |r.bytes| <= n
    ensures |script| == 0 ==> r == RecvFailed(Eagain)
    ensures |script| > 0 && script[0].Received? ==> r == Received(Take(script[0].bytes, n))
    ensures |script| > 0 && script[0].RecvFailed? ==> r == script[0]
  {
    if |script| == 0 then RecvFailed(Eagain)
    else match script[0]
      case Received(b) => Received(Take(b, n))
      case RecvFailed(e) => RecvFailed(e)
  }

  /** The socket's answer to `send(buffer: data)`: how many leading bytes it accepted. */
  function Send(script: seq<SendReply>, data: Bytes): (r: SendReply)
    ensures r.Sent? ==> r.count <= |data|
    ensures |script| == 0 ==> r == SendFailed(Eagain)
    ensures |script| > 0 && script[0].Sent? ==> r == Sent(Min(script[0].count, |data|))
    ensures |script| > 0 && script[0].SendFailed? ==> r == script[0]
  {
    if |script| == 0 then SendFailed(Eagain)
    else match script[0]
      case Sent(k) => Sent(Min(k, |data|))
      case SendFailed(e) => SendFailed(e)
  }

  /**
   Whether the `i`th call made on a script meets an error other than a would-block (an
   exhausted script answers EAGAIN, which is a would-block).
   */
  predicate RecvFailsHard(script: seq<RecvReply>, i: nat)
  {
    i < |script| && script[i].RecvFailed? && !IsWouldBlock(script[i].err)
  }

  predicate SendFailsHard(script: seq<SendReply>, i: nat)
  {
    i < |script| && script[i].SendFailed? && !IsWouldBlock(script[i].err)
  }

  /** The `i`th call on what is left after one call is the `i + 1`th call on the whole script. */
  lemma FailsHardShift(recvs: seq<RecvReply>, sends: seq<SendReply>, i: nat)
    ensures RecvFailsHard(Rest(recvs), i) <==> RecvFailsHard(recvs, i + 1)
    ensures SendFailsHard(Rest(sends), i) <==> SendFailsHard(sends, i + 1)
  {
  }
}
