/**
 The listening and connecting side of `DispatchSocket`: the listen options, the accept
 handler that `listen(handler:)` installs, and the aggregation of parallel connection
 attempts in `connect(to:[sockaddr_in6])`.
 */
module DispatchListen {
  import opened Posix
  import opened TransferQueue
  import opened DispatchSocket

  /** The raw value of a `ListenOptions` set: a 64-bit `Int`. */
  type ListenOptions = bv64

  const ReuseAddress: ListenOptions := 1
  const Ip6Only: ListenOptions := 2

  /** `OptionSet.contains`: every bit of `member` is set in `options`. */
  predicate Contains(options: ListenOptions, member: ListenOptions)
  {
    options & member == member
  }

  /** The options holding exactly the given members. */
  function OptionsOf(reuseAddress: bool, ip6Only: bool): (o: ListenOptions)
    ensures Contains(o, ReuseAddress) == reuseAddress
    ensures Contains(o, Ip6Only) == ip6Only
    ensures o & !(ReuseAddress | Ip6Only) == 0
  {
    (if reuseAddress then ReuseAddress else 0) | (if ip6Only then Ip6Only else 0)
  }

  /** The socket options `listen(address:options:)` sets from a `ListenOptions` value. */
  datatype SocketConfig = SocketConfig(reuseAddress: bool, ip6Only: bool)

  function ConfigOf(options: ListenOptions): (c: SocketConfig)
    ensures c.reuseAddress <==> options & ReuseAddress != 0
    ensures c.ip6Only <==> options & Ip6Only != 0
  {
    SocketConfig(Contains(options, ReuseAddress), Contains(options, Ip6Only))
  }

  /**
   The two options are independent: reading the configuration back from the options that
   hold exactly its members gives it back, and the options of a configuration read from any
   value are that value restricted to the two known bits.
   */
  lemma ConfigRoundTrip(c: SocketConfig, o: ListenOptions)
    ensures ConfigOf(OptionsOf(c.reuseAddress, c.ip6Only)) == c
    ensures OptionsOf(ConfigOf(o).reuseAddress, ConfigOf(o).ip6Only) == o & (ReuseAddress | Ip6Only)
  {
  }

  /** What `listen(handler:)` leaves behind, and the error `socket.listen()` threw, if any. */
  datatype ListenOut = ListenOut(ch: Channel, thrown: Option<Thrown>)

  /**
   `listen(handler:)`: on an open channel with no readable handler, installs the accept
   handler and then starts listening; a closed channel, or one whose readable handler is
   taken, is left alone without error. The handler stays installed when `listen()` fails.
   */
  function Listen(ch: Channel, listenError: Option<Thrown>): (o: ListenOut)
    requires Valid(ch)
    ensures Valid(o.ch)
    ensures !ch.isOpen || ch.onReadable.Some? ==> o == ListenOut(ch, None)
    ensures ch.isOpen && ch.onReadable == None ==>
              && o.ch.onReadable == Some(Accepting) && o.ch.rs.running
              && o.thrown == listenError && o.ch.writeQueue == ch.writeQueue
  {
    if !ch.isOpen || ch.onReadable.Some? then ListenOut(ch, None)
    else ListenOut(SetOnReadable(ch, Some(Accepting)), listenError)
  }

  /** A listening channel and the options its socket was given. */
  datatype Listener = Listener(config: SocketConfig, ch: Channel)

  /**
   `listen(address:options:handler:)`: create a stream socket, set the two options from the
   option set, bind, wrap and listen. The first step that fails decides the thrown error.
   */
  function ListenAt(options: ListenOptions, createError: Option<Thrown>, bindError: Option<Thrown>,
                    listenError: Option<Thrown>): (o: Outcome<Listener, Thrown>)
    ensures o.Returns? <==> createError == None && bindError == None && listenError == None
    ensures o.Returns? ==> && o.value.config == ConfigOf(options)
                           && o.value.ch.kind == Stream && o.value.ch.isOpen && Valid(o.value.ch)
                           && o.value.ch.onReadable == Some(Accepting)
    ensures createError.Some? ==> o == Throws(createError.value)
    ensures createError == None && bindError.Some? ==> o == Throws(bindError.value)
    ensures createError == None && bindError == None && listenError.Some? ==> o == Throws(listenError.value)
  {
    if createError.Some? then Throws(createError.value)
    else if bindError.Some? then Throws(bindError.value)
    else
      var l := Listen(Init(Stream), listenError);
      if l.thrown.Some? then Throws(l.thrown.value) else Returns(Listener(ConfigOf(options), l.ch))
  }

  /** A readable event on a listening channel accepts at most one connection per event. */
  lemma AcceptOnePerEvent(l: Listener, available: nat, accept: Option<nat>)
    requires Valid(l.ch) && l.ch.isOpen && l.ch.onReadable == Some(Accepting)
    ensures Readable(l.ch, available, [], accept).accepted == (if accept.Some? then [accept.value] else [])
    ensures Readable(l.ch, available, [], accept).ch == l.ch
  {
  }

  /** What one of the parallel `connect(to:)` attempts reports: a socket or an error. */
  datatype ConnectResult = Success(socket: nat) | Failure(error: nat)

  /** The report of attempt `index`, in the order the reports reach the main queue. */
  datatype Arrival = Arrival(index: nat, result: ConnectResult)

  /** The completion of `connect(to:[sockaddr_in6])`. */
  datatype Completion = Connected(socket: nat) | AllFailed(errors: seq<nat>)

  /** The captured state of `connect(to:[sockaddr_in6])`: `errors`, `pending`, and completions issued. */
  datatype Aggregator = Aggregator(errors: seq<Option<nat>>, pending: nat, calls: seq<Completion>)

  function Start(n: nat): (a: Aggregator)
    ensures |a.errors| == n && a.pending == n && a.calls == []
    ensures forall i :: 0 <= i < n ==> a.errors[i] == None
  {
    Aggregator(seq(n, _ => None), n, [])
  }

  /** `errors.flatMap { $0 }`: the recorded errors in attempt order. */
  function Compact(s: seq<Option<nat>>): (r: seq<nat>)
    ensures |r| <= |s|
  {
    if |s| == 0 then []
    else (if s[0].Some? then [s[0].value] else []) + Compact(s[1..])
  }

  /** One report reaching the per-attempt completion closure. */
  function Deliver(a: Aggregator, x: Arrival): (r: Aggregator)
    requires x.index < |a.errors|
    ensures |r.errors| == |a.errors| && r.pending <= a.pending
    ensures a.pending == 0 ==> r == a
    ensures |r.calls| == |a.calls| + (if a.pending > 0 && r.pending == 0 then 1 else 0)
  {
    if a.pending == 0 then a
    else match x.result
      case Success(s) => a.(calls := a.calls + [Connected(s)], pending := 0)
      case Failure(e) =>
        var errors := a.errors[x.index := Some(e)];
        var pending := a.pending - 1;
        Aggregator(errors, pending, if pending == 0 then a.calls + [AllFailed(Compact(errors))] else a.calls)
  }

  /** The aggregator after the given reports, in arrival order. */
  function Aggregate(n: nat, arrivals: seq<Arrival>): (a: Aggregator)
    requires forall k :: 0 <= k < |arrivals| ==> arrivals[k].index < n
    ensures |a.errors| == n
  {
    if |arrivals| == 0 then Start(n)
    else Deliver(Aggregate(n, arrivals[..|arrivals| - 1]), arrivals[|arrivals| - 1])
  }

  /** Each attempt reports once: indices are attempt numbers, pairwise different. */
  predicate Distinct(n: nat, arrivals: seq<Arrival>)
  {
    && (forall k :: 0 <= k < |arrivals| ==> arrivals[k].index < n)
    && (forall j, k :: 0 <= j < k < |arrivals| ==> arrivals[j].index != arrivals[k].index)
  }

  /** The socket of the earliest successful report, if there is one. */
  function FirstSuccess(arrivals: seq<Arrival>): (r: Option<nat>)
    ensures r.Some? <==> exists k :: 0 <= k < |arrivals| && arrivals[k].result.Success?
  {
    if |arrivals| == 0 then None
    else
      var earlier := FirstSuccess(arrivals[..|arrivals| - 1]);
      var last := arrivals[|arrivals| - 1];
      if earlier.Some? then earlier
      else if last.result.Success? then Some(last.result.socket)
      else
        assert forall k :: 0 <= k < |arrivals| - 1 ==> arrivals[k] == arrivals[..|arrivals| - 1][k];
        None
  }

  /** The error reported by attempt `i`, if it reported one. */
  function ErrorOf(arrivals: seq<Arrival>, i: nat): (r: Option<nat>)
    ensures r.Some? ==> exists k :: 0 <= k < |arrivals| && arrivals[k] == Arrival(i, Failure(r.value))
  {
    if |arrivals| == 0 then None
    else
      var last := arrivals[|arrivals| - 1];
      if last.index == i && last.result.Failure? then Some(last.result.error)
      else
        var earlier := arrivals[..|arrivals| - 1];
        var r := ErrorOf(earlier, i);
        assert r.Some? ==> exists k :: 0 <= k < |earlier| && earlier[k] == Arrival(i, Failure(r.value));
        assert forall k :: 0 <= k < |earlier| ==> earlier[k] == arrivals[k];
        r
  }

  function CountSome(s: seq<Option<nat>>): (c: nat)
    ensures c <= |s|
  {
    if |s| == 0 then 0 else (if s[0].Some? then 1 else 0) + CountSome(s[1..])
  }

  lemma {:induction false} CountSomeNone(s: seq<Option<nat>>)
    requires forall i :: 0 <= i < |s| ==> s[i] == None
    ensures CountSome(s) == 0
    decreases |s|
  {
    if |s| > 0 {
      CountSomeNone(s[1..]);
    }
  }

  lemma {:induction false} CountSomeUpdate(s: seq<Option<nat>>, i: nat, e: nat)
    requires i < |s| && s[i] == None
    ensures CountSome(s[i := Some(e)]) == CountSome(s) + 1
    decreases |s|
  {
    if i > 0 {
      assert s[i := Some(e)][1..] == s[1..][i - 1 := Some(e)];
      CountSomeUpdate(s[1..], i - 1, e);
    }
  }

  lemma {:induction false} CountSomeFull(s: seq<Option<nat>>)
    requires CountSome(s) == |s|
    ensures forall i :: 0 <= i < |s| ==> s[i].Some?
    ensures Compact(s) == seq(|s|, i requires 0 <= i < |s| => s[i].value)
    decreases |s|
  {
    if |s| > 0 {
      CountSomeFull(s[1..]);
      assert forall i :: 0 < i < |s| ==> s[i] == s[1..][i - 1];
    }
  }

  /** How the aggregator stands after a list of reports (the induction hypothesis). */
  predicate Standing(n: nat, arrivals: seq<Arrival>, a: Aggregator)
  {
    && |a.errors| == n
    && (FirstSuccess(arrivals).Some? ==> a.pending == 0 && a.calls == [Connected(FirstSuccess(arrivals).value)])
    && (FirstSuccess(arrivals).None? ==>
          && |arrivals| <= n && a.pending == n - |arrivals| && CountSome(a.errors) == |arrivals|
          && (forall i :: 0 <= i < n ==> a.errors[i] == ErrorOf(arrivals, i))
          && a.calls == (if n > 0 && |arrivals| == n then [AllFailed(Compact(a.errors))] else []))
  }

  lemma {:induction false} AggregateStanding(n: nat, arrivals: seq<Arrival>)
    requires Distinct(n, arrivals)
    ensures Standing(n, arrivals, Aggregate(n, arrivals))
    decreases |arrivals|
  {
    if |arrivals| == 0 {
      CountSomeNone(Start(n).errors);
    } else {
      var p := arrivals[..|arrivals| - 1];
      var x := arrivals[|arrivals| - 1];
      assert Distinct(n, p) by {
        assert forall k :: 0 <= k < |p| ==> p[k] == arrivals[k];
      }
      AggregateStanding(n, p);
      var a := Aggregate(n, p);
      if FirstSuccess(p).None? {
        assert a.errors[x.index] == None;
        assert a.pending > 0 by {
          if a.pending == 0 {
            CountSomeFull(a.errors);
          }
        }
        match x.result
        case Success(s) =>
        case Failure(e) =>
          var errors := a.errors[x.index := Some(e)];
          CountSomeUpdate(a.errors, x.index, e);
          assert forall i :: 0 <= i < n ==> errors[i] == ErrorOf(arrivals, i);
      }
    }
  }

  /**
   What `connect(to:[sockaddr_in6])` reports, given the reports of its attempts in arrival
   order: the completion runs at most once; it reports the socket of the earliest success
   if any attempt succeeds; otherwise it reports failure exactly when every attempt has
   failed, listing every attempt's error in attempt order; with no addresses it never runs.
   */
  lemma ConnectToMany(n: nat, arrivals: seq<Arrival>)
    requires Distinct(n, arrivals)
    ensures var a := Aggregate(n, arrivals);
      && |a.calls| <= 1
      && (FirstSuccess(arrivals).Some? ==> a.calls == [Connected(FirstSuccess(arrivals).value)])
      && (FirstSuccess(arrivals).None? && (|arrivals| < n || n == 0) ==> a.calls == [])
      && (FirstSuccess(arrivals).None? && |arrivals| == n && n > 0 ==>
            && |a.calls| == 1 && a.calls[0].AllFailed? && |a.calls[0].errors| == n
            && forall i :: 0 <= i < n ==> ErrorOf(arrivals, i) == Some(a.calls[0].errors[i]))
  {
    AggregateStanding(n, arrivals);
    var a := Aggregate(n, arrivals);
    if FirstSuccess(arrivals).None? && |arrivals| == n && n > 0 {
      CountSomeFull(a.errors);
    }
  }
}
