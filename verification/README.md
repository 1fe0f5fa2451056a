# SwiftySockets: the queue-and-pump core in Dafny

SwiftySockets wraps a non-blocking BSD socket (`Socket6`) in channel objects. Each object
keeps a FIFO of read requests and a FIFO of write payloads. It "pumps" those queues whenever
the socket becomes readable or writable.

- `DispatchSocket` drives one callback per direction through a pair of GCD sources. Its
  `listen`/`connect` extension adds an accept handler and a parallel-connect aggregator.
- `BufferedSocket` queues any number of reads and writes over the readable and writable
  delegates.
- `SecureTransportSocket` runs the same queues through a Secure Transport TLS session. The
  session calls back into the socket for ciphertext.
- `StreamSocket` runs the queues over a CFStream pair.
- The two `DatagramSocket` classes queue `sendto` calls and deliver received datagrams.
- `sockaddr_in6` is the address value.
- `POSIXError`/`Result` is the error vocabulary.
- `Socket6+properties` holds the option getters and setters.

Every object is modelled as an immutable datatype, and every operation as a pure function
from state and inputs to new state and outputs. The kernel, the TLS engine and the streams
are scripts of replies consumed one per call: a `recv` or `send` answer, or an `SSLHandshake`
result with the I/O it requests. An exhausted script answers EAGAIN. Any legal behaviour of
the environment is some script, so a property proved for every script holds whatever the
peer does. Completion handlers and delegate callbacks become outputs: the completed
requests with their bytes, the datagrams delivered, and the notices raised.

The constants are Darwin's:
- EAGAIN = EWOULDBLOCK = 35.
- AF_INET = 2, AF_INET6 = 30.
- `sizeof(sockaddr_in6)` = 28, `sizeof(sockaddr_in)` = 16.
- The socket option levels and names in `SocketProperties`.
- The Secure Transport status codes in `SecureTransport`.
- `NET_SERVICE_TYPE_*` = 0..8.

Every Apple target is little-endian, so `.bigEndian` is a byte swap.

Modules: `Octets`, `Posix`, `Io`, `TransferQueue`, `BufferedSocket`, `DispatchSocket`,
`DispatchListen`, `SecureSocket`, `SecureTransport`, `StreamSocket`, `DatagramQueue`,
`DatagramSocket`, `LegacyDatagramSocket`, `Sockaddr`, `LegacySockaddr`, `SocketProperties`.
`Octets` holds bytes and concatenation, `Io` the scripted socket, `TransferQueue` the read
item shared by the buffered and TLS sockets, and `DatagramQueue` the send-queue drain and the
receive loop shared by both datagram sockets.

Where the code and its documentation disagree, the model follows the code:
- In `BufferedSocket`, a zero-byte `recv` does not close the socket; only a readable event
  whose count is zero does. A completion may carry anything from `min` to `max` bytes.
- The `DispatchSocket` write handler never clears `onWritable` when its queue drains.
- A failed TLS handshake neither closes the socket nor remembers the failure. The next event
  tries again and reports the failure again.

Four defects listed under Findings are not fixed in the model but carried as a choice
between the code as written and the corrected code:
- the completion test of the stream read (`StreamSocket.Threshold`);
- the I/O functions registered with the TLS engine (`SecureTransport.IoFuncs`);
- the IPv4 conversion `init(sa:)` (`Sockaddr.SaInit`);
- the private initialiser of both datagram sockets (`DatagramQueue.Initialiser`).

Every operation built on one of them takes the choice as a parameter, and its contract
says what holds under each.

## Model

| member | source | states |
|---|---|---|
| `Posix.AccessorsExclusive` | Sources/POSIXError.swift:27-46 | Exactly one of `result` and `error` is non-nil. `unwrap` returns the value `result` exposes, or throws the value `error` exposes. |
| `Posix.Equals` | Sources/POSIXError.swift:67-71 | Two `POSIXError`s are equal exactly when their codes are, and equal errors hash alike. |
| `Posix.Matches` | Sources/POSIXError.swift:73-75 | The catch pattern `POSIXError(c)` matches a thrown error exactly when that error is a `POSIXError` with code `c`. |
| `SecureSocket.DescriptionsDistinct` | Sources/SecureSocket.swift:11-20 | The three handshake errors have distinct descriptions. |
| `TransferQueue.PumpWrites` | Sources/BufferedSocket.swift:122-146 | Each send is answered by the next reply. The heads popped are exactly those whose reply took the whole head (on a datagram socket, any `Sent` reply), each sent cut to the count accepted. The loop stops at the first other reply and consumes it: a short positive stream send keeps the unsent suffix at the head, and a failure or an exhausted script leaves the queue from that head on as it was. On a stream the bytes sent, then the bytes kept, are the queued bytes. The loop asks for a close exactly when it stopped on a send that failed with an error other than would-block. |
| `BufferedSocket.Open` | Sources/DispatchSocket.swift:82-91 | A new channel is open, well formed, of the given type, with both queues empty. |
| `BufferedSocket.Close` | Sources/BufferedSocket.swift:18-22 | Closing empties both queues and disarms both delegates; a second close leaves the delegates as they were. |
| `BufferedSocket.CloseIdempotent` | Sources/BufferedSocket.swift:18-22 | Closing twice is closing once, and closing keeps the channel well formed. |
| `BufferedSocket.Read` | Sources/BufferedSocket.swift:48-55 | An open socket appends one empty request with the caller's bounds at the tail of the read queue and arms reading, touching nothing else. A closed one ignores the call. |
| `BufferedSocket.ReadExact` | Sources/BufferedSocket.swift:29-31 | Queues a request whose minimum and maximum are both `count`. |
| `BufferedSocket.ReadUpTo` | Sources/BufferedSocket.swift:38-40 | Queues a request for 1 to `max` bytes. |
| `BufferedSocket.PumpReads` | Sources/BufferedSocket.swift:70-88 | Each `recv` asks for min(max − buffered, count) and is answered by the next reply. The completed requests are exactly the heads whose reply filled them to their minimum, in order. The loop stops at the first reply that leaves its head short, which keeps the filled head, or that fails, which leaves the queue from that head on as it was; that reply is consumed. Every byte buffered or received ends up in a completed or pending buffer. The loop asks for a close exactly when it stopped on a `recv` that failed with an error other than would-block. |
| `BufferedSocket.Readable` | Sources/BufferedSocket.swift:65-93 | A zero count closes the socket. Otherwise the completions and the requests left are the read loop's against the `recv` replies, as for `BufferedSocket.PumpReads`, so each completion meets its minimum and every byte is accounted for. The socket stays open exactly when it was open, the count is nonzero and no `recv` failed with an error other than would-block. |
| `BufferedSocket.Write` | Sources/BufferedSocket.swift:105-120 | With older data queued, the data is queued behind it and no reply is used. Otherwise one send is tried against the next reply. A positive count sends that prefix and queues the rest of a stream payload, and nothing for a whole send or a datagram. A zero count or a failure queues the whole payload. On a stream the bytes sent plus the bytes queued are the old queue plus the data. |
| `BufferedSocket.Writable` | Sources/BufferedSocket.swift:122-146 | The sends and the queue left are the write loop's against the send replies, as for `TransferQueue.PumpWrites`: whole heads pop, a short stream send keeps its suffix and stops, and a failure stops. Stream bytes go out in queue order with the remainder kept, and an open datagram socket keeps exactly the packets not yet sent. An open socket closes exactly when a send fails with an error other than would-block, and a closed socket sends nothing. |
| `BufferedSocket.ApplySound` | Sources/BufferedSocket.swift:18-146 | Every single call or event keeps completions satisfied and in request order, and keeps stream bytes conserved. A closed socket stays silent. |
| `BufferedSocket.Run` | Sources/BufferedSocket.swift:18-146 | Over any sequence of calls and events, every completion meets its minimum. Completions arrive in the order the reads were issued. Stream output is exactly the written data in order, and a closed socket produces nothing. |
| `DispatchSocket.NewSource` | Sources/DispatchSocket.swift:24-32 | A new `Source` is stopped, has no GCD source yet, and holds its event handler. |
| `DispatchSocket.Create` | Sources/DispatchSocket.swift:36-41 | The GCD source is created only once, on first start. |
| `DispatchSocket.Resume` | Sources/DispatchSocket.swift:36-41 | Starting a stopped source resumes it: resumes and suspensions keep alternating. |
| `DispatchSocket.Suspend` | Sources/DispatchSocket.swift:42-43 | Stopping a running source suspends it: resumes and suspensions keep alternating. |
| `DispatchSocket.SetRunning` | Sources/DispatchSocket.swift:34-47 | Setting `running` to its current value does nothing. Starting creates the source if needed, then resumes it; stopping suspends it. GCD never sees two resumes or two suspends in a row. |
| `DispatchSocket.Cancel` | Sources/DispatchSocket.swift:49-58 | Cancelling stops the source, drops the handler and the GCD source, and cancels it exactly when one exists. |
| `DispatchSocket.ApplySourceOps` | Sources/DispatchSocket.swift:24-59 | Any sequence of start, stop and cancel keeps the resume/suspend log alternating and only extends it. |
| `DispatchSocket.Init` | Sources/DispatchSocket.swift:82-91 | A new socket is open with no callbacks and both sources stopped. |
| `DispatchSocket.SetOnReadable` | Sources/DispatchSocket.swift:77 | After setting `onReadable`, the read source runs exactly when the socket is open and a handler is set. |
| `DispatchSocket.SetOnWritable` | Sources/DispatchSocket.swift:80 | After setting `onWritable`, the write source runs exactly when the socket is open and a handler is set. |
| `DispatchSocket.Close` | Sources/DispatchSocket.swift:93-102 | Closing an open socket clears both callbacks and the write queue, cancels both sources and closes the descriptor. Closing a closed socket changes nothing. |
| `DispatchSocket.CloseIdempotent` | Sources/DispatchSocket.swift:93-102 | Closing twice is closing once. |
| `DispatchSocket.Read` | Sources/DispatchSocket.swift:136-162 | A read installs one reading handler with an empty buffer and starts the read source. It is ignored when the socket is closed or another handler is installed. |
| `DispatchSocket.ReadExact` | Sources/DispatchSocket.swift:115-117 | Installs a reader whose minimum and maximum are both `count`. |
| `DispatchSocket.ReadUpTo` | Sources/DispatchSocket.swift:125-127 | Installs a reader for 1 to `max` bytes. |
| `DispatchSocket.Readable` | Sources/DispatchSocket.swift:142-161 | With a reader and a nonzero count, exactly one `recv` is made, for the room the request has left. The bytes received are that reply cut to the room, or nothing on a failure, and they extend the buffer. The read completes, removes the handler and stops the source exactly when the buffer reaches its minimum. A reading socket closes exactly when that `recv` fails with an error other than would-block. A zero count changes nothing and uses no reply, and without a reader nothing happens. |
| `DispatchSocket.HandleRead` | Sources/DispatchSocket.swift:143-161 | The installed reading handler does nothing on a zero count. Otherwise it makes one `recv` for `max − buffered` bytes and consumes that reply. The bytes received are the reply cut to that size, or nothing on a failure, and they extend the buffer. The read completes and removes the handler exactly when the minimum is reached. The socket closes exactly when the `recv` fails with an error other than would-block. |
| `DispatchSocket.Write` | Sources/DispatchSocket.swift:174-178 | An open socket appends the data to the write queue and starts the write source. A closed one ignores the call. |
| `DispatchSocket.Writable` | Sources/DispatchSocket.swift:179-197 | With a write handler, the sends and the queue left are the write loop's against the send replies, as for `TransferQueue.PumpWrites`. Stream bytes go out in order with the unsent rest kept, and an open datagram socket keeps exactly the packets not yet sent. The socket stays open exactly when no send fails with an error other than would-block. Nothing happens without a write handler. |
| `DispatchSocket.DrainedWriterKeepsRunning` | Sources/DispatchSocket.swift:179-197 | After the queue drains on an open socket, the write source is still running. |
| `DispatchListen.OptionsOf` | Sources/DispatchSocket+listen.swift:14-23 | `reuseAddress` is bit 0 and `ip6Only` is bit 1; an option set contains each exactly when requested, and no other bit. |
| `DispatchListen.ConfigOf` | Sources/DispatchSocket+listen.swift:39-40 | The socket gets `SO_REUSEADDR` and `IPV6_V6ONLY` exactly when the options contain them. |
| `DispatchListen.ConfigRoundTrip` | Sources/DispatchSocket+listen.swift:14-40 | Options and socket configuration convert back and forth without loss on the two defined bits. |
| `DispatchListen.Listen` | Sources/DispatchSocket+listen.swift:25-35 | `listen(handler:)` installs the accept handler, starts the read source and rethrows the `listen` error. It does nothing when the socket is closed or a handler is already set. |
| `DispatchListen.ListenAt` | Sources/DispatchSocket+listen.swift:37-46 | `listen(address:options:)` succeeds exactly when create, bind and listen all succeed. It throws the first failure's own error (create, then bind, then listen), and on success returns an open stream socket accepting connections with the requested options. |
| `DispatchListen.AcceptOnePerEvent` | Sources/DispatchSocket+listen.swift:29-33 | Each readable event on a listener hands at most one accepted socket to the handler and leaves the listener as it was. |
| `DispatchListen.Start` | Sources/DispatchSocket+listen.swift:81-82 | The aggregator starts with one empty error slot per address and all of them pending. |
| `DispatchListen.Deliver` | Sources/DispatchSocket+listen.swift:85-98 | One result never raises the pending count. The completion fires at most once, exactly when pending drops to zero, and results after that are ignored. |
| `DispatchListen.AggregateStanding` | Sources/DispatchSocket+listen.swift:80-100 | While results arrive, pending is the number of addresses not yet failed (zero after a success), and each failed slot holds that address's error. |
| `DispatchListen.ConnectToMany` | Sources/DispatchSocket+listen.swift:80-100 | The completion runs at most once: with the first successful socket if any attempt succeeds, otherwise with every error in address order once all have failed. |
| `SecureTransport.ClassifyTable` | Sources/SecureTransportSocket.swift:185-189 | An unknown or missing root certificate is `invalidCert`, an expired one `expiredCert`, and every other status `unknown`. |
| `SecureTransport.Init` | Sources/SecureTransportSocket.swift:59-89 | A new TLS socket is open, with the handshake not yet done and neither delegate installed. |
| `SecureTransport.UpdateDelegates` | Sources/SecureTransportSocket.swift:140-143 | The readable (writable) delegate is installed exactly when the socket is open and reading (writing) is blocked. |
| `SecureTransport.SetReadBlocked` | Sources/SecureTransportSocket.swift:137 | Setting `readBlocked` refreshes the delegates only on a change, and keeps them in agreement with the flags. |
| `SecureTransport.SetWriteBlocked` | Sources/SecureTransportSocket.swift:138 | Setting `writeBlocked` refreshes the delegates only on a change, and keeps them in agreement with the flags. |
| `SecureTransport.Close` | Sources/SecureTransportSocket.swift:91-96 | Closing drops both queues and the TLS context and removes both delegates. |
| `SecureTransport.CloseIdempotent` | Sources/SecureTransportSocket.swift:91-96 | Closing twice is closing once. |
| `SecureTransport.HandleRead` | Sources/SecureTransportSocket.swift:98-117 | The read callback returns `noErr` exactly when the whole request arrived, clearing `readBlocked`; otherwise it returns would-block and sets it. An empty read or a hard error closes the socket. |
| `SecureTransport.HandleWrite` | Sources/SecureTransportSocket.swift:119-135 | The write callback returns `noErr` exactly when everything was sent, clearing `writeBlocked`; otherwise it returns would-block and sets it. Only a hard error closes the socket. |
| `SecureTransport.RunIo` | Sources/SecureTransportSocket.swift:77-86 | The engine's I/O requests each get one status. They never reopen the socket and never touch the plaintext queues while it is open. |
| `SecureTransport.CheckHandshake` | Sources/SecureTransportSocket.swift:167-191 | Under either registration of the I/O functions, one `SSLHandshake` status decides an open, incomplete handshake. `noErr` completes it and announces success. Would-block waits without a notice. Any other status, apart from peer-authentication-completed, reports its classified failure and lets nothing through. A complete handshake passes without an engine call, and a closed socket does nothing. The handshake is complete afterwards exactly when it was before or this call succeeded. |
| `SecureTransport.PeerAuthStepsAgain` | Sources/SecureTransportSocket.swift:177-179 | A peer-authentication-completed status consumes one engine reply and is followed at once by another handshake step, whose outcome is the call's. |
| `SecureTransport.PumpReads` | Sources/SecureTransportSocket.swift:211-233 | Under either registration of the I/O functions: decrypted bytes fill the requests in order. Completions are a prefix of the queue and each meets its minimum. Every plaintext byte ends up in a completed or pending buffer. How each `SSLRead` reply is used is `SecureTransport.PumpReadsDecrypted`. |
| `SecureTransport.PumpReadsDecrypted` | Sources/SecureTransportSocket.swift:211-233 | Each `SSLRead` is answered by the engine's next reply. The completed requests are exactly the heads that reply fills to their minimum, each holding its old buffer and the plaintext that fits. The pump stops at the first reply that brings nothing, which leaves the queue, or too little, which keeps the filled head, or when the session closed or the engine has no reply left. |
| `SecureTransport.PumpWrites` | Sources/SecureTransportSocket.swift:244-257 | Under either registration of the I/O functions: the plaintext handed to `SSLWrite` is a prefix of the queued bytes in order, and the rest stays queued. How each `SSLWrite` reply is used is `SecureTransport.PumpWritesEncrypted`. |
| `SecureTransport.PumpWritesEncrypted` | Sources/SecureTransportSocket.swift:244-257 | Each `SSLWrite` is answered by the engine's next reply. The payloads popped and sent are exactly the heads whose reply wrote them whole. While the session stays open, the pump stops at the first reply that writes less: a positive count sends that prefix and keeps the unwritten suffix at the head, and zero leaves the queue. When a call closes the session, only the heads before it were sent, and exactly the replies up to it were used. |
| `SecureTransport.PumpQueues` | Sources/SecureTransportSocket.swift:161-165 | Under either registration of the I/O functions: no plaintext is read or written before the handshake completes. After it, the read and write pumps keep their order and conservation guarantees. |
| `SecureTransport.PumpQueuesAnswered` | Sources/SecureTransportSocket.swift:161-165 | The handshake step decides. When it fails, only its notices and state remain. When it passes, the reads are pumped against the replies it left, as `PumpReadsDecrypted` states, and then the writes against the replies the reads left, as `PumpWritesEncrypted` states. |
| `SecureTransport.Read` | Sources/SecureTransportSocket.swift:202-209 | Under either registration of the I/O functions, a read on an open session is exactly `pumpQueues` on the queue extended by the new request, which `PumpQueuesAnswered` ties to the engine's replies. Completions are a prefix of that queue, and none happen before the handshake. A closed session does nothing. |
| `SecureTransport.ReadExact` | Sources/SecureSocket.swift:88-90 | Under either registration of the I/O functions: if the new request completes in this call, it carries exactly `count` bytes. |
| `SecureTransport.ReadUpTo` | Sources/SecureSocket.swift:92-94 | Under either registration of the I/O functions: if the new request completes in this call, it carries between 1 and `max` bytes. |
| `SecureTransport.Write` | Sources/SecureTransportSocket.swift:238-242 | Under either registration of the I/O functions, a write on an open session is exactly `pumpQueues` on the queue extended by the data, which `PumpQueuesAnswered` ties to the engine's replies. What goes out is a prefix of the queue plus the data, and nothing goes out before the handshake. A closed session does nothing. |
| `SecureTransport.Readable` | Sources/SecureTransportSocket.swift:148-155 | A readable event with count zero closes the socket and announces the disconnect. Any other count pumps the queues, under either registration of the I/O functions. A disconnect is announced exactly for a zero count. |
| `SecureTransport.Writable` | Sources/SecureTransportSocket.swift:157-159 | Under either registration of the I/O functions: a closed socket does nothing. Nothing completes and nothing is sent before the handshake is complete. Completions are a prefix of the queued requests, the bytes sent are a prefix of the queued bytes in order with the rest still queued on an open socket, and no disconnect is announced. |
| `SecureTransport.Apply` | Sources/SecureTransportSocket.swift:148-165 | Under either registration of the I/O functions: one event announces handshake success at most once, and only on the transition. It announces a disconnect exactly for a zero-count readable event, and a completed handshake stays complete. |
| `SecureTransport.Run` | Sources/SecureTransportSocket.swift:148-165 | Under either registration of the I/O functions: over any event sequence, handshake success is announced at most once, exactly when the handshake became complete. Disconnects are announced once per peer close. |
| `SecureTransport.ReadRequestsAsWired` | Sources/SecureTransportSocket.swift:77-86 | With the callbacks as registered, no engine read request ever reaches `recv`, and `readBlocked` never changes. |
| `SecureTransport.IoFuncsCounterexample` | Sources/SecureTransportSocket.swift:77-86 | A 5-byte engine read with 5 bytes waiting gets would-block and arms the writable delegate, as wired. With the read callback wired it gets `noErr` and consumes the bytes. |
| `SecureTransport.ReadRequestsReachSocket` | Sources/SecureTransportSocket.swift:98-117 | With the read callback wired to `handleRead`, each engine read consumes one `recv`. It succeeds exactly when the full count arrived, and otherwise arms the readable delegate while the socket is open. |
| `SecureTransport.HandshakeFailureRepeats` | Sources/SecureTransportSocket.swift:185-189 | Under either registration of the I/O functions, an expired certificate is reported on every event, and the socket stays open with the handshake incomplete. |
| `StreamSocket.Init` | Sources/StreamSocket.swift:22-47 | A new stream socket is open with neither stream ready. |
| `StreamSocket.Close` | Sources/StreamSocket.swift:72-81 | Closing marks the socket closed and keeps its queues and buffer. Closing twice is closing once. |
| `StreamSocket.CloseIdempotent` | Sources/StreamSocket.swift:72-81 | Closing twice is closing once. |
| `StreamSocket.Needed` | Sources/StreamSocket.swift:107-112 | The threshold a read compares against: as written, the request's minimum less what was already buffered; as intended, the minimum itself. |
| `StreamSocket.TryRead` | Sources/StreamSocket.swift:103-135 | One read attempt, when the input is ready, clears readiness and consumes one chunk. At most the head request is delivered, with the whole buffer: never empty, never more than its maximum, at least its minimum less the bytes buffered before as written, and at least its minimum under the intended rule. How the input stream's answer is used is `StreamSocket.TryReadAnswered`. Buffered and received bytes are all delivered or kept, and a waiting head stays below its minimum. |
| `StreamSocket.TryReadAnswered` | Sources/StreamSocket.swift:103-135 | With the input ready and a request waiting, the bytes received are the input stream's answer to a read of the room the head has left. The head completes, handed the whole grown buffer, exactly when that answer is not empty and the buffer reaches the threshold. Otherwise the buffer keeps the bytes. |
| `StreamSocket.TryWrite` | Sources/StreamSocket.swift:141-153 | One write attempt, when the output is ready, clears readiness and writes the head once. The output stream's answer decides: a write of the whole head pops it, a shorter positive write keeps the unwritten suffix, and a write of nothing leaves the queue. The bytes written, followed by the queue, are exactly the old queue. |
| `StreamSocket.Handle` | Sources/StreamSocket.swift:85-98 | Under either completion rule: a stream event reads only when bytes are available and writes only when space is. The socket stays open exactly unless the event reports end or error, and a closed socket ignores events. Deliveries take the head requests in order, each non-empty and within its maximum (and its minimum under the intended rule), and every byte read is delivered or buffered. |
| `StreamSocket.HandleAnswered` | Sources/StreamSocket.swift:85-98 | On an open socket, an event with bytes available and a request queued reads as `TryReadAnswered` states, and one with space available and a payload queued writes as the output stream answers. |
| `StreamSocket.ReadCall` | Sources/StreamSocket.swift:166-169 | Under either completion rule: a read queues the request and tries once. With the input ready on an open socket, that try is answered by the input stream as `TryReadAnswered` states; otherwise nothing is read or delivered. Delivered requests, followed by the queue, are the old queue plus the new one. Each delivery is non-empty and within its maximum, and also its minimum under the intended rule. |
| `StreamSocket.ReadExact` | Sources/StreamSocket.swift:155-159 | A delivered exact read carries between 1 and `count` bytes. It carries exactly `count` only under the intended rule; as written it may carry fewer. |
| `StreamSocket.ReadUpTo` | Sources/StreamSocket.swift:161-164 | Under either completion rule, a delivered bounded read carries between 1 and `max` bytes. |
| `StreamSocket.WriteCall` | Sources/StreamSocket.swift:171-174 | A write queues the data and tries once. With the output ready on an open socket, the output stream's answer pops the head, keeps its unwritten suffix or leaves the queue; otherwise nothing is written. The bytes written, followed by the queue, are the old queue plus the data. |
| `StreamSocket.ShortReadCompletes` | Sources/StreamSocket.swift:107-134 | As written, a request for exactly 10 bytes completes with 8 after reads of 6 and 2. The intended rule keeps the 8 bytes buffered. |
| `StreamSocket.Apply` | Sources/StreamSocket.swift:85-174 | Under either completion rule, any one call or event keeps requests, read bytes and written bytes accounted for, and a head below its minimum stays below it. |
| `StreamSocket.Run` | Sources/StreamSocket.swift:85-174 | Under either completion rule, over any sequence of calls and events, requests are served in issue order. Every delivery is non-empty and within its maximum, and within its minimum too under the intended rule. Every byte read is delivered or buffered, and the bytes written are the written data in order. |
| `DatagramQueue.AttemptOf` | Sources/DatagramSocket.swift:90-94 | A datagram with an address is sent with `sendto` to that address; one without is sent on the connected socket. |
| `DatagramQueue.WouldBlockAgrees` | SwiftySockets/DatagramSocket.swift:104-106 | The two versions' would-block tests accept the same `errno` values, namely EAGAIN (= EWOULDBLOCK). |
| `DatagramQueue.DrainConserves` | Sources/DatagramSocket.swift:86-103 | Draining splits the queue into the datagrams removed and the datagrams kept, in order. |
| `DatagramQueue.DrainAttempts` | Sources/DatagramSocket.swift:86-103 | Each removed datagram is sent once, in order, and the kept head is tried once more. |
| `DatagramQueue.DrainReplies` | Sources/DatagramSocket.swift:86-103 | A datagram is removed after success or any error other than would-block, and the drain stops, keeping the head, exactly at a would-block. |
| `DatagramQueue.DrainScript` | Sources/DatagramSocket.swift:86-103 | Each send attempt consumes one kernel reply. |
| `DatagramQueue.DrainEmpties` | Sources/DatagramSocket.swift:86-103 | When no reply blocks, the drain sends and removes the whole queue. |
| `DatagramQueue.ReceiveSpec` | Sources/DatagramSocket.swift:74-80 | The datagrams delivered are those received before the first failure, in order, with their senders, each cut to `maxReadSize`. The failure ends the loop. |
| `DatagramQueue.ReadLoop` | Sources/DatagramSocket.swift:77-79 | The receive loop delivers exactly what the reference receive specifies. |
| `DatagramQueue.RunQueueConserves` | Sources/DatagramSocket.swift:105-108 | Over any sequence of sends and writable events, every datagram submitted is either sent or still queued, in submission order. |
| `DatagramSocket.InitAsWritten` | Sources/DatagramSocket.swift:36-45 | The object reads and writes the socket it creates, while both sources watch the descriptor it was passed. The delegate passed is dropped, so the object starts without one. |
| `DatagramSocket.Init` | Sources/DatagramSocket.swift:36-45 | Corrected: the sources watch the socket the object reads and writes, and the delegate passed is kept. The new object is open with an empty queue and a 1500-byte read size. |
| `DatagramSocket.Open` | Sources/DatagramSocket.swift:47-60 | A convenience initialiser fails exactly when bind or connect fails, rethrowing that error. Otherwise the object is open, with an empty queue, reading and writing the socket it created. As written, its sources watch the passed descriptor, so its own socket goes unnoticed, and it has no delegate; corrected, it watches its own socket and keeps the delegate. |
| `DatagramSocket.Close` | Sources/DatagramSocket.swift:62-66 | Closing cancels the sources and closes the socket, but does not clear `isOpen`, the queue or the delegate. |
| `DatagramSocket.CloseIdempotent` | Sources/DatagramSocket.swift:62-66 | Closing twice is closing once. |
| `DatagramSocket.IgnoresItsOwnSocket` | Sources/DatagramSocket.swift:36-45 | Under the initialiser as written, readiness of the object's own socket never reaches its handlers. |
| `DatagramSocket.WatchesItsOwnSocket` | Sources/DatagramSocket.swift:36-45 | Under the corrected initialiser, readiness of the object's own socket reaches its handlers. |
| `DatagramSocket.ReadDatagrams` | Sources/DatagramSocket.swift:74-80 | An open socket reads what the shared receive specification gives and hands it all to the delegate, if there is one. Without a delegate the datagrams are read and lost. A socket not open reads nothing. |
| `DatagramSocket.DelegateDropped` | Sources/DatagramSocket.swift:36-45 | As written, an object initialised with a delegate has none, so what it reads reaches no one; corrected, it keeps the delegate passed. |
| `DatagramSocket.Readable` | Sources/DatagramSocket.swift:41 | A readable event is handled only on the watched descriptor while the sources are live. The datagrams read reach the delegate, if there is one. |
| `DatagramSocket.WriteQueued` | Sources/DatagramSocket.swift:86-103 | The send loop leaves exactly the queue, calls and remaining replies that the reference drain specifies, and changes nothing else. |
| `DatagramSocket.Writable` | Sources/DatagramSocket.swift:42 | A writable event drains the queue only on the watched descriptor while the sources are live. |
| `DatagramSocket.Send` | Sources/DatagramSocket.swift:105-108 | A send appends the datagram and drains the queue. The new datagram goes out only after everything queued before it, and the removed datagrams followed by those kept are the old queue plus the new one. |
| `LegacyDatagramSocket.Open` | SwiftySockets/DatagramSocket.swift:47-61 | Initialisation fails exactly when bind or connect fails. `remoteAddress` is set exactly after a successful connect, to that address. As written no delegate is kept; corrected, the delegate passed is. |
| `LegacyDatagramSocket.Close` | SwiftySockets/DatagramSocket.swift:63-67 | Closing cancels the sources and closes the socket, but keeps `isOpen`, the queue, the delegate and the remote address. |
| `LegacyDatagramSocket.Readable` | SwiftySockets/DatagramSocket.swift:76-85 | The datagrams posted to the main queue, in order, are exactly what the shared receive specification gives. |
| `LegacyDatagramSocket.WriteQueued` | SwiftySockets/DatagramSocket.swift:93-110 | The loop, recognising would-block by an `NSError` code, leaves exactly the queue and calls the reference drain specifies. |
| `LegacyDatagramSocket.Writable` | SwiftySockets/DatagramSocket.swift:42 | A writable event drains the queue while the sources are live. |
| `LegacyDatagramSocket.Send` | SwiftySockets/DatagramSocket.swift:112-117 | When its block runs, a send appends and drains. The new datagram goes out after everything queued before it, with nothing lost. |
| `LegacyDatagramSocket.DrainsAgree` | SwiftySockets/DatagramSocket.swift:93-110 | Given the same `errno` answers, the two versions remove the same datagrams, keep the same queue and make the same calls. |
| `Sockaddr.SetPort` | Sources/sockaddr_in6.swift:22-25 | Setting the port changes no other field. |
| `Sockaddr.PortRoundTrip` | Sources/sockaddr_in6.swift:22-25 | The port reads back as written, and rewriting the current port changes nothing. The stored bytes are the port in network order. |
| `Sockaddr.PortIsNetworkOrder` | Sources/sockaddr_in6.swift:22-25 | The port read from memory is the big-endian value of bytes 2 and 3. |
| `Sockaddr.SetIp` | Sources/sockaddr_in6.swift:41-50 | A 16-byte address is stored as given. A 4-byte address is stored as the IPv4-mapped address `::ffff:a.b.c.d`. No other field changes. |
| `Sockaddr.IpRoundTrip` | Sources/sockaddr_in6.swift:33-50 | Rewriting the current address changes nothing, and an IPv4 address written reads back through the mapping unchanged. |
| `Sockaddr.Init` | Sources/sockaddr_in6.swift:68-77 | The default address is valid: the wildcard address, with port, flow label and scope all zero. |
| `Sockaddr.InitIpPort` | Sources/sockaddr_in6.swift:83-87 | The address is valid and carries the given port and address; a 4-byte address is mapped. |
| `Sockaddr.Any` | Sources/sockaddr_in6.swift:58-60 | The address is valid and is the all-zero wildcard address with the given port. |
| `Sockaddr.Loopback` | Sources/sockaddr_in6.swift:63-65 | The address is valid and is `::1` with the given port. |
| `Sockaddr.InitSaAsWritten` | Sources/sockaddr_in6.swift:92-96 | As written, the mapped IPv4 octets are taken least significant first from the host-order address, which reverses them. |
| `Sockaddr.InitSaReversesOctets` | Sources/sockaddr_in6.swift:92-96 | For any `sockaddr_in`, the conversion as written yields the address bytes in reverse order. |
| `Sockaddr.InitSaCounterexample` | Sources/sockaddr_in6.swift:92-96 | As written, 192.168.1.2 port 80 becomes `::ffff:2.1.168.192`; corrected, it becomes `::ffff:192.168.1.2` with port 80. |
| `Sockaddr.InitSa` | Sources/sockaddr_in6.swift:92-96 | Corrected, the mapped octets are the host-order address most significant first, and the port is converted to host order. |
| `Sockaddr.InitSaKeepsAddress` | Sources/sockaddr_in6.swift:92-96 | The corrected conversion keeps the IPv4 address bytes in memory order, with the big-endian port. |
| `Sockaddr.InitAi` | Sources/sockaddr_in6.swift:102-117 | An `addrinfo` entry converts exactly when it is AF_INET6 of length 28 or AF_INET of length 16. An IPv6 entry keeps its address and port. An IPv4 entry keeps its big-endian port; as written, its four address bytes come out reversed, and corrected, in memory order. |
| `LegacySockaddr.InitSockaddr` | SwiftySockets/sockaddr_in6.swift:86-99 | A `sockaddr` converts exactly when its header is AF_INET6 of length 28 or AF_INET of length 16. IPv6 is copied byte for byte. IPv4 keeps its big-endian port; as written, its address bytes come out reversed, and corrected, in memory order. |
| `LegacySockaddr.InitializersAgree` | SwiftySockets/sockaddr_in6.swift:86-99 | With the same `init(sa:)`, as written or corrected, the two versions accept the same headers and produce the same address and port from the same memory. |
| `SocketProperties.KeysDistinct` | Sources/Socket6+properties.swift:44-94 | The seven boolean properties use seven distinct options, none of them the service-type option. |
| `SocketProperties.BoolRoundTrip` | Sources/Socket6+properties.swift:36-42 | Decoding an encoded flag gives the flag; any nonzero value reads as true. |
| `SocketProperties.GetBool` | Sources/Socket6+properties.swift:47-94 | A property getter reads false when the option cannot be read, and otherwise true exactly for a nonzero value. |
| `SocketProperties.SetBool` | Sources/Socket6+properties.swift:44-90 | A successful setter stores 1 or 0 under its own option, a failed one changes nothing, and no other option is touched. |
| `SocketProperties.SetThenGet` | Sources/Socket6+properties.swift:44-90 | A property reads back as written, and writing it leaves every other property and the service type unchanged. |
| `SocketProperties.FromRawValue` | Sources/Socket6+properties.swift:97-98 | The raw values 0 to 8 name the nine service types, and nothing else does. |
| `SocketProperties.FromRawServiceType` | Sources/Socket6+properties.swift:100-103 | `init?(rawServiceType:)` is nil exactly for values outside the table. |
| `SocketProperties.ServiceTypeRoundTrip` | Sources/Socket6+properties.swift:99-104 | The enumeration and the table of raw service types correspond one to one. |
| `SocketProperties.GetServiceType` | Sources/Socket6+properties.swift:110-116 | The getter falls back to best effort when the option is unreadable or not in the table. Otherwise it returns the case whose raw type was read. |
| `SocketProperties.SetServiceType` | Sources/Socket6+properties.swift:107-109 | A failed setter changes nothing, and the setter touches no other option. |
| `SocketProperties.ServiceTypeSetThenGet` | Sources/Socket6+properties.swift:107-116 | The service type reads back as written, and no boolean property changes. |
| `SocketProperties.GetErrorAsWritten` | Sources/Socket6+properties.swift:30-33 | As written, an error is reported exactly for a negative `SO_ERROR` value. |
| `SocketProperties.GetErrorNeverReports` | Sources/Socket6+properties.swift:30-33 | No value `SO_ERROR` can hold (an `errno`, zero or positive) is ever reported as written; ECONNREFUSED is reported by the corrected version. |
| `SocketProperties.GetError` | Sources/Socket6+properties.swift:30-33 | Corrected, a pending error is reported exactly when `SO_ERROR` is nonzero, with that code. |

## Left out

**I/O, concurrency, clocks and foreign code**

- Socket creation, `bind`, `connect`, `listen` and `accept`: their outcomes are parameters of the model.
- The GCD queues themselves, `DispatchQueue.main.async`, `deinit`, weak references and retain cycles.
- The legacy `DatagramSocket`'s private serial queue. Each `send` is modelled at the moment its block runs, in submission order.
- `LegacyDatagramSocket.Readable`: deliveries posted with `main.async` are modelled as a list run in posting order, not as interleavings with other main-queue work.
- Secure Transport: `SSLCreateContext`, `SSLSetCertificate` and the certificate import in `SecureTransportCertificate`. Creating a context is assumed to succeed; the engine is a script of `SSLHandshake`/`SSLRead`/`SSLWrite` results with the I/O each requests.
- CFStream creation, scheduling and opening in `StreamSocket.init`.
- `getaddrinfo` in both `sockaddr_in6` files: name resolution is foreign code.
- `withSockaddr`/`withMutableSockaddr` and the legacy pointer initialiser `init(_ block:)` (SwiftySockets/sockaddr_in6.swift:74-77): these are pointer plumbing.
- `sockname` and `peername`.
- The read-and-clear of `SO_ERROR` by the kernel.
- `debugDescription`, the POSIX `strerror` text, and the legacy `localAddress`.
- `DispatchSocket.connect(to:)` for a single address: it only runs `connect` on a global queue and reports the outcome. The aggregation over many addresses is modelled.
- `ListenSocket` (in Sources/StreamSocket.swift and Sources/ListenSocket.swift) is not part of this model.

**Divergences from the code**

- `BufferedSocket` is written against a delegate-based `DispatchSocket` that is not part of this model. Its readable and writable delegates are modelled as two armed flags, and closing is assumed to disarm both.
- `Posix.AccessorsExclusive`: `unwrap` wraps an error value that is not a Swift `Error` in `ResultError`; the model throws the value itself.
- `SecureTransport.PumpReads` and `SecureTransport.PumpWrites`: an I/O callback that closes the session inside `SSLRead` or `SSLWrite` (a hard error, or a zero-byte read) empties both queues. If the engine still reports bytes, the code then stores `readQueue[0] = item` (Sources/SecureTransportSocket.swift:224), or calls `writeQueue.removeFirst()` or stores `writeQueue[0]` (249, 252), on the emptied queue and traps. The model stops the pump at that point instead, with nothing more completed or sent.
- Reentrancy: completion handlers run synchronously inside the pumps (Sources/BufferedSocket.swift:78, Sources/SecureTransportSocket.swift:228, Sources/StreamSocket.swift:130, Sources/DispatchSocket.swift:153) and may call `read`, `write` or `close` on the same socket before the pump resumes. The model returns completions as outputs of the step and runs any such call as a later event, so a completion that changes the queues in the middle of a pump is not modelled.
- Assigning `delegate` after initialisation, a public property in both datagram versions, is a plain field update and has no member of its own.
- `StreamSocket.TryRead`: `istream.read` returning -1 (a stream error) is not modelled, because the scripted counts are never negative. A -1 from `ostream.write` leaves the queue unchanged, as in the code.
- `StreamSocket.Close`: closing keeps both queues, and `read`/`write` still append after close, as in the code.
- `DatagramSocket.WriteQueued`: the byte count `send` returns is ignored, as in the code. A datagram counts as sent whatever was accepted.
- `DatagramSocket.Close`: `isOpen` is never cleared in either version, so a `send` after `close` still drains into the closed descriptor. This is modelled as written.
- `LegacyDatagramSocket.WriteQueued`: `Int32(err.code)` traps for codes outside 32 bits; such codes are not modelled.
- `LegacyDatagramSocket.WriteQueued`: the legacy `Socket6` throws `NSError(errno)`, modelled as the thrown value `Other(errno)`.
- `DispatchListen.AcceptOnePerEvent`: an `accept` that fails is modelled as no socket, as `try?` does.

## Findings

| source | as written | input that shows it | evidently intended | confidence | as-written member | corrected member |
|---|---|---|---|---|---|---|
| Sources/SecureTransportSocket.swift:77-86 | Both `SSLSetIOFuncs` callbacks call `handleWrite`, so the engine's read requests are answered by `send`. | An engine read of 5 bytes with 5 bytes waiting gets would-block, never reads them, and arms the writable delegate. | The read callback calls `handleRead`. | high (not executed) | `SecureTransport.ReadRequestsAsWired` | `SecureTransport.ReadRequestsReachSocket` |
| Sources/sockaddr_in6.swift:92-96 (same at SwiftySockets/sockaddr_in6.swift:79-83) | `init(sa:)` converts the address to host order, then takes its octets least significant first, reversing them. | `sockaddr_in` 192.168.1.2 port 80 becomes `::ffff:2.1.168.192`. | The octets in network order: `::ffff:192.168.1.2`. | high (not executed) | `Sockaddr.InitSaAsWritten` | `Sockaddr.InitSa` |
| Sources/StreamSocket.swift:107-112, 128-134 | `tryRead` lowers the threshold by the bytes already buffered, then compares it with the whole buffer, which already includes them. | A request for exactly 10 bytes completes with 8 bytes after reads of 6 and 2. | Compare the whole buffer with the request's minimum. | high (not executed) | `StreamSocket.ShortReadCompletes` | `StreamSocket.TryRead` |
| Sources/Socket6+properties.swift:30-33 | `getError` reports an error only when `SO_ERROR` is negative. | A pending ECONNREFUSED (61) is not reported. | Report any nonzero value. | medium (not executed) | `SocketProperties.GetErrorAsWritten` | `SocketProperties.GetError` |
| Sources/DatagramSocket.swift:36-45 (same at SwiftySockets/DatagramSocket.swift:36-45) | `init(socket:delegate:)` never stores its `delegate:` argument, so every convenience initialiser leaves `delegate` nil. | `init(boundTo: 5000, delegate: d)`: the datagrams the socket reads reach no one until `delegate` is assigned. | Store the argument in `delegate`. | high (not executed) | `DatagramSocket.InitAsWritten` | `DatagramSocket.Init` |
| Sources/DatagramSocket.swift:36-45 | The initialiser stores a new socket in `self.socket` but attaches both dispatch sources to the descriptor of the socket it was passed, which the caller then drops. | Any datagram arriving on `self.socket`: its read source is never notified. | The sources watch `self.socket.fd`, as the legacy version does. | high (not executed) | `DatagramSocket.IgnoresItsOwnSocket` | `DatagramSocket.WatchesItsOwnSocket` |
