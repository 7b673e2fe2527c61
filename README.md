# TCPickle accept/decline handshake in Dafny

TCPickle moves pickled Python objects from a server to a client over TCP, one
object per connection. The client connects and sends one pickled response
code. The server reads it. On ACCEPT_DATA (1) it streams the pickled unit and
closes the connection. On DECLINE_DATA (2) it closes the connection and its
listening socket, which ends the service. INVALID (0), any other integer and a
value that is not an integer all raise. The payload has no length prefix. The
client reads chunks until an empty read, which means the server closed the
connection.

This project models both endpoints over an abstract transport.

- `wire.dfy` (`Wire`): bytes, the Python values the protocol can tell apart,
  and pickle as a pair of functions `Codec(dumps, loads)`. `Faithful(codec)`
  is the round-trip property pickle provides, and the end-to-end lemmas
  require it. The module also holds `b''.join`, the "chunks before the first
  empty read" index, and a reference chunking of a payload into reads.
- `codes.dfy` (`Codes`): the `ResponseCode` enum, declared identically in both
  endpoint files and modelled once. It also holds the enum lookup, Python's
  `isinstance(v, int)` (a `bool` counts and `True` is 1), and one error
  constructor per kind of failure, including `StillRefused` for a connect
  loop that is still retrying.
- `server.dfy` (`Server`): the decision on the decoded response. Pure step
  functions `InitializeStep`, `OfferStep` and `Serve` act on a state made of
  the listening socket (`Unbound | Listening | Closed`), the open flag of the
  last accepted connection, and a trace of socket events. The class
  `TCPickleServer` has methods proved equal to those step functions. The
  method `OfferUntilDeclined` is the offer loop of the server's entry point.
- `client.dfy` (`Client`): step functions `ConnectStep`, `RespondStep`,
  `GrabStep` and `StopStep` act on `_has_file_descriptor`, on whether the
  current socket is connected, and on a trace of socket events. The class
  `TCPickleClient` implements them with the source's retry loop and read loop.
  Lemmas state what each step promises, and that any sequence of the
  client's public calls sends at most one code per connection.
- `handshake.dfy` (`Handshake`): the two ends together. It shows that codes
  reach the server's decision intact, that the payload round-trips through
  the read loop, that a whole accept exchange and a whole decline exchange
  behave as described, and it runs the demo of both entry points.

The environment is passed in as parameters:
- the server gets, for each accepted connection, the bytes the client sent
  and whether `sendall` succeeds;
- the client gets the outcomes of its successive `connect` attempts
  (`Connected | Refused | Failed`) and the results of its successive `recv`
  calls (running out of them means the peer closed);
- `socket.getfqdn()` and the success of bind/listen are parameters of the
  server's `Initialize`.

The model follows the code on these points of detail:
- An offer that raises closes neither the accepted connection nor the
  listening socket. `OfferStep` leaves `connOpen` true on every error after the accept.
- A grab that receives zero bytes never unpickles. With `debug` on it returns
  `None`. With `debug` off the `return` at tcpickle_client.py:113 reads an
  unbound local, so the model returns `Err(NoData)`.
- A client `initialize` that fails with a non-refusal error has already
  replaced the socket. The flag keeps its old value, and a later send on that
  unconnected socket fails (`NotConnected`).
- A pickled `True` is read by the server as ACCEPT_DATA and a pickled `False`
  as INVALID, because `bool` is a subclass of `int`.
- Offering when the server socket is not listening (never bound, or closed)
  fails and changes nothing. Binding a closed socket fails too, so a
  server whose listening socket is closed is terminal.

## Model

| member | source | states |
|---|---|---|
| `Codes.CodeValue` | tcpickle_server.py:9-11 | `ResponseCode.X.value` is one of 0, 1, 2; `Codes.LookupCodeValue` shows the three are distinct |
| `Codes.Lookup` | tcpickle_server.py:7-11 | `ResponseCode(n)` has a member exactly for n in {0,1,2}, and that member's value is n |
| `Codes.LookupCodeValue` | tcpickle_client.py:8-12 | the client's codes have the same values 0/1/2 as the server's, and the lookup inverts them |
| `Codes.AsInt` | tcpickle_server.py:74 | `isinstance(v, int)` holds for ints and bools only; a bool stands for 1 or 0 |
| `Server.ReadCode` | tcpickle_server.py:72 | the single `recv(1024)` yields a prefix of the client's bytes of at most 1024 bytes, and all of them when they fit |
| `Server.Decide` | tcpickle_server.py:74-87 | integer 1 gives `true` and integer 2 gives `false` (each if and only if); integer 0 raises `TCPickleException`; any other integer fails the enum lookup; a non-integer raises `ValueError` |
| `Server.EvalAnswerToOffer` | tcpickle_server.py:65-87 | bytes that do not unpickle raise; only a decoded value can lead to a decision |
| `Server.InitializeStep` | tcpickle_server.py:46-63 | binding succeeds only on a never-bound socket when the socket calls succeed; it then listens with backlog `_MAX_CONNECTIONS = 1` and returns (fqdn, port); otherwise nothing changes |
| `Server.OfferStep` | tcpickle_server.py:89-125 | a non-listening socket fails to accept and nothing changes; otherwise exactly one connection is accepted and the code is read before anything else; decline (if and only if the decision is false) closes both sockets, writes nothing and returns false; accept (if and only if the decision is true and the send succeeds) writes exactly `dumps(data)`, closes only the connection and returns true; a read or decision error, or a failed send (`TCPickleException`), writes nothing and leaves the listener as it was |
| `Server.ClosedIsTerminal` | tcpickle_server.py:110-111 | once the listening socket is closed, offering and initializing both fail and change nothing |
| `Server.ServeUnfold` | tcpickle_server.py:132-133 | one turn of the offer loop is one offer, followed by the rest of the loop exactly when that offer returned true |
| `Server.Serve` | tcpickle_server.py:131-133 | the offer loop makes at most one offer per connection and stops early only on a result other than true |
| `Server.DeclineEndsSession` | tcpickle_server.py:131-133 | if the n-th offer is the first declined, the loop makes exactly n offers, accepts n connections, writes `dumps(data)` exactly n-1 times and ends with both sockets closed |
| `Server.TCPickleServer.constructor` | tcpickle_server.py:41-44 | a new server is unbound, has no open connection and has done nothing |
| `Server.TCPickleServer.Initialize` | tcpickle_server.py:46-63 | the new state and result are `InitializeStep` of the old state |
| `Server.TCPickleServer.OfferDataToClient` | tcpickle_server.py:89-125 | the new state and result are `OfferStep` of the old state |
| `Server.OfferUntilDeclined` | tcpickle_server.py:131-133 | the loop's final state, offer count and last result are `Serve` of the initial state |
| `Client.CodeBytes` | tcpickle_client.py:82 | `pickle.dumps(response.value)` is non-empty and loads back to the code's integer under a faithful pickle |
| `Client.ConnectStep` | tcpickle_client.py:46-73 | no contract of its own: `Client.ConnectDecides`, `Client.ConnectCounts` and `Client.TCPickleClient.Initialize` state its properties |
| `Client.RespondStep` | tcpickle_client.py:75-82 | no contract of its own: `Client.RespondSendsCode` states its properties |
| `Client.GrabStep` | tcpickle_client.py:84-113 | no contract of its own: `Client.GrabSendsOnceAndCloses` and `Handshake.GrabReturnsPayload` state its properties |
| `Client.StopStep` | tcpickle_client.py:115-121 | no contract of its own: `Client.StopSendsDecline` and `Handshake.StopDeclines` state its properties |
| `Client.FirstNonRefused` | tcpickle_client.py:55-67 | the connect attempts before the returned index were all refused, and the attempt at the index (if any) was not |
| `Client.ConnectDecides` | tcpickle_client.py:54-72 | the first attempt that is not refused decides: success sets the flag and leaves the socket connected; another error propagates with the flag unchanged and the socket unconnected; while every attempt is refused the loop keeps retrying |
| `Client.ConnectCounts` | tcpickle_client.py:55-59 | connecting sends nothing and makes one connection exactly when it succeeds |
| `Client.RespondSendsCode` | tcpickle_client.py:75-82 | a response connects first when the flag is false and then sends exactly `dumps(code.value)`, after the connect attempts and as its last event; it sends nothing when connecting fails, or when the flag is set but a failed re-`initialize` left the socket unconnected (`NotConnected`) |
| `Client.CodesOnConnection` | tcpickle_client.py:57-58 | counts the codes sent since the last connect attempt or close; each attempt replaces the socket, so this is the number of codes on the current connection |
| `Client.QuietKeeps` | tcpickle_client.py:98-104 | events that send nothing (connect attempts, reads, closes) keep one code per connection and add no code to the current connection |
| `Client.SendKeeps` | tcpickle_client.py:82 | the first code sent on a connection keeps one code per connection, and that connection now carries exactly one |
| `Client.InitialInv` | tcpickle_client.py:36-37 | a new client (no file descriptor, nothing sent) satisfies the invariant |
| `Client.ConnectKeeps` | tcpickle_client.py:46-73 | `initialize` keeps the invariant: a successful connect starts a connection that carries no code yet |
| `Client.RespondKeeps` | tcpickle_client.py:75-82 | a response sends only on a connection with no code yet, and when it fails the invariant still holds |
| `Client.GrabKeeps` | tcpickle_client.py:84-113 | `grab_data_from_server` keeps the invariant |
| `Client.StopKeeps` | tcpickle_client.py:115-121 | `stop_server` keeps the invariant |
| `Client.RunKeeps` | tcpickle_client.py:46-121 | any sequence of `initialize`, `grab_data_from_server` and `stop_server` calls keeps the invariant |
| `Client.OneCodePerConnection` | tcpickle_client.py:46-121 | whatever public calls a new client makes and whatever the network answers, no connection ever carries two response codes |
| `Client.ReadChunks` | tcpickle_client.py:95-102 | the read loop keeps exactly the chunks before the first empty read, in order |
| `Client.Unpickle` | tcpickle_client.py:105-113 | non-empty data is unpickled and returned (or raises); zero bytes are never unpickled, giving `None` with debug on and an unbound-local error with debug off |
| `Client.GrabSendsOnceAndCloses` | tcpickle_client.py:84-113 | a grab sends either nothing (connecting failed, or the socket is not connected) or exactly ACCEPT_DATA, on at most one new connection; once it has sent, the send comes before every read, the reads are exactly the chunks before the first empty read and are followed by the close, the flag is cleared on every path (decoding failure included), and the result unpickles the join of those chunks |
| `Client.StopSendsDecline` | tcpickle_client.py:115-121 | stopping succeeds exactly when the response does; it then sends exactly DECLINE_DATA (connecting first if needed), closes the socket right after the send and clears the flag; it fails, sending nothing, when connecting fails or the socket left by a failed re-`initialize` is not connected |
| `Client.TCPickleClient.constructor` | tcpickle_client.py:41-44 | a new client has the flag clear, no connected socket and has done nothing |
| `Client.TCPickleClient.Initialize` | tcpickle_client.py:46-73 | the retry loop's new state and result are `ConnectStep` of the old state |
| `Client.TCPickleClient.RespondToServer` | tcpickle_client.py:75-82 | the new state and result are `RespondStep` of the old state |
| `Client.TCPickleClient.GrabDataFromServer` | tcpickle_client.py:84-113 | the new state and result are `GrabStep` of the old state |
| `Client.TCPickleClient.StopServer` | tcpickle_client.py:115-121 | the new state and result are `StopStep` of the old state |
| `Wire.Join` | tcpickle_client.py:102 | `b''.join(chunks)` is empty exactly when every chunk is empty, and begins with the first chunk |
| `Wire.FirstEmpty` | tcpickle_client.py:97-100 | every chunk before the returned index is non-empty, and the chunk at the index (if any) is empty |
| `Wire.SplitDelivers` | tcpickle_client.py:98 | a payload read in pieces of at most `_CHUNK_SIZE` bytes arrives as non-empty reads whose join is the payload |
| `Handshake.CodeReachesServer` | tcpickle_server.py:72-85 | a code pickled by the client and read whole by the server decides accept, decline or INVALID as sent |
| `Handshake.EmptyRequestRejected` | tcpickle_server.py:72-73 | a client that closes without sending leaves the server's read empty, and empty bytes do not unpickle, so the offer raises |
| `Handshake.PayloadRoundTrip` | tcpickle_client.py:95-106 | the reads that deliver `dumps(data)`, followed by the empty read of a closed connection, come back as `data` |
| `Handshake.GrabReturnsPayload` | tcpickle_client.py:84-113 | a client with (or able to make) a connection, fed the reads that deliver `dumps(data)`, followed by an empty read or by no further reads, returns `data`, has sent exactly ACCEPT_DATA and ends with its socket closed and the flag clear |
| `Handshake.StopDeclines` | tcpickle_client.py:115-121 | a client with (or able to make) a connection stops successfully, having sent exactly DECLINE_DATA, and ends with its socket closed and the flag clear |
| `Handshake.AcceptExchange` | tcpickle_server.py:117-125 | in one accept exchange the server returns true, writes exactly `dumps(data)` and keeps listening, and the client gets `data` back having sent exactly one code and closed its socket |
| `Handshake.DeclineExchange` | tcpickle_server.py:106-112 | in one decline exchange the server returns false, closes both sockets and writes nothing, and the client has sent exactly DECLINE_DATA and closed its socket |
| `Handshake.DemoServer` | tcpickle_server.py:128-134 | offering `[1.0, 2.0, 3.0, 4.0, 5.0]` to answers accept, accept, decline makes three offers, the last returning false, and writes the pickled unit twice |
| `Handshake.ConnectPastRefusals` | tcpickle_client.py:126 | the demo's `initialize` through refusals ending in a success connects, sets the flag and sends nothing |
| `Handshake.GrabUnit` | tcpickle_client.py:128 | each of the demo's grabs returns the offered unit, sends exactly ACCEPT_DATA and ends closed |
| `Handshake.StopUnit` | tcpickle_client.py:133 | the demo's `stop_server` succeeds, sends exactly DECLINE_DATA and ends closed |
| `Handshake.DemoClient` | tcpickle_client.py:124-134 | initialize with two refusals, grab twice and stop: both grabs return the unit and the codes sent are accept, accept, decline |
| `Handshake.Demo` | tcpickle_server.py:128-133 | the two entry points run against each other: both grabs return the offered unit, the server makes three offers and the third returns false |

## Left out

- Real sockets (`socket`, `setsockopt`, `bind`, `listen`, `accept`, `recv`, `sendall`, `close`, `getfqdn`) are abstract. What they did is recorded in event traces. Only some of their outcomes are parameters: the success of bind/listen, the server's `sendall`, the client's `connect` attempts and the client's reads.
- The server's `accept` on a listening socket and its `recv(1024)` on an accepted connection are taken to succeed. Their socket errors (tcpickle_server.py:72,102) are not modelled. Only `accept` on a socket that is not listening fails.
- Pickle is taken as a parameter `Codec`, not modelled. `dumps` is total, so a `PicklingError` while pickling the offered data is not modelled. `Faithful` (loads undoes dumps, dumps is never empty, and empty bytes do not load) is an assumption of the end-to-end lemmas, not something proved about pickle.
- `Client.TCPickleClient.Initialize`: the source retries forever. The model sees a finite list of connect outcomes, and a list made only of refusals ends in `StillRefused`, which stands for "still retrying". `sleep(1)` between attempts is not modelled.
- `Server.ReadCode`: a `recv(1024)` may return fewer bytes than are available. The model always takes the first 1024 bytes, or all of them when fewer.
- A client `recv` or `sendall` on a connected socket is taken to succeed. The read chunks are arbitrary byte strings; the limit of `_CHUNK_SIZE` bytes per read is used only by `Wire.Split`.
- `Client.Unpickle`: with debug on, the print at tcpickle_client.py:108 calls `len` on the loaded object, which raises for an object without a length. The model returns the object.
- A failing `sendall` on the server may already have sent part of the payload. The model records no `Write` event for it.
- `connOpen` tracks only the most recently accepted connection. A connection left open by an earlier failed offer is not tracked after the next accept.
- The class-level `_sock` that Python shares between instances is per instance here.
- `Client.OneCodePerConnection` covers the public calls only. `_respond_to_server` is private, and calling it directly on a connected client would send a second code on that connection.
- The server's `debug` flag only prints, so it is not modelled. Debug output and ANSI colours on both sides are left out.
- The `__main__` blocks appear only as the `Handshake.Demo*` scenario methods. They cover no I/O and no timing.
- server.py and client.py, the interactive prototype, are not part of this model.
