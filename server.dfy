/** The server end of TCPickle: it listens with a backlog of one, and for each
    offered data unit accepts one connection, reads the client's response code
    and then either streams the pickled unit (accept) or closes both the
    connection and the listening socket (decline). */
module Server {
  import opened Wire
  import opened Codes

  /** `_MAX_CONNECTIONS`, the listen backlog. */
  const MaxConnections: nat := 1
  /** The size of the single `recv` that reads the response code. */
  const RecvSize: nat := 1024

  /** The bytes one `recv(1024)` returns when `incoming` is everything the
      client sent on the connection. */
  function ReadCode(incoming: Bytes): (r: Bytes)
    ensures |r| <= RecvSize
    ensures |r| <= |incoming| && r == incoming[..|r|]
    ensures |incoming| <= RecvSize ==> r == incoming
  {
    if |incoming| <= RecvSize then incoming else incoming[..RecvSize]
  }

  /** The case split on the decoded response: `Ok(true)` to send the unit,
      `Ok(false)` to stop, otherwise the exception raised. */
  function Decide(v: Value): (r: Result<bool>)
    ensures r == Ok(true) <==> AsInt(v) == Some(CodeValue(AcceptData))
    ensures r == Ok(false) <==> AsInt(v) == Some(CodeValue(DeclineData))
    ensures r == Err(InvalidResponse) <==> AsInt(v) == Some(CodeValue(Invalid))
    ensures r == Err(NotAnInteger) <==> AsInt(v) == None
    ensures r.Err? && r.error.UnknownCode? <==> AsInt(v).Some? && Lookup(AsInt(v).value) == None
    ensures r.Ok? || r.error in {InvalidResponse, NotAnInteger} || r.error.UnknownCode?
  {
    match AsInt(v)
    case None => Err(NotAnInteger)
    case Some(n) =>
      match Lookup(n)
      case None => Err(UnknownCode(n))
      case Some(DeclineData) => Ok(false)
      case Some(AcceptData) => Ok(true)
      case Some(Invalid) => Err(InvalidResponse)
  }

  /** `_eval_answer_to_offer`: read once, unpickle, decide. */
  function EvalAnswerToOffer(codec: Codec, incoming: Bytes): (r: Result<bool>)
    ensures codec.loads(ReadCode(incoming)).None? ==> r == Err(LoadFailed)
    ensures codec.loads(ReadCode(incoming)).Some? ==> r == Decide(codec.loads(ReadCode(incoming)).value)
    ensures r.Ok? ==> codec.loads(ReadCode(incoming)).Some?
  {
    match codec.loads(ReadCode(incoming))
    case None => Err(LoadFailed)
    case Some(v) => Decide(v)
  }

  /** The listening socket: created unbound, listening after `initialize`,
      closed for good after a decline. */
  datatype Listener = Unbound | Listening | Closed

  /** What the server does on its sockets, in order. */
  datatype ServerEvent =
    | Listen(backlog: nat)
    | Accept
    | ReadRequest(bytes: Bytes)
    | Write(bytes: Bytes)
    | CloseConn
    | CloseListener

  datatype ServerState = ServerState(listener: Listener, connOpen: bool, trace: seq<ServerEvent>)

  /** What the client does on one accepted connection: the bytes it sent, and
      whether a `sendall` to it succeeds. */
  datatype Incoming = Incoming(request: Bytes, sendOk: bool)

  /** The payloads written to clients, in order. */
  function Payloads(trace: seq<ServerEvent>): seq<Bytes> {
    if trace == [] then []
    else if trace[0].Write? then [trace[0].bytes] + Payloads(trace[1..])
    else Payloads(trace[1..])
  }

  /** The number of connections accepted. */
  function Accepts(trace: seq<ServerEvent>): nat {
    if trace == [] then 0
    else (if trace[0] == Accept then 1 else 0) + Accepts(trace[1..])
  }

  lemma {:induction false} TraceAppend(a: seq<ServerEvent>, b: seq<ServerEvent>)
    ensures Payloads(a + b) == Payloads(a) + Payloads(b)
    ensures Accepts(a + b) == Accepts(a) + Accepts(b)
  {
    if a == [] {
      assert a + b == b;
    } else {
      assert (a + b)[1..] == a[1..] + b;
      TraceAppend(a[1..], b);
    }
  }

  /** Events that neither accept a connection nor write a payload. */
  lemma {:induction false} Quiet(t: seq<ServerEvent>)
    requires forall j :: 0 <= j < |t| ==> t[j] != Accept && !t[j].Write?
    ensures Payloads(t) == [] && Accepts(t) == 0
  {
    if t != [] {
      Quiet(t[1..]);
    }
  }

  /** `initialize`: set SO_REUSEADDR, bind and listen; any socket error is
      re-raised. Only a socket that was never bound can be bound. */
  function InitializeStep(s: ServerState, bindOk: bool, host: string, port: int): (out: (ServerState, Result<(string, int)>))
    ensures out.1.Ok? <==> s.listener == Unbound && bindOk
    ensures out.1.Ok? ==> out.1.value == (host, port) && out.0 == s.(listener := Listening, trace := s.trace + [Listen(MaxConnections)])
    ensures out.1.Err? ==> out == (s, Err(BindFailed))
  {
    if s.listener == Unbound && bindOk then
      (s.(listener := Listening, trace := s.trace + [Listen(MaxConnections)]), Ok((host, port)))
    else
      (s, Err(BindFailed))
  }

  /** `offer_data_to_client`, one call. */
  function OfferStep(codec: Codec, s: ServerState, data: Value, conn: Incoming): (out: (ServerState, Result<bool>))
    // accept fails, and nothing happens, unless the socket is listening
    ensures s.listener != Listening ==> out == (s, Err(AcceptFailed))
    // exactly one connection is accepted, and the code is read before anything else
    ensures s.listener == Listening ==>
      |out.0.trace| >= |s.trace| + 2 &&
      out.0.trace[..|s.trace| + 2] == s.trace + [Accept, ReadRequest(ReadCode(conn.request))] &&
      Accepts(out.0.trace) == Accepts(s.trace) + 1
    // decline: both sockets closed, nothing written
    ensures out.1 == Ok(false) <==> s.listener == Listening && EvalAnswerToOffer(codec, conn.request) == Ok(false)
    ensures out.1 == Ok(false) ==>
      out.0.listener == Closed && !out.0.connOpen && Payloads(out.0.trace) == Payloads(s.trace)
    // accept: exactly the pickled unit written, connection closed, still listening
    ensures out.1 == Ok(true) <==> s.listener == Listening && EvalAnswerToOffer(codec, conn.request) == Ok(true) && conn.sendOk
    ensures out.1 == Ok(true) ==>
      out.0.listener == Listening && !out.0.connOpen &&
      Payloads(out.0.trace) == Payloads(s.trace) + [codec.dumps(data)]
    // failure: the exception of the read or of the write, nothing written, connection left open
    ensures s.listener == Listening && EvalAnswerToOffer(codec, conn.request).Err? ==>
      out.1 == EvalAnswerToOffer(codec, conn.request)
    ensures s.listener == Listening && EvalAnswerToOffer(codec, conn.request) == Ok(true) && !conn.sendOk ==>
      out.1 == Err(SendFailed)
    ensures s.listener == Listening && out.1.Err? ==>
      out.0.listener == Listening && out.0.connOpen && Payloads(out.0.trace) == Payloads(s.trace)
  {
    if s.listener != Listening then (s, Err(AcceptFailed))
    else
      var opening := [Accept, ReadRequest(ReadCode(conn.request))];
      var head := s.trace + opening;
      assert Payloads(opening) == [] && Accepts(opening) == 1 by {
        Quiet(opening[1..]);
      }
      TraceAppend(s.trace, opening);
      assert head[..|s.trace| + 2] == head;
      match EvalAnswerToOffer(codec, conn.request)
      case Ok(false) =>
        var closing := [CloseConn, CloseListener];
        TraceAppend(head, closing);
        Quiet(closing);
        assert (head + closing)[..|s.trace| + 2] == head;
        (ServerState(Closed, false, head + closing), Ok(false))
      case Ok(true) =>
        if conn.sendOk then
          var sending := [Write(codec.dumps(data)), CloseConn];
          TraceAppend(head, sending);
          assert Payloads(sending) == [codec.dumps(data)] && Accepts(sending) == 0 by {
            Quiet(sending[1..]);
          }
          assert (head + sending)[..|s.trace| + 2] == head;
          (ServerState(Listening, false, head + sending), Ok(true))
        else (ServerState(Listening, true, head), Err(SendFailed))
      case Err(e) => (ServerState(Listening, true, head), Err(e))
  }

  /** A closed listening socket is terminal: neither call changes anything. */
  lemma ClosedIsTerminal(codec: Codec, s: ServerState, data: Value, conn: Incoming, bindOk: bool, host: string, port: int)
    requires s.listener == Closed
    ensures OfferStep(codec, s, data, conn) == (s, Err(AcceptFailed))
    ensures InitializeStep(s, bindOk, host, port) == (s, Err(BindFailed))
  {
  }

  /** The offer loop `while client_wants_data: client_wants_data = offer(...)`
      over the connections clients make, one per offer: the final state, the
      number of offers made and the last offer's outcome. `Ok(true)` with every
      connection used up means the loop is still waiting for a client. */
  function Serve(codec: Codec, s: ServerState, data: Value, conns: seq<Incoming>): (out: (ServerState, nat, Result<bool>))
    ensures out.1 <= |conns|
    ensures out.1 < |conns| ==> out.2 != Ok(true)
    decreases |conns|
  {
    if conns == [] then (s, 0, Ok(true))
    else
      var (s1, r) := OfferStep(codec, s, data, conns[0]);
      if r == Ok(true) then
        var (s2, n, r2) := Serve(codec, s1, data, conns[1..]);
        (s2, n + 1, r2)
      else
        (s1, 1, r)
  }

  ghost predicate Accepting(codec: Codec, conn: Incoming) {
    EvalAnswerToOffer(codec, conn.request) == Ok(true) && conn.sendOk
  }

  ghost predicate Declining(codec: Codec, conn: Incoming) {
    EvalAnswerToOffer(codec, conn.request) == Ok(false)
  }

  /** When the n-th offer is the first to be declined, the loop makes exactly n
      offers, accepts n connections, writes the unit n-1 times and stops with
      the listening socket closed. */
  lemma {:induction false} DeclineEndsSession(codec: Codec, s: ServerState, data: Value, conns: seq<Incoming>, n: nat)
    requires s.listener == Listening
    requires 1 <= n <= |conns|
    requires forall i :: 0 <= i < n - 1 ==> Accepting(codec, conns[i])
    requires Declining(codec, conns[n - 1])
    ensures var (last, offers, r) := Serve(codec, s, data, conns);
      offers == n && r == Ok(false) && last.listener == Closed && !last.connOpen &&
      Accepts(last.trace) == Accepts(s.trace) + n &&
      Payloads(last.trace) == Payloads(s.trace) + Repeat(codec.dumps(data), n - 1)
    decreases n
  {
    var (s1, r) := OfferStep(codec, s, data, conns[0]);
    if n == 1 {
      assert Repeat(codec.dumps(data), 0) == [];
    } else {
      assert Accepting(codec, conns[0]);
      assert r == Ok(true);
      var rest := conns[1..];
      forall i | 0 <= i < n - 2
        ensures Accepting(codec, rest[i])
      {
        assert rest[i] == conns[i + 1];
      }
      DeclineEndsSession(codec, s1, data, rest, n - 1);
      assert Repeat(codec.dumps(data), n - 1) == [codec.dumps(data)] + Repeat(codec.dumps(data), n - 2) by {
        RepeatCons(codec.dumps(data), n - 1);
      }
    }
  }

  lemma {:induction false} RepeatCons<T>(x: T, n: nat)
    requires n >= 1
    ensures Repeat(x, n) == [x] + Repeat(x, n - 1)
  {
  }

  /** A server object: one listening socket, the connection accepted last, and
      the record of what it did. The class-level socket of the Python class, shared
      by every instance, is per instance here. */
  class TCPickleServer {
    const codec: Codec
    const ip: string
    const port: int

    var listener: Listener
    var connOpen: bool
    var trace: seq<ServerEvent>

    function State(): ServerState
      reads this
    {
      ServerState(listener, connOpen, trace)
    }

    constructor (codec: Codec, ip: string, port: int)
      ensures this.codec == codec && this.ip == ip && this.port == port
      ensures State() == ServerState(Unbound, false, [])
    {
      this.codec := codec;
      this.ip := ip;
      this.port := port;
      listener := Unbound;
      connOpen := false;
      trace := [];
    }

    /** `initialize`; `bindOk` is whether the socket calls succeed and `fqdn`
        what `socket.getfqdn()` answers. */
    method Initialize(bindOk: bool, fqdn: string) returns (r: Result<(string, int)>)
      modifies this
      ensures (State(), r) == InitializeStep(old(State()), bindOk, fqdn, port)
    {
      if listener != Unbound || !bindOk {
        return Err(BindFailed);
      }
      listener := Listening;
      trace := trace + [Listen(MaxConnections)];
      r := Ok((fqdn, port));
    }

    /** `offer_data_to_client`: `conn` is what the next client to connect does. */
    method OfferDataToClient(data: Value, conn: Incoming) returns (r: Result<bool>)
      modifies this
      ensures (State(), r) == OfferStep(codec, old(State()), data, conn)
    {
      if listener != Listening {
        return Err(AcceptFailed);
      }
      connOpen := true;
      trace := trace + [Accept];
      var received := ReadCode(conn.request);
      trace := trace + [ReadRequest(received)];
      assert trace == old(trace) + [Accept, ReadRequest(received)];
      var answer := EvalAnswerToOffer(codec, conn.request);
      if answer.Err? {
        return Err(answer.error);
      }
      if !answer.value {
        connOpen := false;
        trace := trace + [CloseConn];
        listener := Closed;
        trace := trace + [CloseListener];
        assert trace == old(trace) + [Accept, ReadRequest(received)] + [CloseConn, CloseListener];
        return Ok(false);
      }
      var pickled := codec.dumps(data);
      if !conn.sendOk {
        return Err(SendFailed);
      }
      trace := trace + [Write(pickled)];
      connOpen := false;
      trace := trace + [CloseConn];
      assert trace == old(trace) + [Accept, ReadRequest(received)] + [Write(pickled), CloseConn];
      r := Ok(true);
    }
  }

  /** A run of the offer loop that comes after `earlier` offers. */
  function Later(run: (ServerState, nat, Result<bool>), earlier: nat): (ServerState, nat, Result<bool>) {
    (run.0, run.1 + earlier, run.2)
  }

  /** One turn of the offer loop: the first offer, then (if it was accepted)
      the rest of the loop on the remaining connections. */
  lemma ServeUnfold(codec: Codec, s: ServerState, data: Value, conns: seq<Incoming>)
    requires conns != []
    ensures var (s1, r) := OfferStep(codec, s, data, conns[0]);
      Serve(codec, s, data, conns) ==
        if r == Ok(true) then Later(Serve(codec, s1, data, conns[1..]), 1) else (s1, 1, r)
  {
  }

  /** The offer loop of the server's entry point: offer `data` until a client
      declines, one connection of `conns` per offer. */
  method OfferUntilDeclined(server: TCPickleServer, data: Value, conns: seq<Incoming>) returns (offers: nat, r: Result<bool>)
    modifies server
    ensures (server.State(), offers, r) == Serve(server.codec, old(server.State()), data, conns)
  {
    offers := 0;
    r := Ok(true);
    while r == Ok(true) && offers < |conns|
      invariant offers <= |conns|
      invariant r == Ok(true) ==>
        Serve(server.codec, old(server.State()), data, conns) == Later(Serve(server.codec, server.State(), data, conns[offers..]), offers)
      invariant r != Ok(true) ==> Serve(server.codec, old(server.State()), data, conns) == (server.State(), offers, r)
    {
      assert conns[offers..][1..] == conns[offers + 1..];
      ServeUnfold(server.codec, server.State(), data, conns[offers..]);
      r := server.OfferDataToClient(data, conns[offers]);
      offers := offers + 1;
    }
  }
}
