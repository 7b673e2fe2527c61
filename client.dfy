/** The client end of TCPickle: it connects (retrying while the server refuses),
    sends one response code per connection, and for an accept reads the
    pickled unit until the server closes the connection. */
module Client {
  import opened Wire
  import opened Codes

  /** `_CHUNK_SIZE`, the size of each `recv` of the payload. */
  const ChunkSize: nat := 4069

  /** How one `connect` attempt ends. */
  datatype ConnectOutcome = Connected | Refused | Failed

  /** What the client does on its socket, in order. */
  datatype ClientEvent =
    | Attempt(outcome: ConnectOutcome)
    | Send(bytes: Bytes)
    | Recv(chunk: Bytes)
    | Close

  /** `hasFd` is `_has_file_descriptor`; `connected` is whether the current
      socket object is a connected one (every attempt replaces it). */
  datatype ClientState = ClientState(hasFd: bool, connected: bool, trace: seq<ClientEvent>)

  /** `pickle.dumps(code.value)`: non-empty bytes that a faithful pickle
      loads back to the code's integer value. */
  function CodeBytes(codec: Codec, code: ResponseCode): (b: Bytes)
    ensures Faithful(codec) ==> b != [] && codec.loads(b) == Some(IntValue(CodeValue(code)))
  {
    codec.dumps(IntValue(CodeValue(code)))
  }

  /** The index of the first connect attempt that is not refused, or the
      number of attempts when all are. */
  function FirstNonRefused(outcomes: seq<ConnectOutcome>): (k: nat)
    ensures k <= |outcomes|
    ensures forall j :: 0 <= j < k ==> outcomes[j] == Refused
    ensures k < |outcomes| ==> outcomes[k] != Refused
  {
    if outcomes == [] || outcomes[0] != Refused then 0 else 1 + FirstNonRefused(outcomes[1..])
  }

  function Attempts(outcomes: seq<ConnectOutcome>): (t: seq<ClientEvent>)
    ensures |t| == |outcomes|
    ensures forall j :: 0 <= j < |t| ==> t[j] == Attempt(outcomes[j])
  {
    if outcomes == [] then [] else Attempts(outcomes[..|outcomes| - 1]) + [Attempt(outcomes[|outcomes| - 1])]
  }

  function Recvs(chunks: seq<Bytes>): (t: seq<ClientEvent>)
    ensures |t| == |chunks|
    ensures forall j :: 0 <= j < |t| ==> t[j] == Recv(chunks[j])
  {
    if chunks == [] then [] else Recvs(chunks[..|chunks| - 1]) + [Recv(chunks[|chunks| - 1])]
  }

  lemma AttemptsNext(outcomes: seq<ConnectOutcome>, i: nat)
    requires i < |outcomes|
    ensures Attempts(outcomes[..i + 1]) == Attempts(outcomes[..i]) + [Attempt(outcomes[i])]
  {
    assert outcomes[..i + 1][..i] == outcomes[..i];
  }

  /** The bytes sent to the server, one entry per `sendall`. */
  function Sent(trace: seq<ClientEvent>): seq<Bytes> {
    if trace == [] then []
    else if trace[0].Send? then [trace[0].bytes] + Sent(trace[1..])
    else Sent(trace[1..])
  }

  /** The number of connections made. */
  function Connections(trace: seq<ClientEvent>): nat {
    if trace == [] then 0
    else (if trace[0] == Attempt(Connected) then 1 else 0) + Connections(trace[1..])
  }

  lemma {:induction false} TraceAppend(a: seq<ClientEvent>, b: seq<ClientEvent>)
    ensures Sent(a + b) == Sent(a) + Sent(b)
    ensures Connections(a + b) == Connections(a) + Connections(b)
  {
    if a == [] {
      assert a + b == b;
    } else {
      assert (a + b)[1..] == a[1..] + b;
      TraceAppend(a[1..], b);
    }
  }

  /** Events that send nothing and open no connection. */
  lemma {:induction false} Quiet(t: seq<ClientEvent>)
    requires forall j :: 0 <= j < |t| ==> !t[j].Send? && t[j] != Attempt(Connected)
    ensures Sent(t) == [] && Connections(t) == 0
  {
    if t != [] {
      Quiet(t[1..]);
    }
  }

  /** Connect attempts send nothing, and at most the last one connects. */
  lemma AttemptsCounts(outcomes: seq<ConnectOutcome>)
    requires forall j :: 0 <= j < |outcomes| - 1 ==> outcomes[j] == Refused
    ensures Sent(Attempts(outcomes)) == []
    ensures Connections(Attempts(outcomes)) == if outcomes != [] && outcomes[|outcomes| - 1] == Connected then 1 else 0
  {
    if outcomes != [] {
      var front := outcomes[..|outcomes| - 1];
      Quiet(Attempts(front));
      TraceAppend(Attempts(front), [Attempt(outcomes[|outcomes| - 1])]);
    }
  }

  /** `initialize`: the retry loop over the connect attempts the environment
      produces. Every attempt replaces the socket; a refusal is retried, the
      first success sets the flag, and any other error propagates. A list made
      only of refusals stands for a loop that is still retrying. */
  function ConnectStep(s: ClientState, outcomes: seq<ConnectOutcome>): (ClientState, Result<bool>) {
    var k := FirstNonRefused(outcomes);
    if k == |outcomes| then
      (s.(connected := if outcomes == [] then s.connected else false, trace := s.trace + Attempts(outcomes)), Err(StillRefused))
    else if outcomes[k] == Connected then
      (ClientState(true, true, s.trace + Attempts(outcomes[..k + 1])), Ok(true))
    else
      (s.(connected := false, trace := s.trace + Attempts(outcomes[..k + 1])), Err(ConnectFailed))
  }

  lemma ConnectStepRefused(s: ClientState, outcomes: seq<ConnectOutcome>)
    requires forall j :: 0 <= j < |outcomes| ==> outcomes[j] == Refused
    ensures ConnectStep(s, outcomes) ==
      (s.(connected := if outcomes == [] then s.connected else false, trace := s.trace + Attempts(outcomes)), Err(StillRefused))
  {
  }

  lemma ConnectStepAt(s: ClientState, outcomes: seq<ConnectOutcome>, i: nat)
    requires i < |outcomes| && outcomes[i] != Refused
    requires forall j :: 0 <= j < i ==> outcomes[j] == Refused
    ensures ConnectStep(s, outcomes) ==
      if outcomes[i] == Connected then (ClientState(true, true, s.trace + Attempts(outcomes[..i + 1])), Ok(true))
      else (s.(connected := false, trace := s.trace + Attempts(outcomes[..i + 1])), Err(ConnectFailed))
  {
    assert FirstNonRefused(outcomes) == i;
  }

  /** The first attempt that is not refused decides; the flag is set only by a
      successful connect and left as it was by an error. */
  lemma ConnectDecides(s: ClientState, outcomes: seq<ConnectOutcome>)
    ensures var (s', r) := ConnectStep(s, outcomes);
      var k := FirstNonRefused(outcomes);
      (r == Ok(true) <==> k < |outcomes| && outcomes[k] == Connected) &&
      (r == Err(ConnectFailed) <==> k < |outcomes| && outcomes[k] == Failed) &&
      (r == Err(StillRefused) <==> k == |outcomes|) &&
      (r.Ok? ==> s'.hasFd && s'.connected) &&
      (r.Err? ==> s'.hasFd == s.hasFd) &&
      (r == Err(ConnectFailed) ==> !s'.connected)
  {
  }

  /** Connecting sends nothing and opens one connection exactly when it
      succeeds. */
  lemma ConnectCounts(s: ClientState, outcomes: seq<ConnectOutcome>)
    ensures var (s', r) := ConnectStep(s, outcomes);
      Sent(s'.trace) == Sent(s.trace) &&
      Connections(s'.trace) == Connections(s.trace) + (if r.Ok? then 1 else 0)
  {
    var k := FirstNonRefused(outcomes);
    var tried := if k < |outcomes| then outcomes[..k + 1] else outcomes;
    AttemptsCounts(tried);
    TraceAppend(s.trace, Attempts(tried));
  }

  /** `_respond_to_server`: connect first when the flag is clear, then send
      the pickled value of the code. */
  function RespondStep(codec: Codec, s: ClientState, code: ResponseCode, outcomes: seq<ConnectOutcome>): (ClientState, Result<()>) {
    var (s1, c) := if s.hasFd then (s, Ok(true)) else ConnectStep(s, outcomes);
    if c.Err? then (s1, Err(c.error))
    else if !s1.connected then (s1, Err(NotConnected))
    else (s1.(trace := s1.trace + [Send(CodeBytes(codec, code))]), Ok(()))
  }

  /** A response sends exactly the pickled code, on a connection made first if
      the flag was clear, and sends nothing when connecting fails. */
  lemma RespondSendsCode(codec: Codec, s: ClientState, code: ResponseCode, outcomes: seq<ConnectOutcome>)
    ensures var (s', r) := RespondStep(codec, s, code, outcomes);
      (s.hasFd && s.connected ==> r == Ok(())) &&
      (s.hasFd && !s.connected ==> (s', r) == (s, Err(NotConnected))) &&
      (!s.hasFd ==> (r.Ok? <==> ConnectStep(s, outcomes).1.Ok?)) &&
      (!s.hasFd && r.Err? ==> (s', r) == (ConnectStep(s, outcomes).0, Err(ConnectStep(s, outcomes).1.error))) &&
      (r.Ok? ==> s'.hasFd && s'.connected && Sent(s'.trace) == Sent(s.trace) + [CodeBytes(codec, code)]) &&
      (r.Ok? ==> s'.trace == (if s.hasFd then s.trace else ConnectStep(s, outcomes).0.trace) + [Send(CodeBytes(codec, code))]) &&
      (r.Err? ==> Sent(s'.trace) == Sent(s.trace)) &&
      Connections(s'.trace) <= Connections(s.trace) + 1
  {
    ConnectDecides(s, outcomes);
    ConnectCounts(s, outcomes);
    var (s1, c) := if s.hasFd then (s, Ok(true)) else ConnectStep(s, outcomes);
    var sending := [Send(CodeBytes(codec, code))];
    TraceAppend(s1.trace, sending);
    assert Sent(sending) == [CodeBytes(codec, code)] && Connections(sending) == 0 by {
      Quiet(sending[1..]);
    }
  }

  /** What `grab_data_from_server` returns for the bytes it received: the
      unpickled object; nothing is unpickled from zero bytes, where the
      result is `None` with debug output on and an unbound local otherwise. */
  function Unpickle(codec: Codec, debug: bool, data: Bytes): (r: Result<Value>)
    ensures data == [] ==> r == if debug then Ok(NoneValue) else Err(NoData)
    ensures data != [] ==> (r.Ok? <==> codec.loads(data).Some?)
    ensures data != [] && r.Ok? ==> codec.loads(data) == Some(r.value)
    ensures data != [] && r.Err? ==> r.error == LoadFailed
  {
    if |data| > 0 then
      match codec.loads(data)
      case None => Err(LoadFailed)
      case Some(v) => Ok(v)
    else if debug then Ok(NoneValue)
    else Err(NoData)
  }

  /** `grab_data_from_server`: connect if needed, send ACCEPT_DATA, read the
      chunks before the first empty read, close, clear the flag, unpickle. */
  function GrabStep(codec: Codec, debug: bool, s: ClientState, outcomes: seq<ConnectOutcome>, chunks: seq<Bytes>): (ClientState, Result<Value>) {
    var (s1, sr) := RespondStep(codec, s, AcceptData, outcomes);
    if sr.Err? then (s1, Err(sr.error))
    else
      var kept := chunks[..FirstEmpty(chunks)];
      (ClientState(false, false, s1.trace + Recvs(kept) + [Close]), Unpickle(codec, debug, Join(kept)))
  }

  /** A grab sends either nothing (connecting failed, or the socket a failed
      re-`initialize` left behind is not connected) or exactly the accept
      code on at most one new connection; once the code is sent, the socket
      is closed and the flag cleared on every path, decoding failure included,
      and the result is what the chunks before the first empty read unpickle to. */
  lemma GrabSendsOnceAndCloses(codec: Codec, debug: bool, s: ClientState, outcomes: seq<ConnectOutcome>, chunks: seq<Bytes>)
    ensures var (s', r) := GrabStep(codec, debug, s, outcomes, chunks);
      (Sent(s'.trace) == Sent(s.trace) || Sent(s'.trace) == Sent(s.trace) + [CodeBytes(codec, AcceptData)]) &&
      Connections(s'.trace) <= Connections(s.trace) + 1 &&
      (Sent(s'.trace) != Sent(s.trace) ==>
        var sent := RespondStep(codec, s, AcceptData, outcomes).0.trace;
        |sent| > 0 && sent[|sent| - 1] == Send(CodeBytes(codec, AcceptData)) &&
        s'.trace == sent + Recvs(chunks[..FirstEmpty(chunks)]) + [Close] &&
        !s'.hasFd && !s'.connected &&
        r == Unpickle(codec, debug, Join(chunks[..FirstEmpty(chunks)]))) &&
      (Sent(s'.trace) == Sent(s.trace) ==> r.Err? && r.error in {StillRefused, ConnectFailed, NotConnected})
  {
    RespondSendsCode(codec, s, AcceptData, outcomes);
    ConnectDecides(s, outcomes);
    ConnectCounts(s, outcomes);
    var (s1, sr) := RespondStep(codec, s, AcceptData, outcomes);
    if sr.Ok? {
      var kept := chunks[..FirstEmpty(chunks)];
      var reading := Recvs(kept) + [Close];
      Quiet(reading);
      TraceAppend(s1.trace, reading);
      assert s1.trace + Recvs(kept) + [Close] == s1.trace + reading;
    }
  }

  /** `stop_server`: send DECLINE_DATA, then close and clear the flag. */
  function StopStep(codec: Codec, s: ClientState, outcomes: seq<ConnectOutcome>): (ClientState, Result<()>) {
    var (s1, sr) := RespondStep(codec, s, DeclineData, outcomes);
    if sr.Err? then (s1, sr)
    else (ClientState(false, false, s1.trace + [Close]), Ok(()))
  }

  /** Stopping sends exactly the decline code and ends with the socket closed
      and the flag clear; it fails, sending nothing, exactly when the response
      does: connecting fails, or the socket is not connected. */
  lemma StopSendsDecline(codec: Codec, s: ClientState, outcomes: seq<ConnectOutcome>)
    ensures var (s', r) := StopStep(codec, s, outcomes);
      (r.Ok? <==> RespondStep(codec, s, DeclineData, outcomes).1.Ok?) &&
      (r.Ok? ==> !s'.hasFd && !s'.connected &&
                 var sent := RespondStep(codec, s, DeclineData, outcomes).0.trace;
                 |sent| > 0 && sent[|sent| - 1] == Send(CodeBytes(codec, DeclineData)) &&
                 s'.trace == sent + [Close] &&
                 Sent(s'.trace) == Sent(s.trace) + [CodeBytes(codec, DeclineData)]) &&
      (r.Err? ==> Sent(s'.trace) == Sent(s.trace)) &&
      Connections(s'.trace) <= Connections(s.trace) + 1
  {
    RespondSendsCode(codec, s, DeclineData, outcomes);
    var (s1, sr) := RespondStep(codec, s, DeclineData, outcomes);
    TraceAppend(s1.trace, [Close]);
    Quiet([Close]);
  }

  /** The codes sent on the current connection: the `Send` events after the
      last connect attempt or close. */
  function CodesOnConnection(t: seq<ClientEvent>): nat {
    if t == [] then 0
    else if t[|t| - 1].Attempt? || t[|t| - 1].Close? then 0
    else CodesOnConnection(t[..|t| - 1]) + (if t[|t| - 1].Send? then 1 else 0)
  }

  /** At no point of the trace were two codes sent on one connection. */
  predicate OneCode(t: seq<ClientEvent>)
    decreases |t|
  {
    t == [] || (OneCode(t[..|t| - 1]) && CodesOnConnection(t) <= 1)
  }

  /** What every client reached through its public operations satisfies: one
      code per connection so far, and none yet on a connection it holds. */
  predicate Inv(s: ClientState) {
    OneCode(s.trace) && (s.hasFd && s.connected ==> CodesOnConnection(s.trace) == 0)
  }

  /** Events that send nothing keep one code per connection and add no code
      to the current connection. */
  lemma {:induction false} QuietKeeps(t: seq<ClientEvent>, u: seq<ClientEvent>)
    requires OneCode(t)
    requires forall j :: 0 <= j < |u| ==> !u[j].Send?
    ensures OneCode(t + u) && CodesOnConnection(t + u) <= CodesOnConnection(t)
    decreases |u|
  {
    if u == [] {
      assert t + u == t;
    } else {
      var front := u[..|u| - 1];
      QuietKeeps(t, front);
      assert (t + u)[..|t + u| - 1] == t + front;
    }
  }

  /** The first code on a connection keeps one code per connection. */
  lemma SendKeeps(t: seq<ClientEvent>, b: Bytes)
    requires OneCode(t) && CodesOnConnection(t) == 0
    ensures OneCode(t + [Send(b)]) && CodesOnConnection(t + [Send(b)]) == 1
  {
    assert (t + [Send(b)])[..|t|] == t;
  }

  /** A client as constructed satisfies the invariant. */
  lemma InitialInv()
    ensures Inv(ClientState(false, false, []))
  {
  }

  /** `initialize` keeps the invariant: it only adds connect attempts, and a
      successful one starts a connection with no code on it. */
  lemma ConnectKeeps(s: ClientState, outcomes: seq<ConnectOutcome>)
    requires Inv(s)
    ensures Inv(ConnectStep(s, outcomes).0)
  {
    var k := FirstNonRefused(outcomes);
    var tried := if k < |outcomes| then outcomes[..k + 1] else outcomes;
    var t := s.trace + Attempts(tried);
    QuietKeeps(s.trace, Attempts(tried));
    if tried != [] {
      assert t[|t| - 1] == Attempt(tried[|tried| - 1]);
    } else {
      assert t == s.trace;
    }
  }

  /** A response keeps one code per connection: it sends on a connection
      that holds no code yet, and when it fails the invariant still holds. */
  lemma RespondKeeps(codec: Codec, s: ClientState, code: ResponseCode, outcomes: seq<ConnectOutcome>)
    requires Inv(s)
    ensures var (s1, r) := RespondStep(codec, s, code, outcomes);
      OneCode(s1.trace) && (r.Err? ==> Inv(s1))
  {
    var (s0, c) := if s.hasFd then (s, Ok(true)) else ConnectStep(s, outcomes);
    if !s.hasFd {
      ConnectKeeps(s, outcomes);
    }
    if c.Ok? && s0.connected {
      SendKeeps(s0.trace, CodeBytes(codec, code));
    }
  }

  /** `grab_data_from_server` keeps the invariant. */
  lemma GrabKeeps(codec: Codec, debug: bool, s: ClientState, outcomes: seq<ConnectOutcome>, chunks: seq<Bytes>)
    requires Inv(s)
    ensures Inv(GrabStep(codec, debug, s, outcomes, chunks).0)
  {
    RespondKeeps(codec, s, AcceptData, outcomes);
    var (s1, sr) := RespondStep(codec, s, AcceptData, outcomes);
    if sr.Ok? {
      var reading := Recvs(chunks[..FirstEmpty(chunks)]) + [Close];
      QuietKeeps(s1.trace, reading);
      assert GrabStep(codec, debug, s, outcomes, chunks).0 == ClientState(false, false, s1.trace + reading);
    } else {
      assert GrabStep(codec, debug, s, outcomes, chunks).0 == s1;
    }
  }

  /** `stop_server` keeps the invariant. */
  lemma StopKeeps(codec: Codec, s: ClientState, outcomes: seq<ConnectOutcome>)
    requires Inv(s)
    ensures Inv(StopStep(codec, s, outcomes).0)
  {
    RespondKeeps(codec, s, DeclineData, outcomes);
    var (s1, sr) := RespondStep(codec, s, DeclineData, outcomes);
    if sr.Ok? {
      QuietKeeps(s1.trace, [Close]);
    }
  }

  /** A call of one of the client's public operations, with what the
      environment answers to it. */
  datatype ClientCall =
    | Connect(outcomes: seq<ConnectOutcome>)
    | Grab(outcomes: seq<ConnectOutcome>, chunks: seq<Bytes>)
    | Stop(outcomes: seq<ConnectOutcome>)

  function Apply(codec: Codec, debug: bool, s: ClientState, call: ClientCall): ClientState {
    match call
    case Connect(outcomes) => ConnectStep(s, outcomes).0
    case Grab(outcomes, chunks) => GrabStep(codec, debug, s, outcomes, chunks).0
    case Stop(outcomes) => StopStep(codec, s, outcomes).0
  }

  /** The state after a sequence of calls. */
  function Run(codec: Codec, debug: bool, s: ClientState, calls: seq<ClientCall>): ClientState
    decreases |calls|
  {
    if calls == [] then s else Run(codec, debug, Apply(codec, debug, s, calls[0]), calls[1..])
  }

  lemma {:induction false} RunKeeps(codec: Codec, debug: bool, s: ClientState, calls: seq<ClientCall>)
    requires Inv(s)
    ensures Inv(Run(codec, debug, s, calls))
    decreases |calls|
  {
    if calls != [] {
      match calls[0] {
        case Connect(outcomes) => ConnectKeeps(s, outcomes);
        case Grab(outcomes, chunks) => GrabKeeps(codec, debug, s, outcomes, chunks);
        case Stop(outcomes) => StopKeeps(codec, s, outcomes);
      }
      RunKeeps(codec, debug, Apply(codec, debug, s, calls[0]), calls[1..]);
    }
  }

  /** Exactly one code per connection: whatever sequence of `initialize`,
      `grab_data_from_server` and `stop_server` calls a new client makes, and
      whatever the network answers, no connection ever carries two codes. */
  lemma OneCodePerConnection(codec: Codec, debug: bool, calls: seq<ClientCall>)
    ensures OneCode(Run(codec, debug, ClientState(false, false, []), calls).trace)
  {
    InitialInv();
    RunKeeps(codec, debug, ClientState(false, false, []), calls);
  }

  /** The `while True` read loop of `grab_data_from_server`: the chunks
      `recv` returns up to the first empty one, which means the server closed;
      running out of chunks means the same. */
  method ReadChunks(chunks: seq<Bytes>) returns (received: seq<Bytes>)
    ensures received == chunks[..FirstEmpty(chunks)]
    ensures forall j :: 0 <= j < |received| ==> received[j] != []
  {
    received := [];
    var i := 0;
    while true
      invariant i <= |chunks|
      invariant forall j :: 0 <= j < i ==> chunks[j] != []
      invariant received == chunks[..i]
      decreases |chunks| - i
    {
      var chunk := if i < |chunks| then chunks[i] else [];
      if chunk == [] {
        break;
      }
      received := received + [chunk];
      i := i + 1;
    }
  }

  /** After a successful connect, a response sends on that connection. */
  lemma RespondAfterConnect(codec: Codec, s: ClientState, code: ResponseCode, outcomes: seq<ConnectOutcome>)
    requires !s.hasFd && ConnectStep(s, outcomes).1.Ok?
    ensures RespondStep(codec, s, code, outcomes) == RespondStep(codec, ConnectStep(s, outcomes).0, code, outcomes)
  {
    ConnectDecides(s, outcomes);
    ConnectCounts(s, outcomes);
  }

  /** A client object. The class-level socket of the Python class, shared by every
      instance, is per instance here. */
  class TCPickleClient {
    const codec: Codec
    const ip: string
    const port: int
    const debug: bool

    var hasFileDescriptor: bool
    var connected: bool
    var trace: seq<ClientEvent>

    function State(): ClientState
      reads this
    {
      ClientState(hasFileDescriptor, connected, trace)
    }

    constructor (codec: Codec, ip: string, port: int, debug: bool)
      ensures this.codec == codec && this.ip == ip && this.port == port && this.debug == debug
      ensures State() == ClientState(false, false, [])
    {
      this.codec := codec;
      this.ip := ip;
      this.port := port;
      this.debug := debug;
      hasFileDescriptor := false;
      connected := false;
      trace := [];
    }

    /** `initialize`; `outcomes` are the results of the successive `connect`
        calls. */
    method Initialize(outcomes: seq<ConnectOutcome>) returns (r: Result<bool>)
      modifies this
      ensures (State(), r) == ConnectStep(old(State()), outcomes)
    {
      var i := 0;
      var connectionNotOk := true;
      while connectionNotOk
        invariant i <= |outcomes|
        invariant connectionNotOk ==> forall j :: 0 <= j < i ==> outcomes[j] == Refused
        invariant connectionNotOk ==> trace == old(trace) + Attempts(outcomes[..i])
        invariant connectionNotOk ==> connected == if i == 0 then old(connected) else false
        invariant hasFileDescriptor == old(hasFileDescriptor)
        invariant !connectionNotOk ==> ConnectStep(old(State()), outcomes) == (State().(hasFd := true), Ok(true))
        decreases |outcomes| - i, connectionNotOk
      {
        if i == |outcomes| {
          assert outcomes[..i] == outcomes;
          ConnectStepRefused(old(State()), outcomes);
          return Err(StillRefused);
        }
        AttemptsNext(outcomes, i);
        connected := false;
        trace := trace + [Attempt(outcomes[i])];
        assert trace == old(trace) + Attempts(outcomes[..i + 1]);
        match outcomes[i] {
          case Connected =>
            connected := true;
            connectionNotOk := false;
            ConnectStepAt(old(State()), outcomes, i);
          case Refused =>
          case Failed =>
            ConnectStepAt(old(State()), outcomes, i);
            return Err(ConnectFailed);
        }
        i := i + 1;
      }
      hasFileDescriptor := true;
      r := Ok(true);
    }

    /** `_respond_to_server` */
    method RespondToServer(code: ResponseCode, outcomes: seq<ConnectOutcome>) returns (r: Result<()>)
      modifies this
      ensures (State(), r) == RespondStep(codec, old(State()), code, outcomes)
    {
      if !hasFileDescriptor {
        var c := Initialize(outcomes);
        if c.Err? {
          return Err(c.error);
        }
      }
      if !connected {
        return Err(NotConnected);
      }
      trace := trace + [Send(CodeBytes(codec, code))];
      r := Ok(());
    }

    /** `grab_data_from_server`; `chunks` are the results of the successive
        `recv` calls, and running out of them is the server closing. */
    method GrabDataFromServer(outcomes: seq<ConnectOutcome>, chunks: seq<Bytes>) returns (r: Result<Value>)
      modifies this
      ensures (State(), r) == GrabStep(codec, debug, old(State()), outcomes, chunks)
    {
      if !hasFileDescriptor {
        var c := Initialize(outcomes);
        if c.Err? {
          return Err(c.error);
        }
        RespondAfterConnect(codec, old(State()), AcceptData, outcomes);
      }
      var sent := RespondToServer(AcceptData, outcomes);
      ghost var responded := RespondStep(codec, old(State()), AcceptData, outcomes);
      assert (State(), sent) == responded;
      if sent.Err? {
        return Err(sent.error);
      }
      var data: Bytes := [];
      var received := ReadChunks(chunks);
      trace := trace + Recvs(received);
      data := data + Join(received);
      connected := false;
      trace := trace + [Close];
      hasFileDescriptor := false;
      if |data| > 0 {
        match codec.loads(data)
        case None =>
          r := Err(LoadFailed);
        case Some(v) =>
          r := Ok(v);
      } else if debug {
        r := Ok(NoneValue);
      } else {
        r := Err(NoData);
      }
      assert data == Join(chunks[..FirstEmpty(chunks)]);
      assert r == Unpickle(codec, debug, data);
    }

    /** `stop_server` */
    method StopServer(outcomes: seq<ConnectOutcome>) returns (r: Result<()>)
      modifies this
      ensures (State(), r) == StopStep(codec, old(State()), outcomes)
    {
      r := RespondToServer(DeclineData, outcomes);
      if r.Err? {
        return;
      }
      assert State() == RespondStep(codec, old(State()), DeclineData, outcomes).0;
      ghost var responded := RespondStep(codec, old(State()), DeclineData, outcomes);
      assert responded.1 == Ok(());
      connected := false;
      trace := trace + [Close];
      hasFileDescriptor := false;
      assert StopStep(codec, old(State()), outcomes).0 == ClientState(false, false, responded.0.trace + [Close]);
    }
  }
}
