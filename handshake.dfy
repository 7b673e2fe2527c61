/** The two ends together: what the server reads is what the client sent,
    what the client unpickles is what the server offered, and the demo run of
    both entry points (two accepts, then a decline). */
module Handshake {
  import opened Wire
  import opened Codes
  import opened Server
  import opened Client

  /** A code the client sends reaches the server's decision intact, provided
      its pickle fits in the server's single read. */
  lemma CodeReachesServer(codec: Codec, code: ResponseCode)
    requires Faithful(codec)
    requires |CodeBytes(codec, code)| <= RecvSize
    ensures EvalAnswerToOffer(codec, CodeBytes(codec, code)) ==
      match code
      case AcceptData => Ok(true)
      case DeclineData => Ok(false)
      case Invalid => Err(InvalidResponse)
  {
    assert codec.loads(codec.dumps(IntValue(CodeValue(code)))) == Some(IntValue(CodeValue(code)));
  }

  /** A client that connects and closes without sending anything makes the
      server's read return no bytes, which do not unpickle. */
  lemma EmptyRequestRejected(codec: Codec)
    requires Faithful(codec)
    ensures EvalAnswerToOffer(codec, []) == Err(LoadFailed)
  {
  }

  /** The client's read loop recovers the payload: reads that deliver it,
      followed by the empty read of a closed connection (or by nothing), are
      joined back into the pickle, which loads to the offered unit. */
  lemma {:induction false} PayloadRoundTrip(codec: Codec, debug: bool, data: Value, chunks: seq<Bytes>, after: seq<Bytes>)
    requires Faithful(codec)
    requires Delivers(chunks, codec.dumps(data))
    requires after == [] || after[0] == []
    ensures Unpickle(codec, debug, Join((chunks + after)[..FirstEmpty(chunks + after)])) == Ok(data)
  {
    var all := chunks + after;
    var k := FirstEmpty(all);
    forall j | 0 <= j < |chunks|
      ensures all[j] != []
    {
      assert all[j] == chunks[j];
    }
    if after != [] {
      assert all[|chunks|] == after[0];
    }
    assert k == |chunks|;
    assert all[..k] == chunks;
  }

  /** A client that has, or can make, a connection grabs the offered unit:
      it sends exactly ACCEPT_DATA, reads the payload up to the empty read of
      the closed connection, and ends with its socket closed. */
  lemma {:induction false} GrabReturnsPayload(codec: Codec, debug: bool, cs: ClientState, data: Value,
                                              outcomes: seq<ConnectOutcome>, chunks: seq<Bytes>, after: seq<Bytes>)
    requires Faithful(codec)
    requires if cs.hasFd then cs.connected else ConnectStep(cs, outcomes).1.Ok?
    requires Delivers(chunks, codec.dumps(data))
    requires after == [] || after[0] == []
    ensures var (cs', got) := GrabStep(codec, debug, cs, outcomes, chunks + after);
      got == Ok(data) &&
      Sent(cs'.trace) == Sent(cs.trace) + [CodeBytes(codec, AcceptData)] &&
      !cs'.hasFd && !cs'.connected
  {
    PayloadRoundTrip(codec, debug, data, chunks, after);
    RespondSendsCode(codec, cs, AcceptData, outcomes);
    GrabSendsOnceAndCloses(codec, debug, cs, outcomes, chunks + after);
  }

  /** A client that has, or can make, a connection stops the server: it sends
      exactly DECLINE_DATA and ends with its socket closed. */
  lemma StopDeclines(codec: Codec, cs: ClientState, outcomes: seq<ConnectOutcome>)
    requires if cs.hasFd then cs.connected else ConnectStep(cs, outcomes).1.Ok?
    ensures var (cs', stopped) := StopStep(codec, cs, outcomes);
      stopped == Ok(()) &&
      Sent(cs'.trace) == Sent(cs.trace) + [CodeBytes(codec, DeclineData)] &&
      !cs'.hasFd && !cs'.connected
  {
    RespondSendsCode(codec, cs, DeclineData, outcomes);
    StopSendsDecline(codec, cs, outcomes);
  }

  /** One accepted exchange: the client sends ACCEPT_DATA on a connection of
      its own, the server reads it, writes the pickled unit and keeps
      listening, and the client gets the unit back with its socket closed. */
  lemma AcceptExchange(codec: Codec, debug: bool, ss: ServerState, cs: ClientState, data: Value,
                       outcomes: seq<ConnectOutcome>, chunks: seq<Bytes>)
    requires Faithful(codec)
    requires |CodeBytes(codec, AcceptData)| <= RecvSize
    requires ss.listener == Listening
    requires if cs.hasFd then cs.connected else ConnectStep(cs, outcomes).1.Ok?
    requires Delivers(chunks, codec.dumps(data))
    ensures var (ss', served) := OfferStep(codec, ss, data, Incoming(CodeBytes(codec, AcceptData), true));
      var (cs', got) := GrabStep(codec, debug, cs, outcomes, chunks);
      served == Ok(true) && got == Ok(data) &&
      ss'.listener == Listening && !ss'.connOpen &&
      Payloads(ss'.trace) == Payloads(ss.trace) + [codec.dumps(data)] &&
      Sent(cs'.trace) == Sent(cs.trace) + [CodeBytes(codec, AcceptData)] &&
      !cs'.hasFd && !cs'.connected
  {
    CodeReachesServer(codec, AcceptData);
    GrabReturnsPayload(codec, debug, cs, data, outcomes, chunks, []);
    assert chunks + [] == chunks;
  }

  /** The closing exchange: the client sends DECLINE_DATA, the server closes
      the connection and its listening socket and writes nothing. */
  lemma DeclineExchange(codec: Codec, ss: ServerState, cs: ClientState, data: Value, outcomes: seq<ConnectOutcome>)
    requires Faithful(codec)
    requires |CodeBytes(codec, DeclineData)| <= RecvSize
    requires ss.listener == Listening
    requires if cs.hasFd then cs.connected else ConnectStep(cs, outcomes).1.Ok?
    ensures var (ss', served) := OfferStep(codec, ss, data, Incoming(CodeBytes(codec, DeclineData), true));
      var (cs', stopped) := StopStep(codec, cs, outcomes);
      served == Ok(false) && stopped == Ok(()) &&
      ss'.listener == Closed && !ss'.connOpen && Payloads(ss'.trace) == Payloads(ss.trace) &&
      Sent(cs'.trace) == Sent(cs.trace) + [CodeBytes(codec, DeclineData)] &&
      !cs'.hasFd && !cs'.connected
  {
    CodeReachesServer(codec, DeclineData);
    StopDeclines(codec, cs, outcomes);
  }

  /** The unit both entry points exchange: `[1.0, 2.0, 3.0, 4.0, 5.0]`. */
  function DemoUnit(): Value {
    ListValue([FloatValue(1, 0), FloatValue(1, 1), FloatValue(3, 0), FloatValue(1, 2), FloatValue(5, 0)])
  }

  /** The server's entry point: initialize, then offer the unit until a
      client declines; here the clients answer accept, accept, decline. */
  method DemoServer(codec: Codec, conns: seq<Incoming>) returns (offers: nat, last: Result<bool>, payloads: seq<Bytes>)
    requires Faithful(codec)
    requires |CodeBytes(codec, AcceptData)| <= RecvSize && |CodeBytes(codec, DeclineData)| <= RecvSize
    requires conns == [Incoming(CodeBytes(codec, AcceptData), true),
                       Incoming(CodeBytes(codec, AcceptData), true),
                       Incoming(CodeBytes(codec, DeclineData), true)]
    ensures offers == 3 && last == Ok(false)
    ensures payloads == [codec.dumps(DemoUnit()), codec.dumps(DemoUnit())]
  {
    var server := new TCPickleServer(codec, "localhost", 50007);
    var bound := server.Initialize(true, "localhost");
    ghost var listening := server.State();
    CodeReachesServer(codec, AcceptData);
    CodeReachesServer(codec, DeclineData);
    DeclineEndsSession(codec, listening, DemoUnit(), conns, 3);
    offers, last := OfferUntilDeclined(server, DemoUnit(), conns);
    payloads := Payloads(server.trace);
  }

  /** The client's `initialize` meeting a server that refuses until it
      listens: a run of refusals ending in a success connects, sending nothing. */
  method ConnectPastRefusals(client: TCPickleClient, outcomes: seq<ConnectOutcome>) returns (r: Result<bool>)
    modifies client
    requires |outcomes| > 0 && outcomes[|outcomes| - 1] == Connected
    requires forall j :: 0 <= j < |outcomes| - 1 ==> outcomes[j] == Refused
    ensures r == Ok(true) && client.hasFileDescriptor && client.connected
    ensures Sent(client.trace) == Sent(old(client.trace))
  {
    ConnectDecides(client.State(), outcomes);
    ConnectCounts(client.State(), outcomes);
    assert FirstNonRefused(outcomes) == |outcomes| - 1;
    r := client.Initialize(outcomes);
  }

  /** One `grab_data_from_server` of the demo, on a client that has, or can
      make, a connection and is sent the pickled `data`. */
  method GrabUnit(client: TCPickleClient, outcomes: seq<ConnectOutcome>, chunks: seq<Bytes>, after: seq<Bytes>, ghost data: Value)
    returns (got: Result<Value>)
    modifies client
    requires Faithful(client.codec)
    requires if client.hasFileDescriptor then client.connected else ConnectStep(client.State(), outcomes).1.Ok?
    requires Delivers(chunks, client.codec.dumps(data))
    requires after == [] || after[0] == []
    ensures got == Ok(data) && !client.hasFileDescriptor && !client.connected
    ensures Sent(client.trace) == Sent(old(client.trace)) + [CodeBytes(client.codec, AcceptData)]
  {
    GrabReturnsPayload(client.codec, client.debug, client.State(), data, outcomes, chunks, after);
    got := client.GrabDataFromServer(outcomes, chunks + after);
  }

  /** The demo's `stop_server`, on a client that has, or can make, a connection. */
  method StopUnit(client: TCPickleClient, outcomes: seq<ConnectOutcome>) returns (stopped: Result<()>)
    modifies client
    requires if client.hasFileDescriptor then client.connected else ConnectStep(client.State(), outcomes).1.Ok?
    ensures stopped == Ok(()) && !client.hasFileDescriptor && !client.connected
    ensures Sent(client.trace) == Sent(old(client.trace)) + [CodeBytes(client.codec, DeclineData)]
  {
    StopDeclines(client.codec, client.State(), outcomes);
    stopped := client.StopServer(outcomes);
  }

  /** The client's entry point: initialize (meeting a server that is not yet
      listening), grab twice, stop the server. `payloads` are what the server
      wrote on the two accepted connections; the first arrives as reads that
      end with the list, the second as reads followed by an empty read. */
  method DemoClient(codec: Codec, payloads: seq<Bytes>) returns (first: Result<Value>, second: Result<Value>, stopped: Result<()>, sent: seq<Bytes>)
    requires Faithful(codec)
    requires payloads == [codec.dumps(DemoUnit()), codec.dumps(DemoUnit())]
    ensures first == Ok(DemoUnit()) && second == Ok(DemoUnit()) && stopped == Ok(())
    ensures sent == [CodeBytes(codec, AcceptData), CodeBytes(codec, AcceptData), CodeBytes(codec, DeclineData)]
  {
    var client := new TCPickleClient(codec, "localhost", 50007, true);
    var connected := ConnectPastRefusals(client, [Refused, Refused, Connected]);
    assert Sent(client.trace) == [];

    var pieces := Split(payloads[0], ChunkSize);
    SplitDelivers(payloads[0], ChunkSize);
    first := GrabUnit(client, [], pieces, [], DemoUnit());

    pieces := Split(payloads[1], ChunkSize);
    SplitDelivers(payloads[1], ChunkSize);
    ConnectDecides(client.State(), [Connected]);
    second := GrabUnit(client, [Connected], pieces, [[]], DemoUnit());

    ConnectDecides(client.State(), [Connected]);
    stopped := StopUnit(client, [Connected]);
    sent := Sent(client.trace);
  }

  /** The demo run of both entry points: the requests the server is given are
      the codes the client sends, and the payloads the client is given are
      what the server writes. */
  method Demo(codec: Codec)
    returns (first: Result<Value>, second: Result<Value>, stopped: Result<()>, offers: nat, last: Result<bool>)
    requires Faithful(codec)
    requires |CodeBytes(codec, AcceptData)| <= RecvSize && |CodeBytes(codec, DeclineData)| <= RecvSize
    ensures first == Ok(DemoUnit()) && second == Ok(DemoUnit()) && stopped == Ok(())
    ensures offers == 3 && last == Ok(false)
  {
    var conns := [Incoming(CodeBytes(codec, AcceptData), true),
                  Incoming(CodeBytes(codec, AcceptData), true),
                  Incoming(CodeBytes(codec, DeclineData), true)];
    var payloads;
    offers, last, payloads := DemoServer(codec, conns);
    var sent;
    first, second, stopped, sent := DemoClient(codec, payloads);
    assert sent == [conns[0].request, conns[1].request, conns[2].request];
  }
}
