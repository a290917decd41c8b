/**
  One NTP round trip over an injected client (ntp/NtpTime.cs): validate the
  host, set the receive timeout, connect, send the client request, receive,
  parse, and dispose of the client on every path once validation has passed.
  Only socket failures are wrapped, in an InvalidOperationException.
 */
module NtpTime {
  import opened Wrappers
  import opened Exceptions
  import opened Text
  import opened NtpWire
  import opened UdpTransport

  /** Receive timeout in milliseconds. */
  const ServerTimeout: int := 5000

  function ContactFailure(host: string, port: int, cause: Exception): Exception
  {
    InvalidOperation("Failed to contact NTP server " + host + ":" + IntToString(port), Some(cause))
  }

  /** The `catch (SocketException)` around the exchange. */
  function WrapSocketErrors(host: string, port: int, r: Result<DateTime, Exception>): Result<DateTime, Exception>
  {
    if r.Failure? && r.error.Socket? then Failure(ContactFailure(host, port, r.error)) else r
  }

  /** All four steps, in the order they are made when none fails. */
  function FullExchange(host: string, port: int): seq<Call>
  {
    [TimeoutSet(ServerTimeout), Connected(host, port), Sent(ClientRequest(), BufferSize as int), Received]
  }

  /** How many steps are made: up to and including the first failing one. */
  function StepCount(script: Script): nat
  {
    if script.timeoutFault.Some? then 1
    else if script.connectFault.Some? then 2
    else if script.sendFault.Some? then 3
    else 4
  }

  /** The calls made inside the `using` block. */
  function StepCalls(host: string, port: int, script: Script): seq<Call>
  {
    FullExchange(host, port)[..StepCount(script)]
  }

  /** The calls made on the client once the host is valid: the steps up to the first failing one, then `Dispose`. */
  function ExchangeCalls(host: string, port: int, script: Script): seq<Call>
  {
    StepCalls(host, port, script) + [Disposed]
  }

  /** The outcome of the steps inside the `using` block. */
  function StepsOutcome(script: Script): Result<DateTime, Exception>
  {
    if script.timeoutFault.Some? then Failure(script.timeoutFault.value)
    else if script.connectFault.Some? then Failure(script.connectFault.value)
    else if script.sendFault.Some? then Failure(script.sendFault.value)
    else match script.reply
      case Failure(e) => Failure(e)
      case Success(data) => Parse(data)
  }

  /**
    The outcome of the exchange before socket failures are wrapped: an
    exception from `Dispose`, at the end of the `using` block, replaces
    whatever the steps produced.
   */
  function ExchangeOutcome(script: Script): Result<DateTime, Exception>
  {
    if script.disposeFault.Some? then Failure(script.disposeFault.value) else StepsOutcome(script)
  }

  function Exchange(host: string, port: int, script: Script): Result<DateTime, Exception>
  {
    WrapSocketErrors(host, port, ExchangeOutcome(script))
  }

  const BlankServer := ArgumentNull("ntpServer")

  /** The receive timeout the client ends with: 5000 unless the setter threw. */
  function TimeoutAfter(script: Script, before: int): int
  {
    if script.timeoutFault.None? then ServerTimeout else before
  }

  /** The body of the `using` block: the steps up to the first failing one. */
  method Converse(host: string, port: int, client: UdpClient) returns (outcome: Result<DateTime, Exception>)
    modifies client
    ensures outcome == StepsOutcome(client.script)
    ensures client.trace == old(client.trace) + StepCalls(host, port, client.script)
    ensures client.ReceiveTimeout == TimeoutAfter(client.script, old(client.ReceiveTimeout))
  {
    var fault := client.SetReceiveTimeout(ServerTimeout);
    if fault.Some? {
      return Failure(fault.value);
    }
    fault := client.Connect(host, port);
    if fault.Some? {
      return Failure(fault.value);
    }
    var created := NtpPacket.Create(Version3, Client);
    var packet := created.value;
    ClientRequestUnique(packet.Buffer[..]);
    var sent := client.Send(packet.Buffer, packet.Size());
    if sent.Failure? {
      return Failure(sent.error);
    }
    var received := client.Receive();
    if received.Failure? {
      return Failure(received.error);
    }
    return Parse(received.value);
  }

  /** `RetrieveNTPTime(ntpServer, ntpPort, udpClient)`; `None` is a null server name. */
  method RetrieveNTPTime(ntpServer: Option<string>, ntpPort: int, client: UdpClient) returns (r: Result<DateTime, Exception>)
    modifies client
    ensures IsNullOrWhiteSpace(ntpServer) ==>
      r == Failure(BlankServer) && client.trace == old(client.trace) && client.ReceiveTimeout == old(client.ReceiveTimeout)
    ensures !IsNullOrWhiteSpace(ntpServer) ==>
      && r == Exchange(ntpServer.value, ntpPort, client.script)
      && client.trace == old(client.trace) + ExchangeCalls(ntpServer.value, ntpPort, client.script)
      && client.ReceiveTimeout == TimeoutAfter(client.script, old(client.ReceiveTimeout))
  {
    if IsNullOrWhiteSpace(ntpServer) {
      return Failure(BlankServer);
    }
    var host := ntpServer.value;
    var outcome := Converse(host, ntpPort, client);
    var fault := client.Dispose();
    if fault.Some? {
      outcome := Failure(fault.value);
    }
    return WrapSocketErrors(host, ntpPort, outcome);
  }

  /** The receive timeout is set first; once it is set, the client connects to the requested endpoint. */
  lemma TimeoutBeforeConnect(host: string, port: int, script: Script)
    ensures ExchangeCalls(host, port, script)[0] == TimeoutSet(ServerTimeout)
    ensures script.timeoutFault.None? ==> ExchangeCalls(host, port, script)[1] == Connected(host, port)
    ensures script.timeoutFault.Some? ==> ExchangeCalls(host, port, script) == [TimeoutSet(ServerTimeout), Disposed]
  {
  }

  /**
    The calls always form a prefix of timeout, connect, send, receive, closed
    by `Dispose`; a step is made only when every step before it succeeded.
   */
  lemma CallsFollowProtocol(host: string, port: int, script: Script)
    ensures exists k :: 1 <= k <= 4 && ExchangeCalls(host, port, script) == FullExchange(host, port)[..k] + [Disposed]
    ensures Connected(host, port) in ExchangeCalls(host, port, script) <==> script.timeoutFault.None?
    ensures Sent(ClientRequest(), BufferSize as int) in ExchangeCalls(host, port, script)
        <==> script.timeoutFault.None? && script.connectFault.None?
  {
    var calls := ExchangeCalls(host, port, script);
    assert calls == FullExchange(host, port)[..StepCount(script)] + [Disposed];
    if script.timeoutFault.Some? {
      assert calls == [TimeoutSet(ServerTimeout), Disposed];
    } else if script.connectFault.Some? {
      assert calls == [TimeoutSet(ServerTimeout), Connected(host, port), Disposed];
    } else {
      assert calls[1] == Connected(host, port) && calls[2] == Sent(ClientRequest(), BufferSize as int);
    }
  }

  /** The client is disposed exactly once, as the last call, on every path past validation. */
  lemma DisposedOnEveryPath(host: string, port: int, script: Script)
    ensures var calls := ExchangeCalls(host, port, script);
      calls[|calls| - 1] == Disposed && forall i :: 0 <= i < |calls| - 1 ==> calls[i] != Disposed
  {
  }

  /** Every datagram sent is the 48-byte version 3 client request. */
  lemma SendsOnlyTheClientRequest(host: string, port: int, script: Script)
    ensures forall c :: c in ExchangeCalls(host, port, script) && c.Sent? ==> IsClientRequest(c.dgram) && c.bytes == 48
  {
  }

  /** `Receive` is reached exactly when setting the timeout, connecting and sending did not fail. */
  lemma ReceiveOnlyAfterSend(host: string, port: int, script: Script)
    ensures Received in ExchangeCalls(host, port, script)
        <==> script.timeoutFault.None? && script.connectFault.None? && script.sendFault.None?
  {
    var calls := ExchangeCalls(host, port, script);
    if script.timeoutFault.Some? {
      assert calls == [TimeoutSet(ServerTimeout), Disposed];
    } else if script.connectFault.Some? {
      assert calls == [TimeoutSet(ServerTimeout), Connected(host, port), Disposed];
    } else if script.sendFault.Some? {
      assert calls == [TimeoutSet(ServerTimeout), Connected(host, port), Sent(ClientRequest(), 48), Disposed];
    } else {
      assert calls[3] == Received;
    }
  }

  /** A failing `Dispose` decides the outcome, whatever the steps produced. */
  lemma DisposeFaultWins(host: string, port: int, script: Script, e: Exception)
    requires script.disposeFault == Some(e)
    ensures Exchange(host, port, script) == WrapSocketErrors(host, port, Failure(e))
    ensures e.Socket? ==> Exchange(host, port, script).error.inner == Some(e)
  {
  }

  /** Without network failures the result is the parse of the received bytes. */
  lemma ReturnsParsedReply(host: string, port: int, data: Option<seq<bv8>>)
    ensures Exchange(host, port, Working(Success(data))) == Parse(data)
  {
  }

  /** A socket failure at any step surfaces as InvalidOperationException carrying it as the inner exception. */
  lemma SocketFailuresWrapped(host: string, port: int, script: Script)
    requires ExchangeOutcome(script).Failure? && ExchangeOutcome(script).error.Socket?
    ensures Exchange(host, port, script).Failure?
    ensures Exchange(host, port, script).error.InvalidOperation?
    ensures Exchange(host, port, script).error.inner == Some(ExchangeOutcome(script).error)
  {
  }

  /** Any other failure, a malformed response included, propagates unwrapped. */
  lemma OtherFailuresPropagate(host: string, port: int, script: Script)
    requires ExchangeOutcome(script).Failure? && !ExchangeOutcome(script).error.Socket?
    ensures Exchange(host, port, script) == ExchangeOutcome(script)
  {
  }

  lemma ShortResponseNotWrapped(host: string, port: int, data: seq<bv8>)
    requires |data| < BufferSize as int
    ensures Exchange(host, port, Working(Success(Some(data)))) == Failure(InvalidResponse)
  {
  }

  /** The mock server of the client tests answers with 2020-01-01T00:00:00Z. */
  lemma ExchangeWithMockServer(host: string, port: int)
    ensures Exchange(host, port, Working(Success(Some(Response2020())))) == Success(UtcDate(2020, 1, 1))
  {
    ParseResponse2020();
  }

  /** A client whose `Send` throws a SocketException: the failure is wrapped and `Receive` is never called. */
  method FailingClientScenario(code: int)
  {
    var client := new UdpClient(Script(None, None, Some(Socket(code)), Failure(NotImplemented), None));
    assert !IsWhiteSpace("dummy"[0]);
    var r := RetrieveNTPTime(Some("dummy"), 123, client);
    assert r.Failure? && r.error.InvalidOperation? && r.error.inner == Some(Socket(code));
    assert Received !in client.trace by { ReceiveOnlyAfterSend("dummy", 123, client.script); }
  }

  method MockServerScenario()
  {
    var client := new UdpClient(Working(Success(Some(Response2020()))));
    assert !IsWhiteSpace("dummy"[0]);
    var r := RetrieveNTPTime(Some("dummy"), 123, client);
    ExchangeWithMockServer("dummy", 123);
    assert r == Success(UtcDate(2020, 1, 1));
    var blank := RetrieveNTPTime(Some(""), 123, client);
    assert blank == Failure(BlankServer);
  }
}
