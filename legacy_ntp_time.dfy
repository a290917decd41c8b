/**
  The older NTP client (NtpTime.cs at the library root): a private nested
  packet class whose constructor allocates the buffer and then switches on
  the mode, its own copies of `Parse` and `SwapEndianness`, and a
  `RetrieveNTPTime` that opens its own socket. The socket that
  `new UdpClient()` would open is passed in; validation happens before any
  call is made on it.
 */
module LegacyNtpTime {
  import opened Wrappers
  import opened Exceptions
  import opened Text
  import NtpWire
  import opened UdpTransport
  import NtpTime

  const ServerTimeout: int := 5000

  class NtpPacket {
    const Buffer: array<bv8>

    constructor (buffer: array<bv8>)
      ensures Buffer == buffer
    {
      Buffer := buffer;
    }

    function Size(): int
    {
      Buffer.Length
    }

    /** `new NtpPacket(version, mode)`: the buffer is allocated first, then the mode decides. */
    static method Create(version: NtpWire.Version, mode: NtpWire.Mode) returns (r: Result<NtpPacket, Exception>)
      ensures r.Success? <==> version == NtpWire.Version3 && mode == NtpWire.Client
      ensures r.Failure? ==> r.error == NotImplemented
      ensures r.Success? ==> fresh(r.value.Buffer) && NtpWire.IsClientRequest(r.value.Buffer[..])
      ensures r.Success? ==> r.value.Size() == NtpWire.BufferSize as int
    {
      var buffer := new bv8[NtpWire.BufferSize](_ => 0);
      match mode {
        case Client =>
          if version == NtpWire.Version3 {
            buffer[0] := NtpWire.ClientHeader;
          } else {
            return Failure(NotImplemented);
          }
        case Server =>
          return Failure(NotImplemented);
      }
      var packet := new NtpPacket(buffer);
      return Success(packet);
    }
  }

  /** The older copy of the byte swap: it reverses the four bytes, as the newer one does. */
  function SwapEndianness(x: bv32): (r: bv32)
    ensures NtpWire.ByteOf(r, 0) == NtpWire.ByteOf(x, 3) && NtpWire.ByteOf(r, 1) == NtpWire.ByteOf(x, 2)
    ensures NtpWire.ByteOf(r, 2) == NtpWire.ByteOf(x, 1) && NtpWire.ByteOf(r, 3) == NtpWire.ByteOf(x, 0)
    ensures r == NtpWire.SwapEndianness(x)
  {
    (x >> 24) | ((x & 0x00FF0000) >> 8) | ((x & 0x0000FF00) << 8) | (x << 24)
  }

  /** The older copy of the response decoder: it decodes every input as the newer one does. */
  function Parse(data: Option<seq<bv8>>): (r: Result<NtpWire.DateTime, Exception>)
    ensures r == NtpWire.Parse(data)
  {
    if data.None? || |data.value| < NtpWire.BufferSize as int then
      Failure(Argument("Invalid NTP response"))
    else
      var intPart := SwapEndianness(NtpWire.ToUInt32(data.value, NtpWire.IntPartOffset));
      var fractPart := SwapEndianness(NtpWire.ToUInt32(data.value, NtpWire.FractPartOffset));
      Success(NtpWire.AddMilliseconds(NtpWire.NtpEpoch, NtpWire.TimestampMillis(intPart, fractPart)))
  }

  /** The body of the older `using` block: the same steps as the newer client. */
  method Converse(host: string, port: int, socket: UdpClient) returns (outcome: Result<NtpWire.DateTime, Exception>)
    modifies socket
    ensures outcome == NtpTime.StepsOutcome(socket.script)
    ensures socket.trace == old(socket.trace) + NtpTime.StepCalls(host, port, socket.script)
    ensures socket.ReceiveTimeout == NtpTime.TimeoutAfter(socket.script, old(socket.ReceiveTimeout))
  {
    var fault := socket.SetReceiveTimeout(ServerTimeout);
    if fault.Some? {
      return Failure(fault.value);
    }
    fault := socket.Connect(host, port);
    if fault.Some? {
      return Failure(fault.value);
    }
    var created := NtpPacket.Create(NtpWire.Version3, NtpWire.Client);
    var packet := created.value;
    NtpWire.ClientRequestUnique(packet.Buffer[..]);
    var sent := socket.Send(packet.Buffer, packet.Size());
    if sent.Failure? {
      return Failure(sent.error);
    }
    var received := socket.Receive();
    if received.Failure? {
      return Failure(received.error);
    }
    return Parse(received.value);
  }

  /** `RetrieveNTPTime(ntpServer, ntpPort)`: the same validation, call sequence and wrapping as the newer client. */
  method RetrieveNTPTime(ntpServer: Option<string>, ntpPort: int, socket: UdpClient) returns (r: Result<NtpWire.DateTime, Exception>)
    modifies socket
    ensures IsNullOrWhiteSpace(ntpServer) ==>
      r == Failure(ArgumentNull("ntpServer")) && socket.trace == old(socket.trace)
      && socket.ReceiveTimeout == old(socket.ReceiveTimeout)
    ensures !IsNullOrWhiteSpace(ntpServer) ==>
      && r == NtpTime.Exchange(ntpServer.value, ntpPort, socket.script)
      && socket.trace == old(socket.trace) + NtpTime.ExchangeCalls(ntpServer.value, ntpPort, socket.script)
      && socket.ReceiveTimeout == NtpTime.TimeoutAfter(socket.script, old(socket.ReceiveTimeout))
  {
    if IsNullOrWhiteSpace(ntpServer) {
      return Failure(ArgumentNull("ntpServer"));
    }
    var host := ntpServer.value;
    var outcome := Converse(host, ntpPort, socket);
    var fault := socket.Dispose();
    if fault.Some? {
      outcome := Failure(fault.value);
    }
    return NtpTime.WrapSocketErrors(host, ntpPort, outcome);
  }
}
