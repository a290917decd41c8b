/**
  The injected UDP client (IUdpClient) as a scripted transport. The script
  fixes what each step does (an exception from the `ReceiveTimeout` setter,
  `Connect`, `Send` or `Dispose`, the datagram or the failure `Receive`
  yields); the client records
  every call made on it, in order, so that callers can be specified by the
  trace they leave.
 */
module UdpTransport {
  import opened Wrappers
  import opened Exceptions

  datatype Call =
    | TimeoutSet(ms: int)
    | Connected(hostname: string, port: int)
    | Sent(dgram: seq<bv8>, bytes: int)
    | Received
    | Disposed

  /** What the client does on each step; `Some(None)` in `reply` is a null array. */
  datatype Script = Script(
    timeoutFault: Option<Exception>,
    connectFault: Option<Exception>,
    sendFault: Option<Exception>,
    reply: Result<Option<seq<bv8>>, Exception>,
    disposeFault: Option<Exception>)

  /** A client on which every step works and `Receive` yields `reply`. */
  function Working(reply: Result<Option<seq<bv8>>, Exception>): Script
  {
    Script(None, None, None, reply, None)
  }

  class UdpClient {
    var ReceiveTimeout: int
    var trace: seq<Call>
    const script: Script

    constructor (script: Script)
      ensures this.script == script && trace == [] && ReceiveTimeout == 0
    {
      this.script := script;
      trace, ReceiveTimeout := [], 0;
    }

    /** The `ReceiveTimeout` setter; a setter that throws leaves the timeout as it was. */
    method SetReceiveTimeout(ms: int) returns (fault: Option<Exception>)
      modifies this`ReceiveTimeout, this`trace
      ensures fault == script.timeoutFault
      ensures ReceiveTimeout == if fault.None? then ms else old(ReceiveTimeout)
      ensures trace == old(trace) + [TimeoutSet(ms)]
    {
      trace := trace + [TimeoutSet(ms)];
      fault := script.timeoutFault;
      if fault.None? {
        ReceiveTimeout := ms;
      }
    }

    method Connect(hostname: string, port: int) returns (fault: Option<Exception>)
      modifies this`trace
      ensures fault == script.connectFault
      ensures trace == old(trace) + [Connected(hostname, port)]
    {
      trace := trace + [Connected(hostname, port)];
      fault := script.connectFault;
    }

    /** Sends the datagram; succeeds with the byte count unless the script makes it throw. */
    method Send(dgram: array<bv8>, bytes: int) returns (r: Result<int, Exception>)
      modifies this`trace
      ensures r == if script.sendFault.Some? then Failure(script.sendFault.value) else Success(bytes)
      ensures trace == old(trace) + [Sent(dgram[..], bytes)]
    {
      trace := trace + [Sent(dgram[..], bytes)];
      r := if script.sendFault.Some? then Failure(script.sendFault.value) else Success(bytes);
    }

    method Receive() returns (r: Result<Option<seq<bv8>>, Exception>)
      modifies this`trace
      ensures r == script.reply
      ensures trace == old(trace) + [Received]
    {
      trace := trace + [Received];
      r := script.reply;
    }

    method Dispose() returns (fault: Option<Exception>)
      modifies this`trace
      ensures fault == script.disposeFault
      ensures trace == old(trace) + [Disposed]
    {
      trace := trace + [Disposed];
      fault := script.disposeFault;
    }
  }
}
