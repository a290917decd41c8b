/**
  The NTP wire codec (ntp/NtpPacket.cs): the 48-byte client request of
  section 7.3 of RFC 5905 and the decoding of the transmit timestamp of a
  response, a 64-bit NTP timestamp (section 6 of RFC 5905) counted from
  1900-01-01T00:00:00Z.
 */
module NtpWire {
  import opened Wrappers
  import opened Exceptions

  datatype Version = Version2 | Version3
  datatype Mode = Client | Server

  const BufferSize: nat := 48
  const IntPartOffset: nat := 40
  const FractPartOffset: nat := 44

  /** Leap indicator 0, version number 3, mode 3 (client), packed as LI:2 VN:3 Mode:3. */
  const ClientHeader: bv8 := 0x1B

  lemma ClientHeaderFields()
    ensures ClientHeader >> 6 == 0
    ensures (ClientHeader >> 3) & 0x7 == 3
    ensures ClientHeader & 0x7 == 3
  {
  }

  /** The request the codec builds: the header byte, then 47 zero bytes. */
  predicate IsClientRequest(s: seq<bv8>)
  {
    |s| == BufferSize as int && s[0] == ClientHeader && forall i :: 1 <= i < |s| ==> s[i] == 0
  }

  function ClientRequest(): (s: seq<bv8>)
    ensures IsClientRequest(s)
  {
    [ClientHeader] + seq(47, _ => 0)
  }

  /** There is exactly one client request. */
  lemma ClientRequestUnique(s: seq<bv8>)
    ensures IsClientRequest(s) <==> s == ClientRequest()
  {
    if IsClientRequest(s) {
      var r := ClientRequest();
      assert forall i :: 0 <= i < |s| ==> s[i] == r[i];
    }
  }

  class NtpPacket {
    const Buffer: array<bv8>

    /** The one layout the codec implements: a fresh zero buffer with the client header in byte 0. */
    constructor ClientVersion3()
      ensures fresh(Buffer) && IsClientRequest(Buffer[..])
    {
      var buffer := new bv8[BufferSize](_ => 0);
      buffer[0] := ClientHeader;
      Buffer := buffer;
    }

    /** `Size`: the length of the buffer. */
    function Size(): int
    {
      Buffer.Length
    }

    /** `new NtpPacket(version, mode)`: only (Version3, Client) is implemented. */
    static method Create(version: Version, mode: Mode) returns (r: Result<NtpPacket, Exception>)
      ensures r.Success? <==> version == Version3 && mode == Client
      ensures r.Failure? ==> r.error == NotImplemented
      ensures r.Success? ==> fresh(r.value.Buffer) && IsClientRequest(r.value.Buffer[..])
      ensures r.Success? ==> r.value.Size() == BufferSize as int
    {
      if version != Version3 || mode != Client {
        return Failure(NotImplemented);
      }
      var packet := new NtpPacket.ClientVersion3();
      return Success(packet);
    }
  }

  /** Byte `i` of a word, counting from the least significant byte. */
  function ByteOf(x: bv32, i: nat): bv8
    requires i < 4
  {
    match i
    case 0 => (x & 0xFF) as bv8
    case 1 => ((x >> 8) & 0xFF) as bv8
    case 2 => ((x >> 16) & 0xFF) as bv8
    case _ => (x >> 24) as bv8
  }

  /** `SwapEndianness`: reverses the four bytes of a 32-bit word. */
  function SwapEndianness(x: bv32): (r: bv32)
    ensures ByteOf(r, 0) == ByteOf(x, 3) && ByteOf(r, 1) == ByteOf(x, 2)
    ensures ByteOf(r, 2) == ByteOf(x, 1) && ByteOf(r, 3) == ByteOf(x, 0)
  {
    (x >> 24) | ((x & 0x00FF0000) >> 8) | ((x & 0x0000FF00) << 8) | (x << 24)
  }

  lemma SwapEndiannessInvolution(x: bv32)
    ensures SwapEndianness(SwapEndianness(x)) == x
  {
  }

  lemma SwapEndiannessExample()
    ensures SwapEndianness(0x12345678) == 0x78563412
  {
  }

  /** `BitConverter.ToUInt32` on a little-endian machine. */
  function ToUInt32(data: seq<bv8>, offset: nat): bv32
    requires offset + 4 <= |data|
  {
    (data[offset] as bv32) | ((data[offset + 1] as bv32) << 8)
    | ((data[offset + 2] as bv32) << 16) | ((data[offset + 3] as bv32) << 24)
  }

  /** The 32-bit word stored in network byte order (most significant byte first) at `offset`. */
  function BigEndianUInt32(data: seq<bv8>, offset: nat): bv32
    requires offset + 4 <= |data|
  {
    ((data[offset] as bv32) << 24) | ((data[offset + 1] as bv32) << 16)
    | ((data[offset + 2] as bv32) << 8) | (data[offset + 3] as bv32)
  }

  lemma SwapOfLittleEndianIsBigEndian(data: seq<bv8>, offset: nat)
    requires offset + 4 <= |data|
    ensures SwapEndianness(ToUInt32(data, offset)) == BigEndianUInt32(data, offset)
  {
    var b0, b1, b2, b3 := data[offset], data[offset + 1], data[offset + 2], data[offset + 3];
    var le := (b0 as bv32) | ((b1 as bv32) << 8) | ((b2 as bv32) << 16) | ((b3 as bv32) << 24);
    assert SwapEndianness(le) == ((b0 as bv32) << 24) | ((b1 as bv32) << 16) | ((b2 as bv32) << 8) | (b3 as bv32);
  }

  datatype DateTimeKind = Unspecified | Utc | Local

  /** A .NET DateTime, kept exactly: milliseconds since 1900-01-01T00:00:00 of its kind. */
  datatype DateTime = DateTime(millis: real, kind: DateTimeKind)

  /** `new DateTime(1900, 1, 1, 0, 0, 0, DateTimeKind.Utc)` */
  const NtpEpoch := DateTime(0.0, Utc)

  function AddMilliseconds(d: DateTime, ms: real): DateTime
  {
    DateTime(d.millis + ms, d.kind)
  }

  const TwoToThe32: real := 4294967296.0

  /** `intPart * 1000 + fractPart * 1000 / 2^32`, computed exactly. */
  function TimestampMillis(seconds: bv32, fraction: bv32): real
  {
    (seconds as int) as real * 1000.0 + (fraction as int) as real * 1000.0 / TwoToThe32
  }

  const InvalidResponse := Argument("Invalid NTP response")

  /**
    `Parse`: `None` is a null array. A response shorter than 48 bytes is rejected;
    otherwise the seconds and fraction words at offsets 40 and 44 are read in
    network byte order and added to the NTP epoch.
   */
  function Parse(data: Option<seq<bv8>>): (r: Result<DateTime, Exception>)
    ensures r.Failure? <==> data.None? || |data.value| < BufferSize as int
    ensures r.Failure? ==> r.error == InvalidResponse
    ensures r.Success? ==> r.value == AddMilliseconds(NtpEpoch,
      TimestampMillis(BigEndianUInt32(data.value, IntPartOffset), BigEndianUInt32(data.value, FractPartOffset)))
  {
    if data.None? || |data.value| < BufferSize as int then
      Failure(InvalidResponse)
    else
      var intPart := SwapEndianness(ToUInt32(data.value, IntPartOffset));
      var fractPart := SwapEndianness(ToUInt32(data.value, FractPartOffset));
      SwapOfLittleEndianIsBigEndian(data.value, IntPartOffset);
      SwapOfLittleEndianIsBigEndian(data.value, FractPartOffset);
      Success(AddMilliseconds(NtpEpoch, TimestampMillis(intPart, fractPart)))
  }

  /** Only bytes 40..47 of a long-enough response matter. */
  lemma ParseReadsOnlyTimestamp(a: seq<bv8>, b: seq<bv8>)
    requires |a| >= BufferSize as int && |b| >= BufferSize as int
    requires a[IntPartOffset..BufferSize] == b[IntPartOffset..BufferSize]
    ensures Parse(Some(a)) == Parse(Some(b))
  {
    forall k | IntPartOffset <= k < BufferSize as int
      ensures a[k] == b[k]
    {
      assert a[k] == a[IntPartOffset..BufferSize][k - IntPartOffset];
    }
    assert BigEndianUInt32(a, IntPartOffset) == BigEndianUInt32(b, IntPartOffset);
    assert BigEndianUInt32(a, FractPartOffset) == BigEndianUInt32(b, FractPartOffset);
  }

  /** The four bytes of a word in network byte order. */
  function BigEndianBytes(x: bv32): (s: seq<bv8>)
    ensures |s| == 4
  {
    [ByteOf(x, 3), ByteOf(x, 2), ByteOf(x, 1), ByteOf(x, 0)]
  }

  /** Reading back a word written in network byte order gives the word. */
  lemma BigEndianBytesRoundTrip(data: seq<bv8>, offset: nat, x: bv32)
    requires offset + 4 <= |data|
    requires data[offset..offset + 4] == BigEndianBytes(x)
    ensures BigEndianUInt32(data, offset) == x
  {
    var b := data[offset..offset + 4];
    assert data[offset] == b[0] == ByteOf(x, 3);
    assert data[offset + 1] == b[1] == ByteOf(x, 2);
    assert data[offset + 2] == b[2] == ByteOf(x, 1);
    assert data[offset + 3] == b[3] == ByteOf(x, 0);
    WordFromBytes(x);
  }

  lemma WordFromBytes(x: bv32)
    ensures ((ByteOf(x, 3) as bv32) << 24) | ((ByteOf(x, 2) as bv32) << 16)
          | ((ByteOf(x, 1) as bv32) << 8) | (ByteOf(x, 0) as bv32) == x
  {
  }

  /** A 48-byte response carrying `seconds` and `fraction` at their offsets, all other bytes zero. */
  function ResponseWith(seconds: bv32, fraction: bv32): (s: seq<bv8>)
    ensures |s| == BufferSize as int
  {
    seq(40, _ => 0) + BigEndianBytes(seconds) + BigEndianBytes(fraction)
  }

  /** Encoding a timestamp and parsing it back gives the instant it denotes. */
  lemma ParseResponseWith(seconds: bv32, fraction: bv32)
    ensures Parse(Some(ResponseWith(seconds, fraction)))
         == Success(AddMilliseconds(NtpEpoch, TimestampMillis(seconds, fraction)))
  {
    var s := ResponseWith(seconds, fraction);
    assert s[IntPartOffset..IntPartOffset + 4] == BigEndianBytes(seconds);
    assert s[FractPartOffset..FractPartOffset + 4] == BigEndianBytes(fraction);
    BigEndianBytesRoundTrip(s, IntPartOffset, seconds);
    BigEndianBytesRoundTrip(s, FractPartOffset, fraction);
  }

  /** With a zero fraction the decoded instant is exactly the epoch plus the whole seconds. */
  lemma ParseWholeSeconds(seconds: bv32)
    ensures Parse(Some(ResponseWith(seconds, 0))) == Success(DateTime((seconds as int) as real * 1000.0, Utc))
  {
    ParseResponseWith(seconds, 0);
    assert (0 as bv32) as int == 0;
    assert TimestampMillis(seconds, 0) == (seconds as int) as real * 1000.0;
  }

  // The proleptic Gregorian calendar of `new DateTime(year, month, day, ...)`, from 1900 on.

  predicate IsLeapYear(y: int)
  {
    (y % 4 == 0 && y % 100 != 0) || y % 400 == 0
  }

  /** Leap years in 1..y. */
  function LeapYearsThrough(y: nat): nat
  {
    y / 4 - y / 100 + y / 400
  }

  function DaysBeforeYear(y: int): int
    requires y >= 1900
  {
    365 * (y - 1900) + LeapYearsThrough(y - 1) - LeapYearsThrough(1899)
  }

  function DaysBeforeMonth(y: int, m: int): int
    requires 1 <= m <= 12
  {
    [0, 31, 59, 90, 120, 151, 181, 212, 243, 273, 304, 334][m - 1] + (if m > 2 && IsLeapYear(y) then 1 else 0)
  }

  /** Whole seconds from the NTP epoch to the given UTC date and time. */
  function SecondsSinceNtpEpoch(year: int, month: int, day: int, hour: int, minute: int, second: int): int
    requires year >= 1900 && 1 <= month <= 12
  {
    ((DaysBeforeYear(year) + DaysBeforeMonth(year, month) + day - 1) * 24 + hour) * 3600 + minute * 60 + second
  }

  function UtcDate(year: int, month: int, day: int): DateTime
    requires year >= 1900 && 1 <= month <= 12
  {
    DateTime(SecondsSinceNtpEpoch(year, month, day, 0, 0, 0) as real * 1000.0, Utc)
  }

  /** The response of the client tests: 2020-01-01T00:00:00Z, fraction zero. */
  function Response2020(): seq<bv8>
  {
    ResponseWith(3786825600, 0)
  }

  lemma ParseResponse2020()
    ensures Parse(Some(Response2020())) == Success(UtcDate(2020, 1, 1))
  {
    assert SecondsSinceNtpEpoch(2020, 1, 1, 0, 0, 0) == 3786825600;
    ParseWholeSeconds(3786825600);
  }
}
