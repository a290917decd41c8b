# NTP service — a Dafny model

This project models the core of a Windows service that keeps the system clock in step with an NTP server. The service:

- reads its settings (server, port, poll interval in hours) from a registry key, with compiled-in defaults;
- arms a poll timer;
- makes one immediate attempt, then one on every timer tick and every session unlock.

Each attempt sends the 48-byte NTP client request over UDP and decodes the transmit timestamp of the reply. It hands that instant to the system clock and logs what happened. No attempt lets a failure escape.

Modules, one per source file or collaborator:

| module | models |
|---|---|
| `NtpWire` | `NtpServiceLibrary/ntp/NtpPacket.cs`: the client request, `Parse`, `SwapEndianness` |
| `NtpTime` | `NtpServiceLibrary/ntp/NtpTime.cs`: `RetrieveNTPTime` over an injected UDP client |
| `LegacyNtpTime` | `NtpServiceLibrary/NtpTime.cs`: the older copy, with its nested packet class |
| `UdpTransport` | the `IUdpClient` collaborator, as a scripted client that records its calls |
| `Configuration` | `NtpServiceLibrary/Settings.cs`: `SettingsValue<T>` and `Settings` |
| `RegistryKeys` | the registry as a tree of keys, values and value kinds |
| `RegistrySettings` | `NtpServiceLibrary/RegistrySettingsProvider.cs` |
| `TimeSpans` | the parts of `System.TimeSpan` used here, and `NtpServiceLibrary/TimeSpanExtension.cs` |
| `Service` | `NtpService/NtpService.cs`: the attempt, the timer, start, stop and session change |
| `Text`, `Exceptions`, `Logging`, `Wrappers` | `int.ToString`, the exceptions thrown, the `ILogger` sink, Option/Result |

Stateful code is modelled as classes:

- the packet buffer is an `array`;
- `SettingsValue<T>`, the provider and the service are classes whose methods update their fields;
- the UDP client, the clock and the logger are classes that record every call they receive.

Each such method is specified against a function on values, and the properties are proved about those functions:

- `ExchangeCalls` / `Exchange` for the network exchange;
- `Walk` / `LoadOutcome` for the registry read;
- `AttemptOf` / `AttemptLog` for one synchronisation attempt.

## Model

| member | source | states |
|---|---|---|
| NtpWire.ClientHeaderFields | NtpServiceLibrary/ntp/NtpPacket.cs:30 | The request's first byte carries leap indicator 0, version 3 and mode 3 (client). |
| NtpWire.ClientRequest | NtpServiceLibrary/ntp/NtpPacket.cs:29-30 | The request is 48 bytes: 0x1B followed by 47 zero bytes. |
| NtpWire.ClientRequestUnique | NtpServiceLibrary/ntp/NtpPacket.cs:29-30 | Exactly one byte sequence is a client request. |
| NtpWire.NtpPacket.ClientVersion3 | NtpServiceLibrary/ntp/NtpPacket.cs:29-30 | A freshly allocated buffer holding the client request. |
| NtpWire.NtpPacket.Create | NtpServiceLibrary/ntp/NtpPacket.cs:24-31 | Construction succeeds iff version 3 and client mode; otherwise NotImplementedException. On success the buffer is the request and Size is 48. |
| NtpWire.SwapEndianness | NtpServiceLibrary/ntp/NtpPacket.cs:45-51 | Byte i of the result is byte 3-i of the input. |
| NtpWire.SwapEndiannessInvolution | NtpServiceLibrary/ntp/NtpPacket.cs:45-51 | Swapping twice gives back the word. |
| NtpWire.SwapEndiannessExample | NtpUnitTests/NtpTimeTests.cs:77-84 | 0x12345678 swaps to 0x78563412. |
| NtpWire.SwapOfLittleEndianIsBigEndian | NtpServiceLibrary/ntp/NtpPacket.cs:38-39 | A little-endian read followed by a swap is the big-endian word at that offset. |
| NtpWire.Parse | NtpServiceLibrary/ntp/NtpPacket.cs:33-43 | Fails (ArgumentException) iff the data is null or shorter than 48 bytes; longer data is accepted. Otherwise the result is the 1900 epoch plus the big-endian seconds and fraction words at 40 and 44, in milliseconds. |
| NtpWire.ParseReadsOnlyTimestamp | NtpServiceLibrary/ntp/NtpPacket.cs:38-39 | Two replies that agree on bytes 40..47 parse alike. |
| NtpWire.BigEndianBytesRoundTrip | NtpServiceLibrary/ntp/NtpPacket.cs:38-39 | A word written big-endian at an offset is read back unchanged. |
| NtpWire.ParseResponseWith | NtpServiceLibrary/ntp/NtpPacket.cs:38-42 | A reply encoding seconds S and fraction F decodes to the epoch plus S*1000 + F*1000/2^32 ms. |
| NtpWire.ParseWholeSeconds | NtpServiceLibrary/ntp/NtpPacket.cs:41-42 | With fraction 0 the instant is exactly S seconds after 1900-01-01T00:00:00Z. |
| NtpWire.ParseResponse2020 | NtpUnitTests/NtpTimeTests.cs:14-33 | The test server's reply decodes to 2020-01-01T00:00:00Z. |
| NtpTime.RetrieveNTPTime | NtpServiceLibrary/ntp/NtpTime.cs:16-44 | A blank server gives ArgumentNullException and makes no call on the client. Otherwise the result is `Exchange`, the client's trace grows by exactly `ExchangeCalls`, and its receive timeout is 5000 unless the setter threw. |
| NtpTime.Converse | NtpServiceLibrary/ntp/NtpTime.cs:26-36 | The body of the `using` block: the outcome is `StepsOutcome`, the trace grows by `StepCalls` (up to the first failing step), and the timeout is set to 5000 when the setter does not throw. |
| NtpTime.TimeoutBeforeConnect | NtpServiceLibrary/ntp/NtpTime.cs:24-28 | The first call sets the timeout to 5000. If that succeeds the second call connects to the given host and port; if it throws, the client is only disposed. |
| NtpTime.CallsFollowProtocol | NtpServiceLibrary/ntp/NtpTime.cs:24-36 | The calls are a non-empty prefix of timeout, connect, send, receive, followed by dispose. The connect is made iff the timeout was set; the client request is sent iff both the timeout and the connect succeeded. |
| NtpTime.DisposedOnEveryPath | NtpServiceLibrary/ntp/NtpTime.cs:21-24 | Every exchange ends with exactly one dispose, and dispose is the last call. |
| NtpTime.SendsOnlyTheClientRequest | NtpServiceLibrary/ntp/NtpTime.cs:30-32 | Every datagram sent is the client request, with byte count 48. |
| NtpTime.ReceiveOnlyAfterSend | NtpServiceLibrary/ntp/NtpTime.cs:26-36 | A receive happens iff setting the timeout, the connect and the send all succeeded. |
| NtpTime.DisposeFaultWins | NtpServiceLibrary/ntp/NtpTime.cs:24-43 | An exception from `Dispose` at the end of the `using` block replaces the result or the exception in flight; a socket error from it is wrapped like any other. |
| NtpTime.ReturnsParsedReply | NtpServiceLibrary/ntp/NtpTime.cs:36 | When the network works, the result is `Parse` of the received bytes. |
| NtpTime.SocketFailuresWrapped | NtpServiceLibrary/ntp/NtpTime.cs:40-43 | A SocketException at any step becomes InvalidOperationException, with the socket error as its inner exception. |
| NtpTime.OtherFailuresPropagate | NtpServiceLibrary/ntp/NtpTime.cs:36-40 | Any failure other than a socket error comes out unchanged. |
| NtpTime.ShortResponseNotWrapped | NtpServiceLibrary/ntp/NtpTime.cs:36-40 | A short reply fails with Parse's ArgumentException, not wrapped. |
| NtpTime.ExchangeWithMockServer | NtpUnitTests/NtpTimeTests.cs:46-53 | Against the test server, the retrieved time is 2020-01-01T00:00:00Z. |
| LegacyNtpTime.NtpPacket.Create | NtpServiceLibrary/NtpTime.cs:33-51 | Only version 3 with client mode constructs (a 48-byte request, byte 0 0x1B). Other versions, and server mode, give NotImplementedException. |
| LegacyNtpTime.SwapEndianness | NtpServiceLibrary/NtpTime.cs:65-71 | Byte i of the result is byte 3-i of the word, and the older swap equals the newer one on every word. |
| LegacyNtpTime.Parse | NtpServiceLibrary/NtpTime.cs:53-63 | The older decoder agrees with the newer one on every input, null and short data included. |
| LegacyNtpTime.RetrieveNTPTime | NtpServiceLibrary/NtpTime.cs:85-112 | For an already built client, the same outcome and call trace as the newer retrieval: ArgumentNullException for a blank server, a 5000 ms timeout unless the setter threw, a `Dispose` failure replacing the outcome, and socket errors wrapped. |
| UdpTransport.UdpClient.SetReceiveTimeout | NtpServiceLibrary/interfaces/UdpClient.cs:36 | Records the call and fails as scripted; the timeout becomes the new value, or stays as it was when the setter throws. |
| UdpTransport.UdpClient.Connect | NtpServiceLibrary/interfaces/UdpClient.cs:16 | Records the host and port; fails as scripted. |
| UdpTransport.UdpClient.Send | NtpServiceLibrary/interfaces/UdpClient.cs:24 | Records the datagram's contents and count; returns the count unless scripted to fail. |
| UdpTransport.UdpClient.Receive | NtpServiceLibrary/interfaces/UdpClient.cs:31 | Records the call and yields the scripted bytes (possibly null) or exception. |
| UdpTransport.UdpClient.Dispose | NtpServiceLibrary/interfaces/UdpClient.cs:9 | Records the call and fails as scripted. |
| Logging.Logger.Write | NtpServiceLibrary/Logger.cs:17 | One message is appended as one entry; earlier entries are kept. |
| Text.IntToStringRoundTrip | NtpServiceLibrary/ntp/NtpTime.cs:42 | The decimal text of an integer (as in the port shown in messages) parses back to the integer. |
| Text.IntToStringInjective | NtpServiceLibrary/Settings.cs:50-57 | Distinct integers render to distinct texts. |
| Configuration.SettingsValue.constructor | NtpServiceLibrary/Settings.cs:17-20 | A new value holds the default, no source, and is not changed. |
| Configuration.SettingsValue.Set | NtpServiceLibrary/Settings.cs:40-45 | Value, source and changed flag become (v, s, true); Get and the cast both yield v. |
| Configuration.RenderInitial | NtpServiceLibrary/Settings.cs:50-57 | A never-set value renders as its text followed by " (default)", with no source. |
| Configuration.RenderAssigned | NtpServiceLibrary/Settings.cs:52-56 | After a Set the " (default)" mark is gone. A non-empty source is shown as " <source>"; an empty one adds nothing. |
| Configuration.LastWriterWins | NtpServiceLibrary/Settings.cs:40-57 | After any non-empty sequence of Sets the value and source are the last write's, the changed flag is true, and the rendering shows the last value with only the last source (none if it is empty). |
| Configuration.ProvenanceOfAnnotation | NtpServiceLibrary/Settings.cs:52-56 | The appended text determines the changed flag and the source: the rendering can be read back. |
| Configuration.RenderDisclosesProvenance | NtpServiceLibrary/Settings.cs:50-57 | Equal renderings of equal texts have equal changed flags and sources. |
| Configuration.RenderDefaults | NtpServiceLibrary/Settings.cs:87-94 | Default settings render as three labelled lines: "pool.ntp.org (default)", "123 (default)" and "6 (default)". |
| Configuration.Settings.constructor | NtpServiceLibrary/Settings.cs:72-82 | New settings hold "pool.ntp.org", 123 and 6, unset, in three distinct value objects. |
| RegistryKeys.AcceptedKindIsStored | NtpServiceLibrary/RegistrySettingsProvider.cs:58-65 | Reporting String or DWord for a name means a value of that kind is stored, so the casts are safe. |
| RegistryKeys.DescendSnoc | NtpServiceLibrary/RegistrySettingsProvider.cs:78-90 | Descending one more segment opens it in the key reached so far. |
| RegistryKeys.DescendMissingExtends | NtpServiceLibrary/RegistrySettingsProvider.cs:78-89 | Once a segment is missing, no longer path is found. |
| RegistryKeys.DescendAppend | NtpServiceLibrary/RegistrySettingsProvider.cs:78-90 | Descending p + q is descending p, then q. |
| RegistrySettings.SettingsPath | NtpServiceLibrary/RegistrySettingsProvider.cs:77 | The path has five segments: the service name fourth and "Parameters" last. |
| RegistrySettings.KindLabelIdentifiesAccepted | NtpServiceLibrary/RegistrySettingsProvider.cs:31-42 | The label is "string" iff String and "dword" iff DWord; every other kind is "<unsupported>". Two kinds have the same label iff they are equal or both unsupported. |
| RegistrySettings.RegistrySettingsProvider.constructor | NtpServiceLibrary/RegistrySettingsProvider.cs:19-24 | The provider owns a fresh settings object holding the defaults. |
| RegistrySettings.RegistrySettingsProvider.ReadValue | NtpServiceLibrary/RegistrySettingsProvider.cs:55-67 | A value of the expected kind is stored in the field with source "registry". Any other kind keeps the field and appends the diagnostic. |
| RegistrySettings.RegistrySettingsProvider.OpenPath | NtpServiceLibrary/RegistrySettingsProvider.cs:76-90 | Opening the path one segment at a time yields the key the whole path leads to, or nothing as soon as one segment is missing. |
| RegistrySettings.RegistrySettingsProvider.ReadValues | NtpServiceLibrary/RegistrySettingsProvider.cs:91-113 | The value names, in enumeration order, leave the settings and the accumulated diagnostics exactly as `Walk` computes them. |
| RegistrySettings.RegistrySettingsProvider.Read | NtpServiceLibrary/RegistrySettingsProvider.cs:74-116 | Returns the provider's own settings object. Its new contents and the single log entry are `LoadOutcome` of the registry and the previous contents. |
| RegistrySettings.MissingPathKeepsSettings | NtpServiceLibrary/RegistrySettingsProvider.cs:78-89 | If any of the five segments is missing, the settings are unchanged and the entry is the "No settings found" fallback. |
| RegistrySettings.StepAppends | NtpServiceLibrary/RegistrySettingsProvider.cs:62 | Each value name only appends to the diagnostics. |
| RegistrySettings.WalkAppends | NtpServiceLibrary/RegistrySettingsProvider.cs:91-113 | The diagnostics of a prefix of the names are a prefix of the diagnostics of the whole. |
| RegistrySettings.MatchingKindSets | NtpServiceLibrary/RegistrySettingsProvider.cs:97-107 | Server expects a string; Port and PollIntervalHours expect a dword. A matching value sets that field alone, with source "registry" and no diagnostic. |
| RegistrySettings.MismatchedKindKeeps | NtpServiceLibrary/RegistrySettingsProvider.cs:60-64 | A wrong kind, or a missing value, keeps the settings. The appended diagnostic names the expected kind, the actual kind and the current value. |
| RegistrySettings.UnknownNamesIgnored | NtpServiceLibrary/RegistrySettingsProvider.cs:109-111 | Unknown names change no field; each adds one "Unexpected parameter" line, in order. |
| RegistrySettings.UnnamedFieldsUntouched | NtpServiceLibrary/RegistrySettingsProvider.cs:91-113 | A field whose name is not listed keeps its value and provenance. |
| RegistrySettings.ValidValuesLoaded | NtpUnitTests/RegistrySettingsProviderTests.cs:93-113 | Valid values of all three names are taken, each marked as coming from the registry. |
| RegistrySettings.MissingRootKeyLogged | NtpUnitTests/RegistrySettingsProviderTests.cs:115-131 | An empty registry keeps the defaults, and the entry is the fallback text with the default values. |
| RegistrySettings.InvalidPortKindLogged | NtpUnitTests/RegistrySettingsProviderTests.cs:133-145 | A string under Port keeps 123 and logs the dword/string diagnostic. |
| RegistrySettings.UnexpectedNameLogged | NtpUnitTests/RegistrySettingsProviderTests.cs:147-164 | A known name is loaded, and an unknown one is reported and skipped. |
| RegistrySettings.UnsupportedKindLogged | NtpUnitTests/RegistrySettingsProviderTests.cs:165-181 | A value the key reports as of Unknown kind (the test stores a date) under Server keeps the default and is labelled "<unsupported>". |
| TimeSpans.Quot | NtpServiceLibrary/TimeSpanExtension.cs:21-23 | Integer division rounds toward zero, as C#'s `/`: for a >= 0 the quotient is non-negative with b*q <= a < b*(q+1); for a < 0 it is non-positive with b*(q-1) < a <= b*q. |
| TimeSpans.QuotRemNegate | NtpServiceLibrary/TimeSpanExtension.cs:21-23 | Negating the dividend negates both the truncated quotient and the remainder. |
| TimeSpans.TicksToSeconds | NtpServiceLibrary/TimeSpanExtension.cs:21-22 | Whole hours and minutes of a tick count, of either sign, are its whole seconds divided by 3600 and 60. |
| TimeSpans.Rem | NtpServiceLibrary/TimeSpanExtension.cs:21-23 | The remainder recomposes the dividend and takes the dividend's sign, as C#'s `%`. |
| TimeSpans.Suffix | NtpServiceLibrary/TimeSpanExtension.cs:32-35 | The suffix is empty iff the count is 1, and "s" otherwise, 0 included. |
| TimeSpans.ComponentsOfNonNegative | NtpServiceLibrary/TimeSpanExtension.cs:21-23 | For a non-negative span, hours, minutes and seconds are the clock reading of its whole seconds. |
| TimeSpans.HourClock | NtpServiceLibrary/TimeSpanExtension.cs:21 | For any signed number of seconds, the hour of the day (C# remainder by 24 of the hours) is the hour of its signed time of day. |
| TimeSpans.MinuteClock | NtpServiceLibrary/TimeSpanExtension.cs:22 | For any signed number of seconds, the minute of the hour is read off its signed time of day. |
| TimeSpans.SecondClock | NtpServiceLibrary/TimeSpanExtension.cs:23 | For any signed number of seconds, the second of the minute is read off its signed time of day. |
| TimeSpans.ComponentsOfTimeOfDay | NtpServiceLibrary/TimeSpanExtension.cs:21-23 | For every span, negative included, hours, minutes and seconds are the clock reading of its signed whole-second time of day (the C# remainder by 86400, which takes the span's sign). |
| TimeSpans.FormatIgnoresDaysAndFractions | NtpServiceLibrary/TimeSpanExtension.cs:18-25 | Any two spans, negative ones included, with the same signed whole-second time of day format alike: days and fractions of a second never show. |
| TimeSpans.ComponentsRecompose | NtpServiceLibrary/TimeSpanExtension.cs:21-23 | The components carry the span's sign and lie within (-24, 24), (-60, 60) and (-60, 60); they recompose its signed time of day in seconds. |
| TimeSpans.FormatWholeHours | NtpServiceLibrary/TimeSpanExtension.cs:18-25 | A whole number of hours formats as its hour of the day, with "0 minutes 0 seconds". |
| TimeSpans.FormatSingular | NtpUnitTests/TimeSpanExtensionTests.cs:7-12 | (1, 1, 1) formats as "1 hour 1 minute 1 second". |
| TimeSpans.FormatPlural | NtpUnitTests/TimeSpanExtensionTests.cs:14-19 | (2, 3, 4) formats as "2 hours 3 minutes 4 seconds". |
| TimeSpans.FormatOneDay | NtpServiceLibrary/TimeSpanExtension.cs:18-25 | Twenty-four hours formats as "0 hours 0 minutes 0 seconds". |
| Service.Timer.constructor | NtpService/NtpService.cs:149 | A timer with a valid interval starts disabled and undisposed. |
| Service.Timer.Start | NtpService/NtpService.cs:151 | The timer is enabled. |
| Service.Timer.Stop | NtpService/NtpService.cs:100 | The timer is disabled. |
| Service.Timer.Dispose | NtpService/NtpService.cs:101 | The timer is disposed and no longer enabled. |
| Service.SystemClock.Set | NtpService/NtpService.cs:131-132 | Records the instant it is asked to set, and fails as scripted. |
| Service.IntervalFault | NtpService/NtpService.cs:146-149 | The timer can be built iff the poll interval is 1 to 596 hours. 0 hours, and anything past Int32.MaxValue ms, is refused by the Timer constructor. |
| Service.IntervalRange | NtpService/NtpService.cs:148-149 | An accepted interval is hours x 3,600,000 ms, within (0, Int32.MaxValue]. 0 and 597 hours are rejected with their millisecond values. |
| Service.NtpService.constructor | NtpService/NtpService.cs:27-38 | A new service has no settings and no timer, and is not stopped. |
| Service.NtpService.RetrieveAndSetTime | NtpService/NtpService.cs:113-145 | The log grows by the attempt's lines, the clock by its requests, and the UDP client by the exchange's calls. All three are determined by `AttemptOf` for the settings at entry; no failure escapes. |
| Service.NtpService.InitTimer | NtpService/NtpService.cs:146-154 | An interval out of range fails with the TimeSpan or Timer exception and logs nothing. Otherwise: a fresh, started timer of hours x 3,600,000 ms, and one "Timer set to" line. |
| Service.NtpService.OnStop | NtpService/NtpService.cs:95-106 | The timer field ends null; a timer that was set is stopped and disposed. |
| Service.NtpService.Fatal | NtpService/NtpService.cs:67-72 | Logs "Fatal error in OnStart" with the exception, then stops the service: timer cleared, stopped set. |
| Service.NtpService.OnStart | NtpService/NtpService.cs:44-73 | The logger is started and "Service is starting..." logged. A failed or null settings read is fatal and stops the service. Otherwise the settings are kept and the timer armed, then one attempt is made and success logged. A bad interval is fatal, and then neither network nor clock is used. |
| Service.NtpService.FirstAttempt | NtpService/NtpService.cs:62-65 | One attempt with the settings at entry (`AttemptOf`), then "Service started successfully." last in the log. |
| Service.NtpService.StartWithSettings | NtpService/NtpService.cs:61-65 | Timer first, then exactly one attempt, then "Service started successfully."; or the fatal path when the timer cannot be built. |
| Service.NtpService.OnSessionChange | NtpService/NtpService.cs:79-90 | Only SessionUnlock makes an attempt, announced by its own line. Any other reason changes nothing. |
| Service.NtpService.OnTimerElapsed | NtpService/NtpService.cs:108-111 | Each tick makes exactly one attempt. |
| Service.BlankServerMakesNoCalls | NtpService/NtpService.cs:117-124 | A blank server logs "NTP server not configured." and calls neither the network nor the clock. |
| Service.RetrieveFailureSkipsClock | NtpService/NtpService.cs:141-144 | A failed retrieval is reported in one line and the clock is never asked. |
| Service.RetrieveFailsIffExchangeFails | NtpService/NtpService.cs:115-126 | Retrieval fails iff the settings are null, or the server is set and the exchange fails. |
| Service.ClockGetsRetrievedInstant | NtpService/NtpService.cs:126-134 | After a successful retrieval the clock receives exactly that instant, once. The attempt succeeds iff setting and reading the clock both succeed. |
| Service.SetFailureLoggedAfterReceipt | NtpService/NtpService.cs:127-139 | A clock failure is logged after the received time, and goes no further. |
| Service.EveryAttemptReports | NtpService/NtpService.cs:113-145 | Every attempt logs one or two lines and asks the clock at most once. |
| Service.NullSettingsFailEarly | NtpService/NtpService.cs:117-118 | Null settings fail with NullReferenceException, before any network or clock call. |
| Service.MockServerAttempt | NtpService/NtpService.cs:126-134 | With the test server and a working clock, 2020-01-01T00:00:00Z is set. |
| Service.DefaultTimerLine | NtpService/NtpService.cs:152 | The default interval logs "Timer set to 6 hours 0 minutes 0 seconds". |
| Service.DayIntervalLine | NtpService/NtpService.cs:152 | A 24-hour interval logs "Timer set to 0 hours 0 minutes 0 seconds". |

## Left out

- The real network (`ntp/UdpAdapter.cs`) is not modelled, and neither is building the client. In `ntp/NtpTime.cs` a missing client is replaced by `new UdpClientAdapter()` before the `try`, so a SocketException from that constructor would escape unwrapped. The older `NtpTime.cs` takes no client and always builds `new UdpClient()` inside the `try`, so a SocketException from that constructor would be wrapped as InvalidOperationException. In the model the client is always passed in, already built. It is a scripted object that fixes whether the timeout setter, `Connect`, `Send` and `Dispose` throw and what `Receive` yields, and it records the calls.
- Receive's remote end point is not modelled; only the received bytes matter.
- NtpWire.Parse: the instant is an exact real number of milliseconds. The `double` arithmetic and `DateTime.AddMilliseconds` rounding are not modelled; exactness is claimed only for whole seconds.
- NtpWire.Parse: `BitConverter.ToUInt32` is taken to be little-endian, as on every platform the service targets.
- The clock: `NtpServiceLibrary/WindowsTime.cs` (the kernel32 calls and the SYSTEMTIME conversion) is not part of this model. The clock is a scripted object that may fail when setting or reading local time.
- Service status reporting (`ServiceState.cs`, the `ServiceStatus.Set` calls in `OnStart`/`OnStop`) is not modelled: it only reports to the Windows service manager.
- The `ServiceBase` host, timer callbacks and concurrency are not modelled. `Stop()` from the catch block is modelled as `OnStop` plus a `stopped` flag, and ticks and session changes are calls to `OnTimerElapsed` and `OnSessionChange`.
- Log sinks (`EventLogger.cs`, `ConsoleLogger.cs`) and both `Program.cs` entry points are not modelled. The log is a sequence of entries, and a composite format is applied before `Write`.
- Service.NtpService.OnStart: a second start replaces an earlier timer without disposing it, as the code does. The contract states nothing about the old timer, because the service host starts a service only once.
- Service.NtpService.OnStart: the settings provider is a parameter giving the outcome of `Read` (settings, null, or an exception); which provider produced it is not modelled.
- Service.Renderers: `DateTime.ToString`, `Exception.Message` and `Exception.ToString` are uninterpreted functions.
- Service.InvalidInterval: the message text of the Timer constructor's ArgumentException is the framework's and is only approximated.
- RegistrySettings.RegistrySettingsProvider.Read: the registry is a tree of keys passed to the constructor in place of `Registry.LocalMachine`. Key and value names are compared case-sensitively, whereas the Windows registry ignores case. Open keys are not disposed.
- Configuration.SettingsValue.Set: the source is a non-null string and must be passed. C#'s default argument `source = ""` is not modelled, and neither is a null source, which C# would render as " <>" because null differs from "".
- LegacyNtpTime.RetrieveNTPTime: the client is passed in instead of being built by `new UdpClient()` inside the `try`, so a failing constructor is not modelled.
- RegistrySettings.AsInt: a DWord is an unbounded integer; a negative or out-of-range stored value is not distinguished.
- RegistrySettings.AsString, RegistrySettings.AsInt: their fallback branches are never taken, because the kind is checked first.
- Enum values outside the declared members (for example a cast integer passed as version or mode) are not modelled.
- Both `NtpTime` classes are modelled, as separate modules. The service's attempt uses the newer one (`ntp/NtpTime.cs`), fed the scripted client.
- RegistrySettings.RegistrySettingsProvider.Read: the provider keeps one settings object across reads, so a second read that finds no key reports the values left by the first read, not fresh defaults.
