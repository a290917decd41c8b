/**
  The Windows service (NtpService.cs): on start it reads the settings, arms
  the poll timer and makes one immediate attempt; every timer tick and every
  session unlock makes another. An attempt retrieves the NTP time, hands it
  to the system clock and logs what happened; no failure escapes it.
 */
module Service {
  import opened Wrappers
  import opened Exceptions
  import opened Text
  import opened NtpWire
  import opened UdpTransport
  import opened NtpTime
  import opened Configuration
  import opened Logging
  import opened TimeSpans

  /** System.ServiceProcess.SessionChangeReason */
  datatype SessionChangeReason =
    | ConsoleConnect | ConsoleDisconnect | RemoteConnect | RemoteDisconnect
    | SessionLogon | SessionLogoff | SessionLock | SessionUnlock | SessionRemoteControl

  /**
    How the host turns values into log text: `DateTime.ToString`,
    `Exception.Message` and `Exception.ToString`.
   */
  datatype Renderers = Renderers(time: DateTime -> string, message: Exception -> string, full: Exception -> string)

  const IntMaxValue: int := 0x7FFF_FFFF

  /** The poll timer (System.Timers.Timer) as far as the service drives it. */
  class Timer {
    /** Milliseconds between ticks. */
    const interval: int
    var enabled: bool
    var disposed: bool

    /** `new Timer(interval)`; the caller has checked the interval (see `IntervalFault`). */
    constructor (interval: int)
      requires 0 < interval <= IntMaxValue
      ensures this.interval == interval && !enabled && !disposed
    {
      this.interval := interval;
      enabled, disposed := false, false;
    }

    method Start()
      modifies this
      ensures enabled && disposed == old(disposed)
    {
      enabled := true;
    }

    method Stop()
      modifies this
      ensures !enabled && disposed == old(disposed)
    {
      enabled := false;
    }

    method Dispose()
      modifies this
      ensures disposed && !enabled
    {
      enabled, disposed := false, true;
    }
  }

  /** What the system clock does: whether setting it throws, and what reading local time yields. */
  datatype ClockScript = ClockScript(setFault: Option<Exception>, local: Result<DateTime, Exception>)

  /** The system-time capability (Win32SystemTime); it records every instant it is asked to set. */
  class SystemClock {
    const script: ClockScript
    var requests: seq<DateTime>

    constructor (script: ClockScript)
      ensures this.script == script && requests == []
    {
      this.script := script;
      requests := [];
    }

    method Set(t: DateTime) returns (fault: Option<Exception>)
      modifies this
      ensures requests == old(requests) + [t]
      ensures fault == script.setFault
    {
      requests := requests + [t];
      fault := script.setFault;
    }

    method GetLocal() returns (r: Result<DateTime, Exception>)
      ensures r == script.local
    {
      r := script.local;
    }
  }

  // ---------------------------------------------------------------------------
  // One attempt, on values
  // ---------------------------------------------------------------------------

  /** How one `RetrieveAndSetTime` ends. */
  datatype Attempt =
    | NotConfigured
    | RetrieveFailed(error: Exception)
    | SetFailed(time: DateTime, error: Exception)
    | Succeeded(time: DateTime, local: DateTime)

  /**
    The attempt for the current settings (`None` when `_settings` is null,
    where the conversion of the missing value throws NullReferenceException),
    the network's script and the clock's script.
   */
  function AttemptOf(cfg: Option<Config>, net: Script, clock: ClockScript): Attempt
  {
    match cfg
    case None => RetrieveFailed(NullReference)
    case Some(c) =>
      if IsNullOrWhiteSpace(Some(c.server.value)) then NotConfigured
      else
        match Exchange(c.server.value, c.port.value, net)
        case Failure(e) => RetrieveFailed(e)
        case Success(t) =>
          if clock.setFault.Some? then SetFailed(t, clock.setFault.value)
          else
            match clock.local
            case Failure(e) => SetFailed(t, e)
            case Success(l) => Succeeded(t, l)
  }

  /** The lines an attempt logs, `server` being the configured name. */
  function AttemptLog(a: Attempt, server: string, r: Renderers): seq<string>
  {
    match a
    case NotConfigured => ["NTP server not configured."]
    case RetrieveFailed(e) => ["Failed to retrieve time from NTP server: " + r.message(e)]
    case SetFailed(t, e) =>
      ["Received NTP time from " + server + ": " + r.time(t), "Failed to set system time: " + r.message(e)]
    case Succeeded(t, l) =>
      ["Received NTP time from " + server + ": " + r.time(t), "System time successfully set to: " + r.time(l)]
  }

  /** The instants handed to the clock: the retrieved one, once, whenever retrieval succeeded. */
  function ClockRequests(a: Attempt): seq<DateTime>
  {
    match a
    case SetFailed(t, _) => [t]
    case Succeeded(t, _) => [t]
    case _ => []
  }

  /** The calls an attempt makes on the UDP client. */
  function SocketCalls(cfg: Option<Config>, net: Script): seq<Call>
  {
    match cfg
    case None => []
    case Some(c) =>
      if IsNullOrWhiteSpace(Some(c.server.value)) then []
      else ExchangeCalls(c.server.value, c.port.value, net)
  }

  function ServerName(cfg: Option<Config>): string
  {
    match cfg
    case None => ""
    case Some(c) => c.server.value
  }

  // ---------------------------------------------------------------------------
  // The timer's interval
  // ---------------------------------------------------------------------------

  /** Milliseconds in `hours` hours. */
  function IntervalMs(hours: int): int
  {
    hours * 3_600_000
  }

  /** The ArgumentException `new Timer(interval)` throws for an interval outside 1..Int32.MaxValue. */
  function InvalidInterval(ms: int): Exception
  {
    Argument("Invalid value '" + IntToString(ms) + "' for parameter 'interval'.")
  }

  /** What `InitTimer(hours)` throws, if anything: the TimeSpan overflow, then the timer's range check. */
  function IntervalFault(hours: int): (r: Option<Exception>)
    ensures r.None? <==> 1 <= hours <= 596
  {
    match FromHms(hours, 0, 0)
    case Failure(e) => Some(e)
    case Success(_) =>
      if IntervalMs(hours) <= 0 || IntervalMs(hours) > IntMaxValue then Some(InvalidInterval(IntervalMs(hours)))
      else None
  }

  /** The line `InitTimer` logs for an accepted number of hours. */
  function TimerLine(hours: int): string
    requires 1 <= hours <= 596
  {
    "Timer set to " + Format(FromHms(hours, 0, 0).value)
  }

  class NtpService {
    var settings: Settings?
    var timer: Timer?
    /** Set once `ServiceBase.Stop` has been requested. */
    var stopped: bool
    const logger: Logger
    const render: Renderers

    /** `new NtpService(settingsProvider, logger)`; the provider's outcome is given to `OnStart`. */
    constructor (logger: Logger, render: Renderers)
      ensures this.logger == logger && this.render == render
      ensures settings == null && timer == null && !stopped
    {
      this.logger := logger;
      this.render := render;
      settings, timer, stopped := null, null, false;
    }

    /** The settings an attempt sees: none while `_settings` is null. */
    function Current(): Option<Config>
      reads this, if settings == null then {} else {settings.NTPServer as object, settings.NTPPort, settings.NTPPollIntervalHours}
    {
      if settings == null then None else Some(settings.Snapshot())
    }

    /**
      `RetrieveAndSetTime`: every path ends in log lines and nothing escapes;
      the socket and the clock see exactly the calls the attempt needs.
     */
    method RetrieveAndSetTime(socket: UdpClient, clock: SystemClock)
      modifies logger`entries, socket, clock
      ensures var a := AttemptOf(old(Current()), socket.script, clock.script);
              && logger.entries == old(logger.entries) + AttemptLog(a, ServerName(old(Current())), render)
              && clock.requests == old(clock.requests) + ClockRequests(a)
              && socket.trace == old(socket.trace) + SocketCalls(old(Current()), socket.script)
    {
      if settings == null {
        logger.Write("Failed to retrieve time from NTP server: " + render.message(NullReference));
        return;
      }
      var ntpServer := settings.NTPServer.Get();
      var ntpPort := settings.NTPPort.Get();
      if IsNullOrWhiteSpace(Some(ntpServer)) {
        logger.Write("NTP server not configured.");
        return;
      }
      var ntpTime := RetrieveNTPTime(Some(ntpServer), ntpPort, socket);
      if ntpTime.Failure? {
        logger.Write("Failed to retrieve time from NTP server: " + render.message(ntpTime.error));
        return;
      }
      logger.Write("Received NTP time from " + ntpServer + ": " + render.time(ntpTime.value));
      var fault := clock.Set(ntpTime.value);
      if fault.Some? {
        logger.Write("Failed to set system time: " + render.message(fault.value));
        return;
      }
      var local := clock.GetLocal();
      if local.Failure? {
        logger.Write("Failed to set system time: " + render.message(local.error));
        return;
      }
      logger.Write("System time successfully set to: " + render.time(local.value));
    }

    /** `InitTimer(hours)`: a started timer of `hours` hours, or what the TimeSpan or Timer constructor throws. */
    method InitTimer(hours: int) returns (r: Result<Timer, Exception>)
      modifies logger`entries
      ensures IntervalFault(hours).Some? ==> r == Failure(IntervalFault(hours).value) && logger.entries == old(logger.entries)
      ensures IntervalFault(hours).None? ==>
        && r.Success? && fresh(r.value) && r.value.interval == IntervalMs(hours)
        && r.value.enabled && !r.value.disposed
        && logger.entries == old(logger.entries) + [TimerLine(hours)]
    {
      var timespan := FromHms(hours, 0, 0);
      if timespan.Failure? {
        return Failure(timespan.error);
      }
      var ms := IntervalMs(hours);
      assert TotalMilliseconds(timespan.value) == ms as real;
      if ms <= 0 || ms > IntMaxValue {
        return Failure(InvalidInterval(ms));
      }
      var timer := new Timer(ms);
      timer.Start();
      logger.Write("Timer set to " + Format(timespan.value));
      return Success(timer);
    }

    /** `OnStop`: the timer, if any, is stopped, disposed and dropped. */
    method OnStop()
      modifies this`timer, timer
      ensures timer == null
      ensures old(timer) != null ==> !old(timer).enabled && old(timer).disposed
    {
      if timer != null {
        timer.Stop();
        timer.Dispose();
        timer := null;
      }
    }

    /** The catch block of `OnStart`: log the fatal error and stop the service. */
    method Fatal(e: Exception)
      modifies logger`entries, this`timer, this`stopped, timer
      ensures logger.entries == old(logger.entries) + ["Fatal error in OnStart: " + render.full(e)]
      ensures stopped && timer == null
      ensures old(timer) != null ==> !old(timer).enabled && old(timer).disposed
    {
      logger.Write("Fatal error in OnStart: " + render.full(e));
      OnStop();
      stopped := true;
    }

    /**
      `OnStart`, with `loaded` the outcome of `ISettingsProvider.Read`: read
      the settings, arm the timer, make one immediate attempt, report success;
      anything thrown on the way is logged as fatal and stops the service.
      A second start replaces an earlier timer without disposing it, as the
      source does; the service host starts a service only once.
     */
    method OnStart(loaded: Result<Settings?, Exception>, socket: UdpClient, clock: SystemClock)
      modifies this, logger, socket, clock, timer
      ensures logger.started
      ensures loaded.Failure? ==>
        && logger.entries == old(logger.entries) + ["Service is starting...", "Fatal error in OnStart: " + render.full(loaded.error)]
        && settings == old(settings) && stopped && timer == null
      ensures loaded == Success(null) ==>
        && logger.entries == old(logger.entries)
             + ["Service is starting...", "Fatal error in OnStart: " + render.full(InvalidOperation("Settings could not be loaded.", None))]
        && settings == null && stopped && timer == null
      ensures loaded.Success? && loaded.value != null ==>
        && settings == loaded.value
        && (IntervalFault(loaded.value.NTPPollIntervalHours.Get()).Some? ==>
              && logger.entries == old(logger.entries) + ["Service is starting..."]
                 + ["Fatal error in OnStart: " + render.full(IntervalFault(loaded.value.NTPPollIntervalHours.Get()).value)]
              && stopped && timer == null && socket.trace == old(socket.trace) && clock.requests == old(clock.requests))
        && (IntervalFault(loaded.value.NTPPollIntervalHours.Get()).None? ==>
              var hours := loaded.value.NTPPollIntervalHours.Get();
              var cfg := Some(loaded.value.Snapshot());
              && logger.entries == old(logger.entries) + ["Service is starting..."] + [TimerLine(hours)]
                 + AttemptLog(AttemptOf(cfg, socket.script, clock.script), ServerName(cfg), render)
                 + ["Service started successfully."]
              && stopped == old(stopped)
              && timer != null && fresh(timer) && timer.interval == IntervalMs(hours) && timer.enabled
              && clock.requests == old(clock.requests) + ClockRequests(AttemptOf(cfg, socket.script, clock.script))
              && socket.trace == old(socket.trace) + SocketCalls(cfg, socket.script))
    {
      logger.Start();
      logger.Write("Service is starting...");
      if loaded.Failure? {
        Fatal(loaded.error);
        return;
      }
      settings := loaded.value;
      if settings == null {
        Fatal(InvalidOperation("Settings could not be loaded.", None));
        return;
      }
      StartWithSettings(socket, clock);
    }

    /** The part of `OnStart` after the settings were loaded. */
    method StartWithSettings(socket: UdpClient, clock: SystemClock)
      requires settings != null
      modifies this`timer, this`stopped, logger`entries, socket, clock, timer
      ensures var cfg := Some(settings.Snapshot());
              var hours := settings.NTPPollIntervalHours.Get();
              && (IntervalFault(hours).Some? ==>
                    && logger.entries == old(logger.entries) + ["Fatal error in OnStart: " + render.full(IntervalFault(hours).value)]
                    && stopped && timer == null && socket.trace == old(socket.trace) && clock.requests == old(clock.requests))
              && (IntervalFault(hours).None? ==>
                    && logger.entries == old(logger.entries) + [TimerLine(hours)]
                       + AttemptLog(AttemptOf(cfg, socket.script, clock.script), ServerName(cfg), render)
                       + ["Service started successfully."]
                    && stopped == old(stopped)
                    && timer != null && fresh(timer) && timer.interval == IntervalMs(hours) && timer.enabled
                    && clock.requests == old(clock.requests) + ClockRequests(AttemptOf(cfg, socket.script, clock.script))
                    && socket.trace == old(socket.trace) + SocketCalls(cfg, socket.script))
    {
      ghost var cfg := Current();
      var hours := settings.NTPPollIntervalHours.Get();
      assert cfg == Some(settings.Snapshot()) && hours == cfg.value.pollIntervalHours.value;
      var t := InitTimer(hours);
      if t.Failure? {
        Fatal(t.error);
        return;
      }
      timer := t.value;
      assert Current() == cfg;
      FirstAttempt(socket, clock);
    }

    /** The immediate attempt of `OnStart`, followed by the success line. */
    method FirstAttempt(socket: UdpClient, clock: SystemClock)
      modifies logger`entries, socket, clock
      ensures var a := AttemptOf(old(Current()), socket.script, clock.script);
              && logger.entries
                 == old(logger.entries) + AttemptLog(a, ServerName(old(Current())), render) + ["Service started successfully."]
              && clock.requests == old(clock.requests) + ClockRequests(a)
              && socket.trace == old(socket.trace) + SocketCalls(old(Current()), socket.script)
    {
      RetrieveAndSetTime(socket, clock);
      logger.Write("Service started successfully.");
    }

    /** `OnSessionChange`: only an unlock makes an attempt, announced first. */
    method OnSessionChange(reason: SessionChangeReason, socket: UdpClient, clock: SystemClock)
      modifies logger`entries, socket, clock
      ensures reason != SessionUnlock ==>
        logger.entries == old(logger.entries) && socket.trace == old(socket.trace) && clock.requests == old(clock.requests)
      ensures reason == SessionUnlock ==>
        var a := AttemptOf(old(Current()), socket.script, clock.script);
        && logger.entries == old(logger.entries) + ["Setting NTP time on SessionUnlock event"]
             + AttemptLog(a, ServerName(old(Current())), render)
        && clock.requests == old(clock.requests) + ClockRequests(a)
        && socket.trace == old(socket.trace) + SocketCalls(old(Current()), socket.script)
    {
      if reason == SessionUnlock {
        logger.Write("Setting NTP time on SessionUnlock event");
        RetrieveAndSetTime(socket, clock);
      }
    }

    /** `OnTimerElapsed`: one attempt per tick. */
    method OnTimerElapsed(socket: UdpClient, clock: SystemClock)
      modifies logger`entries, socket, clock
      ensures var a := AttemptOf(old(Current()), socket.script, clock.script);
              && logger.entries == old(logger.entries) + AttemptLog(a, ServerName(old(Current())), render)
              && clock.requests == old(clock.requests) + ClockRequests(a)
              && socket.trace == old(socket.trace) + SocketCalls(old(Current()), socket.script)
    {
      RetrieveAndSetTime(socket, clock);
    }
  }

  // ---------------------------------------------------------------------------
  // Properties of an attempt
  // ---------------------------------------------------------------------------

  /** A blank server is reported and neither the network nor the clock is touched. */
  lemma BlankServerMakesNoCalls(c: Config, net: Script, clock: ClockScript, r: Renderers)
    requires IsNullOrWhiteSpace(Some(c.server.value))
    ensures AttemptOf(Some(c), net, clock) == NotConfigured
    ensures AttemptLog(NotConfigured, c.server.value, r) == ["NTP server not configured."]
    ensures SocketCalls(Some(c), net) == [] && ClockRequests(NotConfigured) == []
  {
  }

  /** When retrieval fails the clock is never asked, and one line reports the failure. */
  lemma RetrieveFailureSkipsClock(cfg: Option<Config>, net: Script, clock: ClockScript, r: Renderers)
    requires AttemptOf(cfg, net, clock).RetrieveFailed?
    ensures ClockRequests(AttemptOf(cfg, net, clock)) == []
    ensures |AttemptLog(AttemptOf(cfg, net, clock), ServerName(cfg), r)| == 1
  {
  }

  /** Retrieval fails exactly when the exchange fails, or when there are no settings at all. */
  lemma RetrieveFailsIffExchangeFails(cfg: Option<Config>, net: Script, clock: ClockScript)
    ensures AttemptOf(cfg, net, clock).RetrieveFailed?
        <==> cfg.None? || (!IsNullOrWhiteSpace(Some(cfg.value.server.value))
                           && Exchange(cfg.value.server.value, cfg.value.port.value, net).Failure?)
  {
  }

  /** On a successful retrieval the clock receives exactly the retrieved instant, once. */
  lemma ClockGetsRetrievedInstant(c: Config, net: Script, clock: ClockScript, t: DateTime)
    requires !IsNullOrWhiteSpace(Some(c.server.value))
    requires Exchange(c.server.value, c.port.value, net) == Success(t)
    ensures ClockRequests(AttemptOf(Some(c), net, clock)) == [t]
    ensures clock.setFault.None? && clock.local.Success? <==> AttemptOf(Some(c), net, clock).Succeeded?
  {
  }

  /** A failing clock is logged after the received time; the failure goes no further. */
  lemma SetFailureLoggedAfterReceipt(c: Config, net: Script, clock: ClockScript, t: DateTime, e: Exception, r: Renderers)
    requires !IsNullOrWhiteSpace(Some(c.server.value))
    requires Exchange(c.server.value, c.port.value, net) == Success(t)
    requires clock.setFault == Some(e)
    ensures AttemptLog(AttemptOf(Some(c), net, clock), c.server.value, r)
         == ["Received NTP time from " + c.server.value + ": " + r.time(t), "Failed to set system time: " + r.message(e)]
  {
  }

  /** Every attempt logs at least one line and at most two: each path ends in a report. */
  lemma EveryAttemptReports(a: Attempt, server: string, r: Renderers)
    ensures 1 <= |AttemptLog(a, server, r)| <= 2
    ensures |ClockRequests(a)| <= 1
  {
  }

  /** Settings left null fail with a NullReferenceException before any network or clock call. */
  lemma NullSettingsFailEarly(net: Script, clock: ClockScript)
    ensures AttemptOf(None, net, clock) == RetrieveFailed(NullReference)
    ensures SocketCalls(None, net) == [] && ClockRequests(AttemptOf(None, net, clock)) == []
  {
  }

  /** With the test fixture's server replying 2020-01-01 and a working clock, that instant is set. */
  lemma MockServerAttempt(c: Config, local: DateTime)
    requires c.server.value == "dummy"
    ensures var a := AttemptOf(Some(c), Working(Success(Some(Response2020()))), ClockScript(None, Success(local)));
            a == Succeeded(UtcDate(2020, 1, 1), local) && ClockRequests(a) == [UtcDate(2020, 1, 1)]
  {
    var net := Working(Success(Some(Response2020())));
    assert !IsWhiteSpace("dummy"[0]);
    assert !IsNullOrWhiteSpace(Some(c.server.value));
    ExchangeWithMockServer("dummy", c.port.value);
    assert Exchange(c.server.value, c.port.value, net) == Success(UtcDate(2020, 1, 1));
    ClockGetsRetrievedInstant(c, net, ClockScript(None, Success(local)), UtcDate(2020, 1, 1));
  }

  /** The interval is the hours in milliseconds, accepted from 1 to 596 hours. */
  lemma IntervalRange(hours: int)
    ensures IntervalFault(hours).None? ==> IntervalMs(hours) == hours * 3_600_000 && 0 < IntervalMs(hours) <= IntMaxValue
    ensures hours == 0 ==> IntervalFault(hours) == Some(InvalidInterval(0))
    ensures hours == 597 ==> IntervalFault(hours) == Some(InvalidInterval(2_149_200_000))
  {
  }

  /** With the default six hours the timer line reads "Timer set to 6 hours 0 minutes 0 seconds". */
  lemma DefaultTimerLine()
    ensures TimerLine(DefaultNTPPollIntervalHours)
         == "Timer set to " + ("6" + " hour" + "s" + " " + "0" + " minute" + "s" + " " + "0" + " second" + "s")
  {
    FormatWholeHours(6);
    assert 6 % 24 == 6;
    assert IntToString(6) == "6";
    assert Suffix(6) == "s";
  }

  /** A poll interval of a whole day is logged as zero hours, since days are not shown. */
  lemma DayIntervalLine()
    ensures TimerLine(24) == "Timer set to " + ("0" + " hour" + "s" + " " + "0" + " minute" + "s" + " " + "0" + " second" + "s")
  {
    FormatOneDay();
  }
}
