/**
  Tracked settings (Settings.cs): a `SettingsValue<T>` holds a value, the
  label of whoever last set it and whether it was ever set; `Settings`
  holds the server, port and poll interval with their compiled-in defaults.
  `Tracked` and `Config` are the values these objects hold at one moment.
 */
module Configuration {
  import opened Text

  datatype Tracked<T> = Tracked(value: T, source: string, changed: bool)

  /** A value that was never set: no source, not changed. */
  function Initial<T>(d: T): Tracked<T>
  {
    Tracked(d, "", false)
  }

  /** What `Set(value, source)` leaves behind. */
  function Assign<T>(t: Tracked<T>, v: T, source: string): Tracked<T>
  {
    Tracked(v, source, true)
  }

  /** The text `SettingsValue.ToString` appends after the value's own text. */
  function Annotation<T>(t: Tracked<T>): string
  {
    (if t.changed then "" else " (default)") + (if t.source != "" then " <" + t.source + ">" else "")
  }

  /** `SettingsValue.ToString`, with `show` standing for `T.ToString`. */
  function Render<T>(t: Tracked<T>, show: T -> string): string
  {
    show(t.value) + Annotation(t)
  }

  /** A value never set renders as its text followed by " (default)". */
  lemma RenderInitial<T>(d: T, show: T -> string)
    ensures Render(Initial(d), show) == show(d) + " (default)"
  {
  }

  /** After any `Set` the " (default)" mark is gone and only a non-empty source is shown. */
  lemma RenderAssigned<T>(t: Tracked<T>, v: T, source: string, show: T -> string)
    ensures Render(Assign(t, v, source), show) == show(v) + (if source != "" then " <" + source + ">" else "")
  {
  }

  /** The state after the writes in `writes`, applied in order, each a `Set(value, source)`. */
  function AssignAll<T>(t: Tracked<T>, writes: seq<(T, string)>): Tracked<T>
    decreases |writes|
  {
    if writes == [] then t else AssignAll(Assign(t, writes[0].0, writes[0].1), writes[1..])
  }

  /**
    The last writer wins: after any non-empty sequence of Sets the value and
    source are the last write's, the value counts as changed, and the
    rendering shows only the last source.
   */
  lemma {:induction false} LastWriterWins<T>(t: Tracked<T>, writes: seq<(T, string)>, show: T -> string)
    requires writes != []
    decreases |writes|
    ensures var (v, s) := writes[|writes| - 1];
            AssignAll(t, writes) == Tracked(v, s, true)
            && Render(AssignAll(t, writes), show) == show(v) + (if s != "" then " <" + s + ">" else "")
  {
    if |writes| > 1 {
      LastWriterWins(Assign(t, writes[0].0, writes[0].1), writes[1..], show);
      assert writes[1..][|writes[1..]| - 1] == writes[|writes| - 1];
    }
  }

  /** Reads the provenance (changed, source) back from the text `Render` appends. */
  function ProvenanceOf(annotation: string): (bool, string)
  {
    if |annotation| >= 10 && annotation[..10] == " (default)" then
      (false, if |annotation| >= 13 then annotation[12..|annotation| - 1] else "")
    else
      (true, if |annotation| >= 3 then annotation[2..|annotation| - 1] else "")
  }

  lemma ProvenanceOfAnnotation<T>(t: Tracked<T>)
    ensures ProvenanceOf(Annotation(t)) == (t.changed, t.source)
  {
    var x := Annotation(t);
    if !t.changed && t.source != "" {
      assert x[..10] == " (default)";
      assert x[12..|x| - 1] == t.source;
    } else if t.changed && t.source != "" {
      assert x[1] == '<';
      assert x[2..|x| - 1] == t.source;
    }
  }

  /**
    The rendering discloses provenance: two values with the same text render
    alike only if both are defaults or both are overrides, with the same source.
    The value texts must be equal: a value whose own text ends in " (default)"
    or " <...>" makes the rendering ambiguous otherwise.
   */
  lemma RenderDisclosesProvenance<T>(a: Tracked<T>, b: Tracked<T>, show: T -> string)
    requires show(a.value) == show(b.value)
    requires Render(a, show) == Render(b, show)
    ensures a.changed == b.changed && a.source == b.source
  {
    var x, y := Annotation(a), Annotation(b);
    var p := show(a.value);
    assert x == (p + x)[|p|..] == (p + y)[|p|..] == y;
    ProvenanceOfAnnotation(a);
    ProvenanceOfAnnotation(b);
  }

  class SettingsValue<T> {
    var value: T
    var source: string
    var changed: bool

    /** `new SettingsValue<T>(defaultValue)` */
    constructor (defaultValue: T)
      ensures State() == Initial(defaultValue)
      ensures Get() == defaultValue
    {
      value, source, changed := defaultValue, "", false;
    }

    function State(): Tracked<T>
      reads this
    {
      Tracked(value, source, changed)
    }

    function Get(): T
      reads this
    {
      value
    }

    /** The explicit conversion operator to `T`. */
    function Cast(): T
      reads this
    {
      Get()
    }

    method Set(v: T, s: string)
      modifies this
      ensures State() == Assign(old(State()), v, s)
      ensures Get() == v && Cast() == v
    {
      value, source, changed := v, s, true;
    }

    function ToString(show: T -> string): string
      reads this
    {
      Render(State(), show)
    }
  }

  const DefaultNTPServer: string := "pool.ntp.org"
  const DefaultNTPPort: int := 123
  const DefaultNTPPollIntervalHours: int := 6

  datatype Config = Config(server: Tracked<string>, port: Tracked<int>, pollIntervalHours: Tracked<int>)

  function Defaults(): Config
  {
    Config(Initial(DefaultNTPServer), Initial(DefaultNTPPort), Initial(DefaultNTPPollIntervalHours))
  }

  function ShowString(s: string): string
  {
    s
  }

  /** `Settings.ToString`: three labelled lines, each with the field's rendering. */
  function RenderConfig(c: Config): string
  {
    "Server: " + Render(c.server, ShowString) + "\nPort: " + Render(c.port, IntToString)
    + "\nPollIntervalHours: " + Render(c.pollIntervalHours, IntToString) + "\n"
  }

  /** The default values as text, and their renderings. */
  lemma DefaultFieldTexts()
    ensures IntToString(DefaultNTPPort) == "123" && IntToString(DefaultNTPPollIntervalHours) == "6"
    ensures Render(Initial(DefaultNTPServer), ShowString) == "pool.ntp.org (default)"
    ensures Render(Initial(DefaultNTPPort), IntToString) == "123 (default)"
    ensures Render(Initial(DefaultNTPPollIntervalHours), IntToString) == "6 (default)"
  {
    assert NatToString(1) == "1";
    assert NatToString(12) == NatToString(1) + "2";
    assert IntToString(123) == NatToString(12) + "3" == "123";
    assert IntToString(6) == "6";
  }

  /** The defaults render as the compiled-in values, each marked as a default. */
  lemma RenderDefaults()
    ensures RenderConfig(Defaults())
         == "Server: " + "pool.ntp.org (default)" + "\nPort: " + "123 (default)"
            + "\nPollIntervalHours: " + "6 (default)" + "\n"
  {
    DefaultFieldTexts();
  }

  class Settings {
    const NTPServer: SettingsValue<string>
    const NTPPort: SettingsValue<int>
    const NTPPollIntervalHours: SettingsValue<int>

    /** The three fields are distinct objects. */
    ghost predicate Valid()
    {
      NTPPort != NTPPollIntervalHours
    }

    constructor ()
      ensures Valid() && fresh(NTPServer) && fresh(NTPPort) && fresh(NTPPollIntervalHours)
      ensures Snapshot() == Defaults()
    {
      NTPServer := new SettingsValue(DefaultNTPServer);
      NTPPort := new SettingsValue(DefaultNTPPort);
      NTPPollIntervalHours := new SettingsValue(DefaultNTPPollIntervalHours);
    }

    function Snapshot(): Config
      reads NTPServer, NTPPort, NTPPollIntervalHours
    {
      Config(NTPServer.State(), NTPPort.State(), NTPPollIntervalHours.State())
    }

    function ToString(): string
      reads NTPServer, NTPPort, NTPPollIntervalHours
    {
      RenderConfig(Snapshot())
    }
  }

  /** The settings of the unit tests: a fresh value, then a `Set` from "test". */
  method SettingsValueScenario()
  {
    var v := new SettingsValue<string>("default");
    assert v.Get() == "default";
    v.Set("new", "test");
    assert v.Get() == "new" && v.Cast() == "new";
    assert v.ToString(ShowString) == "new <test>";
    var s := new Settings();
    RenderDefaults();
    assert s.ToString() == "Server: " + "pool.ntp.org (default)" + "\nPort: " + "123 (default)"
      + "\nPollIntervalHours: " + "6 (default)" + "\n";
  }
}
