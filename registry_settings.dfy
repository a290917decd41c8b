/**
  The registry settings provider (RegistrySettingsProvider.cs): walks
  SYSTEM\CurrentControlSet\Services\<service>\Parameters, type-checks every
  recognised value, sets the matching settings field with source "registry",
  collects diagnostics and writes one log entry.
 */
module RegistrySettings {
  import opened Text
  import opened Wrappers
  import opened RegistryKeys
  import opened Configuration
  import opened Logging

  /** The key path under the local-machine root that holds the service's parameters. */
  function SettingsPath(serviceName: string): (p: seq<string>)
    ensures |p| == 5 && p[3] == serviceName && p[4] == "Parameters"
  {
    ["SYSTEM", "CurrentControlSet", "Services", serviceName, "Parameters"]
  }

  /** `RegistryValueKindToString` */
  function KindLabel(k: ValueKind): string
  {
    match k
    case String => "string"
    case DWord => "dword"
    case Other(_) => "<unsupported>"
  }

  /** The label names the two accepted kinds and lumps every other kind together. */
  lemma KindLabelIdentifiesAccepted(k: ValueKind, j: ValueKind)
    ensures KindLabel(k) == "string" <==> k == String
    ensures KindLabel(k) == "dword" <==> k == DWord
    ensures KindLabel(k) == "<unsupported>" <==> k.Other?
    ensures KindLabel(k) == KindLabel(j) <==> k == j || (k.Other? && j.Other?)
  {
    assert "string"[0] != "dword"[0] && "string"[0] != "<unsupported>"[0] && "dword"[0] != "<unsupported>"[0];
  }

  /**
    The `(string)` cast of a stored value. It is applied only after the kind
    was found to be String, so the fallback branch is never taken.
   */
  function AsString(v: RegValue): string
  {
    if v.StringValue? then v.s else ""
  }

  /** The `(int)` cast, applied only after the kind was found to be DWord. */
  function AsInt(v: RegValue): int
  {
    if v.DWordValue? then v.n else 0
  }

  /** The diagnostic appended when `name` holds a value of the wrong kind. */
  function InvalidKind(name: string, expected: ValueKind, actual: ValueKind, current: string): string
  {
    "Invalid data type for key '" + name + "'. Expected: '" + KindLabel(expected) + "', actual: '"
    + KindLabel(actual) + "'. Falling back to default value " + current + "\n"
  }

  /** The diagnostic appended for a value name the loader does not know. */
  function Unexpected(name: string): string
  {
    "Unexpected parameter '" + name + "', ignoring\n"
  }

  /**
    `ReadValue<T>` on values: the field after the read and the message so far.
    A value of the expected kind replaces the field with source "registry";
    any other kind keeps the field and appends a diagnostic.
   */
  function ReadTracked<T>(t: Tracked<T>, key: Key, name: string, expected: ValueKind, message: string,
                          cast: RegValue -> T, show: T -> string): (Tracked<T>, string)
    requires expected == String || expected == DWord
  {
    var actual := GetValueKind(key, name);
    if actual != expected then
      (t, message + InvalidKind(name, expected, actual, show(t.value)))
    else
      AcceptedKindIsStored(key, name);
      (Assign(t, cast(GetValue(key, name).value), "registry"), message)
  }

  /** One iteration of the value-name loop. */
  function Step(c: Config, key: Key, name: string, message: string): (Config, string)
  {
    if name == "Server" then
      var (t, m) := ReadTracked(c.server, key, name, String, message, AsString, ShowString);
      (c.(server := t), m)
    else if name == "Port" then
      var (t, m) := ReadTracked(c.port, key, name, DWord, message, AsInt, IntToString);
      (c.(port := t), m)
    else if name == "PollIntervalHours" then
      var (t, m) := ReadTracked(c.pollIntervalHours, key, name, DWord, message, AsInt, IntToString);
      (c.(pollIntervalHours := t), m)
    else
      (c, message + Unexpected(name))
  }

  /** The value-name loop over `names`, from configuration `c` and an empty message. */
  function Walk(c: Config, key: Key, names: seq<string>): (Config, string)
  {
    if names == [] then (c, "")
    else
      var (c', m) := Walk(c, key, names[..|names| - 1]);
      Step(c', key, names[|names| - 1], m)
  }

  /** The log entry written when the parameters key cannot be reached. */
  function MissingEntry(c: Config): string
  {
    "No settings found in registry, using default values:\nServer: " + c.server.value
    + "\nPort: " + IntToString(c.port.value) + "\nPollIntervalHours: " + IntToString(c.pollIntervalHours.value)
  }

  /** What one `Read` leaves in the settings and writes to the log. */
  datatype Loaded = Loaded(config: Config, entry: string)

  /** `Read` on values, from the settings as they were before the call. */
  function LoadOutcome(root: Key, serviceName: string, c: Config): Loaded
  {
    match Descend(root, SettingsPath(serviceName))
    case None => Loaded(c, MissingEntry(c))
    case Some(key) =>
      var (c', m) := Walk(c, key, key.valueNames);
      Loaded(c', "Service settings:\n" + RenderConfig(c') + m)
  }

  class RegistrySettingsProvider {
    const serviceName: string
    const logger: Logger
    const settings: Settings
    /** The local-machine root the path is opened from. */
    const root: Key

    ghost predicate Valid()
    {
      settings.Valid()
    }

    /** `new RegistrySettingsProvider(serviceName, logger)`, with the registry root made explicit. */
    constructor (serviceName: string, logger: Logger, root: Key)
      ensures this.serviceName == serviceName && this.logger == logger && this.root == root
      ensures Valid() && fresh(settings) && settings.Snapshot() == Defaults()
    {
      this.serviceName := serviceName;
      this.logger := logger;
      this.root := root;
      this.settings := new Settings();
    }

    /** `ReadValue<T>`: updates `field` in place and returns the extended message. */
    static method ReadValue<T>(field: SettingsValue<T>, key: Key, name: string, expected: ValueKind,
                               message: string, cast: RegValue -> T, show: T -> string)
      returns (r: string)
      requires expected == String || expected == DWord
      modifies field
      ensures (field.State(), r) == ReadTracked(old(field.State()), key, name, expected, message, cast, show)
    {
      var actual := GetValueKind(key, name);
      if actual != expected {
        return message + InvalidKind(name, expected, actual, show(field.Get()));
      }
      AcceptedKindIsStored(key, name);
      var value := GetValue(key, name).value;
      field.Set(cast(value), "registry");
      return message;
    }

    /** The first loop of `Read`: opens the path one segment at a time and stops at the first missing one. */
    static method OpenPath(root: Key, path: seq<string>) returns (r: Option<Key>)
      ensures r == Descend(root, path)
    {
      var key := root;
      var i := 0;
      while i < |path|
        invariant 0 <= i <= |path|
        invariant Descend(root, path[..i]) == Some(key)
      {
        assert path[..i + 1] == path[..i] + [path[i]];
        DescendSnoc(root, path[..i], path[i]);
        var next := OpenSubKey(key, path[i]);
        if next == None {
          DescendMissingExtends(root, path[..i + 1], path[i + 1..]);
          assert path[..i + 1] + path[i + 1..] == path;
          return None;
        }
        key := next.value;
        i := i + 1;
      }
      assert path[..|path|] == path;
      return Some(key);
    }

    /** The second loop of `Read`: each value name, in enumeration order, updates a field or the message. */
    method ReadValues(key: Key) returns (message: string)
      requires Valid()
      modifies settings.NTPServer, settings.NTPPort, settings.NTPPollIntervalHours
      ensures (settings.Snapshot(), message) == Walk(old(settings.Snapshot()), key, key.valueNames)
    {
      ghost var c0 := settings.Snapshot();
      var names := key.valueNames;
      message := "";
      var j := 0;
      while j < |names|
        invariant 0 <= j <= |names|
        invariant (settings.Snapshot(), message) == Walk(c0, key, names[..j])
      {
        var name := names[j];
        assert names[..j + 1][..j] == names[..j];
        if name == "Server" {
          message := ReadValue(settings.NTPServer, key, name, String, message, AsString, ShowString);
        } else if name == "Port" {
          message := ReadValue(settings.NTPPort, key, name, DWord, message, AsInt, IntToString);
        } else if name == "PollIntervalHours" {
          message := ReadValue(settings.NTPPollIntervalHours, key, name, DWord, message, AsInt, IntToString);
        } else {
          message := message + Unexpected(name);
        }
        j := j + 1;
      }
      assert names[..|names|] == names;
    }

    /** `Read`: the settings object is updated in place and returned. */
    method Read() returns (s: Settings)
      requires Valid()
      modifies settings.NTPServer, settings.NTPPort, settings.NTPPollIntervalHours, logger`entries
      ensures s == settings
      ensures var o := LoadOutcome(root, serviceName, old(settings.Snapshot()));
              settings.Snapshot() == o.config && logger.entries == old(logger.entries) + [o.entry]
    {
      var found := OpenPath(root, SettingsPath(serviceName));
      if found == None {
        logger.Write(MissingEntry(settings.Snapshot()));
        return settings;
      }
      var message := ReadValues(found.value);
      logger.Write("Service settings:\n" + settings.ToString() + message);
      return settings;
    }
  }

  // ---------------------------------------------------------------------------
  // Properties of the loader
  // ---------------------------------------------------------------------------

  /** A missing segment anywhere on the path leaves the settings as they were and logs the fallback. */
  lemma MissingPathKeepsSettings(root: Key, serviceName: string, c: Config, k: nat)
    requires k < 5
    requires Descend(root, SettingsPath(serviceName)[..k]).Some?
    requires OpenSubKey(Descend(root, SettingsPath(serviceName)[..k]).value, SettingsPath(serviceName)[k]).None?
    ensures LoadOutcome(root, serviceName, c) == Loaded(c, MissingEntry(c))
  {
    var path := SettingsPath(serviceName);
    assert path[..k + 1] == path[..k] + [path[k]];
    DescendSnoc(root, path[..k], path[k]);
    DescendMissingExtends(root, path[..k + 1], path[k + 1..]);
    assert path[..k + 1] + path[k + 1..] == path;
  }

  /** Each step of the loop only appends to the message it was given. */
  lemma StepAppends(c: Config, key: Key, name: string, message: string)
    ensures message <= Step(c, key, name, message).1
  {
  }

  /** Diagnostics accumulate in enumeration order: a longer walk extends the shorter one's message. */
  lemma {:induction false} WalkAppends(c: Config, key: Key, names: seq<string>, more: seq<string>)
    ensures Walk(c, key, names).1 <= Walk(c, key, names + more).1
  {
    if more == [] {
      assert names + more == names;
    } else {
      var shorter := names + more[..|more| - 1];
      assert (names + more)[..|names + more| - 1] == shorter;
      WalkAppends(c, key, names, more[..|more| - 1]);
      var w := Walk(c, key, shorter);
      StepAppends(w.0, key, (names + more)[|names + more| - 1], w.1);
    }
  }

  /** A value of the expected kind sets the field with source "registry" and adds no diagnostic. */
  lemma MatchingKindSets(c: Config, key: Key, name: string, message: string)
    requires name in key.values
    ensures name == "Server" && key.values[name].StringValue? ==>
      Step(c, key, name, message) == (c.(server := Tracked(key.values[name].s, "registry", true)), message)
    ensures name == "Port" && key.values[name].DWordValue? ==>
      Step(c, key, name, message) == (c.(port := Tracked(key.values[name].n, "registry", true)), message)
    ensures name == "PollIntervalHours" && key.values[name].DWordValue? ==>
      Step(c, key, name, message)
        == (c.(pollIntervalHours := Tracked(key.values[name].n, "registry", true)), message)
  {
  }

  /**
    A value of the wrong kind, or a recognised name without a value, keeps the
    field and appends the diagnostic naming both kinds and the current value.
   */
  lemma MismatchedKindKeeps(c: Config, key: Key, name: string, message: string)
    ensures name == "Server" && GetValueKind(key, name) != String ==>
      Step(c, key, name, message)
        == (c, message + InvalidKind(name, String, GetValueKind(key, name), c.server.value))
    ensures name == "Port" && GetValueKind(key, name) != DWord ==>
      Step(c, key, name, message)
        == (c, message + InvalidKind(name, DWord, GetValueKind(key, name), IntToString(c.port.value)))
    ensures name == "PollIntervalHours" && GetValueKind(key, name) != DWord ==>
      Step(c, key, name, message)
        == (c, message + InvalidKind(name, DWord, GetValueKind(key, name), IntToString(c.pollIntervalHours.value)))
  {
  }

  predicate Recognised(name: string)
  {
    name == "Server" || name == "Port" || name == "PollIntervalHours"
  }

  /** One "Unexpected parameter" line per name, in order. */
  function UnexpectedLines(names: seq<string>): string
  {
    if names == [] then "" else UnexpectedLines(names[..|names| - 1]) + Unexpected(names[|names| - 1])
  }

  /** Unknown names change no field and each contributes one "Unexpected parameter" line. */
  lemma {:induction false} UnknownNamesIgnored(c: Config, key: Key, names: seq<string>)
    requires forall i :: 0 <= i < |names| ==> !Recognised(names[i])
    ensures Walk(c, key, names) == (c, UnexpectedLines(names))
  {
    if names != [] {
      UnknownNamesIgnored(c, key, names[..|names| - 1]);
    }
  }

  /** A field whose name is not enumerated keeps its value and provenance. */
  lemma {:induction false} UnnamedFieldsUntouched(c: Config, key: Key, names: seq<string>)
    ensures "Server" !in names ==> Walk(c, key, names).0.server == c.server
    ensures "Port" !in names ==> Walk(c, key, names).0.port == c.port
    ensures "PollIntervalHours" !in names ==> Walk(c, key, names).0.pollIntervalHours == c.pollIntervalHours
  {
    if names != [] {
      var init := names[..|names| - 1];
      assert forall n :: n in init ==> n in names;
      UnnamedFieldsUntouched(c, key, init);
    }
  }

  // ---------------------------------------------------------------------------
  // The unit tests' hierarchies
  // ---------------------------------------------------------------------------

  /** The hierarchy of the tests: the path for "MyService" ending in a key with `values`. */
  function Fixture(names: seq<string>, values: map<string, RegValue>): Key
  {
    Chain(SettingsPath("MyService"), Key(names, values, map[]))
  }

  /** The fixture's path leads to its leaf. */
  lemma FixtureLeaf(names: seq<string>, values: map<string, RegValue>, c: Config)
    ensures var w := Walk(c, Key(names, values, map[]), names);
            LoadOutcome(Fixture(names, values), "MyService", c) == Loaded(w.0, "Service settings:\n" + RenderConfig(w.0) + w.1)
  {
  }

  /** Valid values of every kind are all taken, each with source "registry". */
  lemma ValidValuesLoaded()
    ensures var o := LoadOutcome(Fixture(["Server", "Port", "PollIntervalHours"],
                                         map["Server" := StringValue("ool.ntp.org"), "Port" := DWordValue(23),
                                             "PollIntervalHours" := DWordValue(1)]),
                                 "MyService", Defaults());
            o.config.server == Tracked("ool.ntp.org", "registry", true)
            && o.config.port == Tracked(23, "registry", true)
            && o.config.pollIntervalHours == Tracked(1, "registry", true)
  {
    var names := ["Server", "Port", "PollIntervalHours"];
    var values := map["Server" := StringValue("ool.ntp.org"), "Port" := DWordValue(23),
                      "PollIntervalHours" := DWordValue(1)];
    var k := Key(names, values, map[]);
    FixtureLeaf(names, values, Defaults());
    assert names[..2][..1] == names[..1] && names[..1][..0] == [] && names[..3] == names;
    var c1 := Defaults().(server := Tracked("ool.ntp.org", "registry", true));
    var c2 := c1.(port := Tracked(23, "registry", true));
    var c3 := c2.(pollIntervalHours := Tracked(1, "registry", true));
    assert Walk(Defaults(), k, names[..1]) == (c1, "");
    assert Walk(Defaults(), k, names[..2]) == (c2, "");
    assert Walk(Defaults(), k, names) == (c3, "");
  }

  /** A walk over a single name is that name's step from an empty message. */
  lemma SingleNameWalk(c: Config, key: Key, name: string)
    ensures Walk(c, key, [name]) == Step(c, key, name, "")
  {
    assert [name][..0] == [];
  }

  /** The diagnostic for a string under "Port", with the default 123 as the current value. */
  lemma InvalidPortText()
    ensures InvalidKind("Port", DWord, String, IntToString(DefaultNTPPort))
         == "Invalid data type for key '" + "Port" + "'. Expected: '" + "dword" + "', actual: '" + "string"
            + "'. Falling back to default value " + "123" + "\n"
  {
    DefaultFieldTexts();
  }

  /** A string stored under "Port" keeps the default 123 and says so. */
  lemma InvalidPortKindLogged()
    ensures LoadOutcome(Fixture(["Port"], map["Port" := StringValue("bad")]), "MyService", Defaults())
         == Loaded(Defaults(), "Service settings:\n" + RenderConfig(Defaults())
              + ("Invalid data type for key '" + "Port" + "'. Expected: '" + "dword" + "', actual: '" + "string"
                 + "'. Falling back to default value " + "123" + "\n"))
  {
    var k := Key(["Port"], map["Port" := StringValue("bad")], map[]);
    FixtureLeaf(["Port"], map["Port" := StringValue("bad")], Defaults());
    SingleNameWalk(Defaults(), k, "Port");
    assert GetValueKind(k, "Port") == String;
    MismatchedKindKeeps(Defaults(), k, "Port", "");
    var m := InvalidKind("Port", DWord, String, IntToString(DefaultNTPPort));
    assert "" + m == m;
    InvalidPortText();
  }

  /** A known name is read and an unknown one is reported and skipped. */
  lemma UnexpectedNameLogged()
    ensures var o := LoadOutcome(Fixture(["Server", "UnknownSetting"],
                                         map["Server" := StringValue("ntp"), "UnknownSetting" := StringValue("uknown")]),
                                 "MyService", Defaults());
            o.config == Defaults().(server := Tracked("ntp", "registry", true))
            && o.entry == "Service settings:\n" + RenderConfig(o.config) + "Unexpected parameter '" + "UnknownSetting" + "', ignoring\n"
  {
    var names := ["Server", "UnknownSetting"];
    var values := map["Server" := StringValue("ntp"), "UnknownSetting" := StringValue("uknown")];
    var k := Key(names, values, map[]);
    FixtureLeaf(names, values, Defaults());
    assert names[..1] == ["Server"] && names[..1][..0] == [] && names[..2] == names;
    var c1 := Defaults().(server := Tracked("ntp", "registry", true));
    assert Walk(Defaults(), k, names[..1][..0]) == (Defaults(), "");
    MatchingKindSets(Defaults(), k, "Server", "");
    assert Walk(Defaults(), k, names[..1]) == (c1, "");
    assert Step(c1, k, "UnknownSetting", "") == (c1, "" + Unexpected("UnknownSetting"));
    assert Walk(Defaults(), k, names) == (c1, "" + Unexpected("UnknownSetting"));
    assert "" + Unexpected("UnknownSetting") == Unexpected("UnknownSetting");
  }

  /**
    A value of an unsupported kind under "Server" (a date, which the test's
    mock key reports as Unknown) keeps the default and is labelled "<unsupported>".
   */
  lemma UnsupportedKindLogged()
    ensures LoadOutcome(Fixture(["Server"], map["Server" := OtherValue(Unknown)]), "MyService", Defaults())
         == Loaded(Defaults(), "Service settings:\n" + RenderConfig(Defaults())
              + ("Invalid data type for key '" + "Server" + "'. Expected: '" + "string" + "', actual: '"
                 + "<unsupported>" + "'. Falling back to default value " + "pool.ntp.org" + "\n"))
  {
    var k := Key(["Server"], map["Server" := OtherValue(Unknown)], map[]);
    FixtureLeaf(["Server"], map["Server" := OtherValue(Unknown)], Defaults());
    SingleNameWalk(Defaults(), k, "Server");
    assert GetValueKind(k, "Server") == Other(Unknown);
    MismatchedKindKeeps(Defaults(), k, "Server", "");
    var m := InvalidKind("Server", String, Other(Unknown), DefaultNTPServer);
    assert "" + m == m;
    UnsupportedServerText();
  }

  /** The diagnostic for an unsupported kind under "Server", with the default server as the current value. */
  lemma UnsupportedServerText()
    ensures InvalidKind("Server", String, Other(Unknown), DefaultNTPServer)
         == "Invalid data type for key '" + "Server" + "'. Expected: '" + "string" + "', actual: '"
            + "<unsupported>" + "'. Falling back to default value " + "pool.ntp.org" + "\n"
  {
  }

  /** A root without the SYSTEM key keeps the defaults and writes the fallback entry. */
  lemma MissingRootKeyLogged()
    ensures LoadOutcome(Key([], map[], map[]), "Missing", Defaults())
         == Loaded(Defaults(), MissingEntry(Defaults()))
    ensures MissingEntry(Defaults())
         == "No settings found in registry, using default values:\nServer: " + "pool.ntp.org"
            + "\nPort: " + "123" + "\nPollIntervalHours: " + "6"
  {
    DefaultFieldTexts();
    assert IntToString(123) == "123" && IntToString(6) == "6";
  }
}
