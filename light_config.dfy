/** `LightConfig` (src/light_config.rs): the persisted settings, the layering
    of command-line values and environment flags over them in
    `LightConfig::get`, the compilation of the pattern lists, and the two
    exclusion queries. */
module Config {
  import opened Wrappers
  import opened Text
  import opened Paths
  import opened Patterns
  import opened Overrides
  import Defaults

  /** `OrderedHashMap<String, V>`: entries in insertion order. */
  type OrderedMap<V> = seq<(string, V)>

  /** The nine multipliers: hue, saturation, value and radius for standard
      and for coloured lights, and the duration multiplier. */
  datatype Multipliers = Multipliers(
    standardHue: real, standardSaturation: real, standardValue: real, standardRadius: real,
    coloredHue: real, coloredSaturation: real, coloredValue: real, coloredRadius: real,
    durationMult: real)

  /** The boolean settings. */
  datatype Switches = Switches(
    disableInteriorSun: bool, disableFlickering: bool, disablePulse: bool, saveLog: bool,
    autoEnable: bool, noNotifications: bool, debug: bool, saveConfig: bool)

  /** The compiled forms of the pattern lists; never written to or read from
      the configuration file. */
  datatype CompiledPatterns = CompiledPatterns(
    excludedIdRegexes: seq<Regex>,
    excludedPluginRegexes: seq<Regex>,
    lightRegexes: seq<(Regex, CustomLightData)>,
    ambientRegexes: seq<(Regex, CustomCellAmbient)>)

  const NoneCompiled := CompiledPatterns([], [], [], [])

  /** The fields of `LightConfig`, grouped. */
  datatype LightConfig = LightConfig(
    switches: Switches,
    multipliers: Multipliers,
    excludedPlugins: seq<string>,
    excludedIds: seq<string>,
    lightOverrides: OrderedMap<CustomLightData>,
    ambientOverrides: OrderedMap<CustomCellAmbient>,
    outputDir: Option<Path>,
    compiled: CompiledPatterns)

  /** `LightConfig::default()`. */
  function Default(): LightConfig {
    LightConfig(
      switches := Switches(
        disableInteriorSun := false,
        disableFlickering := Defaults.DisableFlicker(),
        disablePulse := Defaults.DisablePulse(),
        saveLog := Defaults.SaveLog(),
        autoEnable := Defaults.AutoEnable(),
        noNotifications := false,
        debug := false,
        saveConfig := false),
      multipliers := Multipliers(
        standardHue := Defaults.StandardHue(),
        standardSaturation := Defaults.StandardSaturation(),
        standardValue := Defaults.StandardValue(),
        standardRadius := Defaults.StandardRadius(),
        coloredHue := Defaults.ColoredHue(),
        coloredSaturation := Defaults.ColoredSaturation(),
        coloredValue := Defaults.ColoredValue(),
        coloredRadius := Defaults.ColoredRadius(),
        durationMult := Defaults.DurationMult()),
      excludedPlugins := Defaults.ExcludedPlugins(),
      excludedIds := [],
      lightOverrides := [],
      ambientOverrides := [],
      outputDir := None,
      compiled := NoneCompiled)
  }

  /** The built-in configuration: flicker off, pulse, logging and auto-enable
      off, the documented multipliers, seven excluded plugins, nothing
      compiled yet. */
  lemma DefaultValues()
    ensures var s := Default().switches;
      && s.disableFlickering && !s.disablePulse && !s.saveLog && !s.autoEnable
      && !s.disableInteriorSun && !s.noNotifications && !s.debug && !s.saveConfig
    ensures var m := Default().multipliers;
      && m.standardHue == 0.62 && m.standardSaturation == 0.8 && m.standardValue == 0.57
      && m.standardRadius == 1.2
      && m.coloredHue == 1.0 && m.coloredSaturation == 0.9 && m.coloredValue == 0.7
      && m.coloredRadius == 1.1
      && m.durationMult == 2.5
    ensures var d := Default();
      && d.excludedPlugins == ["deleted_groundcover.omwaddon",
                               "Clean_Argonian Full Helms Lore Integrated.ESP",
                               "Baldurwind.omwaddon", "Crassified Navigation.omwaddon",
                               "LuaMultiMark.omwaddon", "S3maphore.esp", "Toolgun.omwaddon"]
      && d.excludedIds == [] && d.lightOverrides == [] && d.ambientOverrides == []
      && d.outputDir.None?
      && Uncompiled(d)
  {
  }

  /** No pattern has been compiled. */
  predicate Uncompiled(c: LightConfig) {
    c.compiled == NoneCompiled
  }

  /** What reading a configuration file yields: the fields it does not carry
      come back at their defaults. */
  function Persisted(c: LightConfig): (r: LightConfig)
    ensures Uncompiled(r)
  {
    c.(compiled := NoneCompiled)
  }

  // ---------------------------------------------------------------------
  // The command line and the environment

  /** The fields of `LightArgs` that `LightConfig::get` reads. */
  datatype LightArgs = LightArgs(
    useClassic: bool,
    output: Option<Path>,
    writeLog: bool,
    autoEnable: bool,
    noNotifications: bool,
    debug: bool,
    disableFlickering: Option<bool>,
    disablePulse: Option<bool>,
    standardHue: Option<real>,
    standardSaturation: Option<real>,
    standardValue: Option<real>,
    standardRadius: Option<real>,
    coloredHue: Option<real>,
    coloredSaturation: Option<real>,
    coloredValue: Option<real>,
    coloredRadius: Option<real>,
    durationMult: Option<real>,
    excludedIds: seq<string>,
    excludedPlugins: seq<string>,
    lightOverrides: seq<(string, CustomLightData)>,
    ambientOverrides: seq<(string, CustomCellAmbient)>,
    updateLightConfig: bool)

  /** Whether `S3L_NO_NOTIFICATIONS` and `S3L_DEBUG` are set. */
  datatype EnvFlags = EnvFlags(noNotifications: bool, debug: bool)

  /** The outcome of looking for and reading the configuration file. */
  datatype ConfigFile =
    | NotFound
    | Unreadable
    | Malformed
    | Parsed(config: LightConfig)

  datatype ConfigError =
    | ReadFailed        // the file exists but cannot be read: an `io::Error`
    | MalformedConfig   // the file does not parse: exit status 256
    | OutputDirMissing  // `--output` names no directory: exit status 1

  /** The resulting configuration, and the one written back, if any. */
  datatype Loaded = Loaded(config: LightConfig, saved: Option<LightConfig>)

  // ---------------------------------------------------------------------
  // overwrite_if_some

  /** A field after `overwrite_if_some`: the given value if any. */
  function Overwrite<T>(field: T, given: Option<T>): T {
    match given
    case Some(v) => v
    case None => field
  }

  /** A command-line switch as an overwrite: only `true` is a value. */
  function RaiseOnly(flag: bool): (r: Option<bool>)
    ensures r.Some? <==> flag
    ensures r.Some? ==> r.value
  {
    if flag then Some(flag) else None
  }

  /** Each field after `overwrite_if_some`. */
  function Overwritten<T>(fields: seq<T>, given: seq<Option<T>>): (r: seq<T>)
    requires |fields| == |given|
  {
    seq(|fields|, i requires 0 <= i < |fields| => Overwrite(fields[i], given[i]))
  }

  /** Overwriting with a raise-only switch is a logical or. */
  lemma RaiseOnlyIsOr(field: bool, flag: bool)
    ensures Overwrite(field, RaiseOnly(flag)) == (field || flag)
  {
  }

  /** `overwrite_if_some`, over the fields as a sequence: each field takes its
      partner's value when there is one and keeps its own otherwise. */
  method OverwriteIfSome<T>(fields: seq<T>, given: seq<Option<T>>) returns (r: seq<T>)
    requires |fields| == |given|
    ensures r == Overwritten(fields, given)
  {
    r := fields;
    var i := 0;
    while i < |given|
      invariant 0 <= i <= |given| && |r| == |fields|
      invariant forall j :: 0 <= j < |r| && (i <= j || given[j].None?) ==> r[j] == fields[j]
      invariant forall j :: 0 <= j < i && given[j].Some? ==> r[j] == given[j].value
    {
      if given[i].Some? {
        r := r[i := given[i].value];
      }
      i := i + 1;
    }
  }

  /** A field the command line leaves out keeps its value; one it gives
      takes the given value. */
  lemma OverwrittenSpec<T>(fields: seq<T>, given: seq<Option<T>>, i: nat)
    requires |fields| == |given| && i < |fields|
    ensures given[i].None? ==> Overwritten(fields, given)[i] == fields[i]
    ensures given[i].Some? ==> Overwritten(fields, given)[i] == given[i].value
  {
  }

  // ---------------------------------------------------------------------
  // The ordered maps

  function Keys<V>(m: OrderedMap<V>): (ks: seq<string>)
    ensures |ks| == |m| && forall i :: 0 <= i < |m| ==> ks[i] == m[i].0
  {
    seq(|m|, i requires 0 <= i < |m| => m[i].0)
  }

  predicate UniqueKeys<V>(m: OrderedMap<V>) {
    forall i, j :: 0 <= i < j < |m| ==> m[i].0 != m[j].0
  }

  /** Where `k` sits in `m`, if it is there. */
  function IndexOfKey<V>(m: OrderedMap<V>, k: string): (r: Option<nat>)
    ensures r.None? <==> forall i :: 0 <= i < |m| ==> m[i].0 != k
    ensures r.Some? ==> r.value < |m| && m[r.value].0 == k
    ensures r.Some? ==> forall i :: 0 <= i < r.value ==> m[i].0 != k
  {
    if m == [] then None
    else if m[0].0 == k then Some(0)
    else match IndexOfKey(m[1..], k)
      case None => None
      case Some(i) => Some(i + 1)
  }

  /** The value stored under `k`. */
  function Lookup<V>(m: OrderedMap<V>, k: string): Option<V> {
    match IndexOfKey(m, k)
    case None => None
    case Some(i) => Some(m[i].1)
  }

  /** `OrderedHashMap::insert`: a new key goes last; an existing key keeps
      its place and takes the new value. */
  function Insert<V>(m: OrderedMap<V>, k: string, v: V): OrderedMap<V> {
    match IndexOfKey(m, k)
    case None => m + [(k, v)]
    case Some(i) => m[i := (k, v)]
  }

  /** `Extend::extend`: the entries inserted in order. */
  function InsertAll<V>(m: OrderedMap<V>, entries: seq<(string, V)>): OrderedMap<V> {
    if entries == [] then m
    else
      var last := entries[|entries| - 1];
      Insert(InsertAll(m, entries[..|entries| - 1]), last.0, last.1)
  }

  /** The value the last entry for `k` carries. */
  function LastFor<V>(entries: seq<(string, V)>, k: string): (r: Option<V>)
    ensures r.Some? ==> (k, r.value) in entries
  {
    if entries == [] then None
    else if entries[|entries| - 1].0 == k then Some(entries[|entries| - 1].1)
    else LastFor(entries[..|entries| - 1], k)
  }

  /** One insertion keeps keys unique, keeps the existing keys where they
      were, stores the new value under `k` and changes no other key. */
  lemma InsertSpec<V>(m: OrderedMap<V>, k: string, v: V)
    requires UniqueKeys(m)
    ensures UniqueKeys(Insert(m, k, v))
    ensures Keys(m) <= Keys(Insert(m, k, v))
    ensures Lookup(Insert(m, k, v), k) == Some(v)
    ensures forall k' :: k' != k ==> Lookup(Insert(m, k, v), k') == Lookup(m, k')
  {
    var r := Insert(m, k, v);
    match IndexOfKey(m, k)
    case None =>
      assert r[|m|].0 == k;
      assert Keys(r) == Keys(m) + [k];
      forall k' | k' != k
        ensures Lookup(r, k') == Lookup(m, k')
      {
        var a := IndexOfKey(m, k');
        var b := IndexOfKey(r, k');
        if a.Some? {
          assert r[a.value] == m[a.value];
        }
        if b.Some? {
          assert b.value < |m|;
          assert m[b.value] == r[b.value];
        }
      }
    case Some(i) =>
      assert Keys(r) == Keys(m);
      forall k' | k' != k
        ensures Lookup(r, k') == Lookup(m, k')
      {
        var a := IndexOfKey(m, k');
        var b := IndexOfKey(r, k');
        if a.Some? {
          assert r[a.value] == m[a.value];
        }
        if b.Some? {
          assert m[b.value] == r[b.value];
        }
      }
  }

  /** Extending an ordered map with entries keeps every persisted key in its
      position, ahead of the new ones; each key then holds the value of its
      last entry, or its persisted value when no entry names it. */
  lemma {:induction false} InsertAllSpec<V>(m: OrderedMap<V>, entries: seq<(string, V)>)
    requires UniqueKeys(m)
    ensures UniqueKeys(InsertAll(m, entries))
    ensures Keys(m) <= Keys(InsertAll(m, entries))
    ensures forall k :: Lookup(InsertAll(m, entries), k) ==
              match LastFor(entries, k)
              case Some(v) => Some(v)
              case None => Lookup(m, k)
  {
    if entries != [] {
      var init := entries[..|entries| - 1];
      var last := entries[|entries| - 1];
      InsertAllSpec(m, init);
      InsertSpec(InsertAll(m, init), last.0, last.1);
    }
  }

  /** `ExtendOrdered`: `extend` on an `OrderedHashMap`, one insertion per
      entry. */
  method ExtendOrdered<V>(m: OrderedMap<V>, entries: seq<(string, V)>) returns (r: OrderedMap<V>)
    ensures r == InsertAll(m, entries)
  {
    r := m;
    var i := 0;
    while i < |entries|
      invariant 0 <= i <= |entries|
      invariant r == InsertAll(m, entries[..i])
    {
      assert entries[..i + 1][..i] == entries[..i];
      r := Insert(r, entries[i].0, entries[i].1);
      i := i + 1;
    }
    assert entries[..i] == entries;
  }

  // ---------------------------------------------------------------------
  // Pattern compilation

  /** The patterns of `ps` that compile, in order. */
  function Compiled(ps: seq<string>, re: RegexEngine): (r: seq<Regex>)
    ensures |r| <= |ps|
  {
    if ps == [] then []
    else
      var last := ps[|ps| - 1];
      Compiled(ps[..|ps| - 1], re) + (if re.compiles(last) then [Regex(last)] else [])
  }

  /** The entries of `entries` whose pattern compiles, in order. */
  function CompiledTable<V>(entries: seq<(string, V)>, re: RegexEngine): (r: seq<(Regex, V)>)
    ensures |r| <= |entries|
  {
    if entries == [] then []
    else
      var last := entries[|entries| - 1];
      CompiledTable(entries[..|entries| - 1], re) + (if re.compiles(last.0) then [(Regex(last.0), last.1)] else [])
  }

  /** A compiled pattern list holds exactly the patterns that compile. */
  lemma {:induction false} CompiledMembers(ps: seq<string>, re: RegexEngine)
    ensures forall x :: x in Compiled(ps, re) <==> x.pattern in ps && re.compiles(x.pattern)
  {
    if ps != [] {
      var init := ps[..|ps| - 1];
      CompiledMembers(init, re);
      assert ps == init + [ps[|ps| - 1]];
    }
  }

  /** Compilation keeps source order: a list compiles piecewise. */
  lemma {:induction false} CompiledAppend(a: seq<string>, b: seq<string>, re: RegexEngine)
    ensures Compiled(a + b, re) == Compiled(a, re) + Compiled(b, re)
  {
    if b == [] {
      assert a + b == a;
    } else {
      var init := b[..|b| - 1];
      CompiledAppend(a, init, re);
      assert (a + b)[..|a + b| - 1] == a + init;
    }
  }

  /** A table compiles to exactly its entries whose pattern compiles. */
  lemma {:induction false} CompiledTableMembers<V>(entries: seq<(string, V)>, re: RegexEngine)
    ensures forall p, v :: (Regex(p), v) in CompiledTable(entries, re) <==> (p, v) in entries && re.compiles(p)
  {
    if entries != [] {
      var init := entries[..|entries| - 1];
      CompiledTableMembers(init, re);
      assert entries == init + [entries[|entries| - 1]];
    }
  }

  /** The table keeps source order: it compiles piecewise. */
  lemma {:induction false} CompiledTableAppend<V>(a: seq<(string, V)>, b: seq<(string, V)>, re: RegexEngine)
    ensures CompiledTable(a + b, re) == CompiledTable(a, re) + CompiledTable(b, re)
  {
    if b == [] {
      assert a + b == a;
    } else {
      var init := b[..|b| - 1];
      CompiledTableAppend(a, init, re);
      assert (a + b)[..|a + b| - 1] == a + init;
    }
  }

  /** Each pattern as `to_ascii_lowercase` leaves it. */
  function LowerAll(ps: seq<string>): (r: seq<string>)
    ensures |r| == |ps| && forall i :: 0 <= i < |ps| ==> r[i] == ToAsciiLower(ps[i])
  {
    seq(|ps|, i requires 0 <= i < |ps| => ToAsciiLower(ps[i]))
  }

  /** One `for_each` pushing the patterns that compile. */
  method CompilePatterns(ps: seq<string>, re: RegexEngine) returns (compiled: seq<Regex>)
    ensures compiled == Compiled(ps, re)
  {
    compiled := [];
    var i := 0;
    while i < |ps|
      invariant 0 <= i <= |ps|
      invariant compiled == Compiled(ps[..i], re)
    {
      assert ps[..i + 1][..i] == ps[..i];
      if re.compiles(ps[i]) {
        compiled := compiled + [Regex(ps[i])];
      }
      i := i + 1;
    }
    assert ps[..i] == ps;
  }

  /** One `for_each` pushing the entries whose pattern compiles. */
  method CompileTable<V>(entries: seq<(string, V)>, re: RegexEngine) returns (compiled: seq<(Regex, V)>)
    ensures compiled == CompiledTable(entries, re)
  {
    compiled := [];
    var i := 0;
    while i < |entries|
      invariant 0 <= i <= |entries|
      invariant compiled == CompiledTable(entries[..i], re)
    {
      assert entries[..i + 1][..i] == entries[..i];
      if re.compiles(entries[i].0) {
        compiled := compiled + [(Regex(entries[i].0), entries[i].1)];
      }
      i := i + 1;
    }
    assert entries[..i] == entries;
  }

  // ---------------------------------------------------------------------
  // LightConfig::get

  /** The configuration `get` starts from. */
  function Base(file: ConfigFile): LightConfig
    requires file.NotFound? || file.Parsed?
  {
    if file.NotFound? then Default() else Persisted(file.config)
  }

  /** Where the output goes, or `OutputDirMissing` when `--output` names no
      directory: the command line first, then the configured directory,
      then the fallback (the `data-local` directory, else the working
      directory). */
  function OutputDir(cli: Option<Path>, configured: Option<Path>, isDir: Path -> bool, fallback: Path)
    : (r: Result<Option<Path>, ConfigError>)
    ensures r.Err? <==> cli.Some? && !isDir(cli.value)
    ensures r.Ok? ==> r.value.Some?
    ensures r.Ok? && cli.Some? ==> r.value == cli
    ensures r.Ok? && cli.None? && configured.Some? ==> r.value == configured
  {
    if cli.Some? then
      if isDir(cli.value) then Ok(cli) else Err(OutputDirMissing)
    else if configured.None? then Ok(Some(fallback))
    else Ok(configured)
  }

  /** The configuration with the command line and environment layered on, as
      it is written back to the file: before any pattern is compiled. */
  function Layered(base: LightConfig, args: LightArgs, env: EnvFlags, outputDir: Option<Path>): LightConfig {
    var s := LayerSwitches(base.switches, args, env);
    LightConfig(
      switches := if args.useClassic then s.(disableInteriorSun := true) else s,
      multipliers := LayerMultipliers(base.multipliers, args),
      excludedPlugins := base.excludedPlugins + args.excludedPlugins,
      excludedIds := base.excludedIds + args.excludedIds,
      lightOverrides := InsertAll(base.lightOverrides, args.lightOverrides),
      ambientOverrides := InsertAll(base.ambientOverrides, args.ambientOverrides),
      outputDir := outputDir,
      compiled := base.compiled)
  }

  /** The multipliers after the first `overwrite_if_some`. */
  function LayerMultipliers(m: Multipliers, args: LightArgs): Multipliers {
    Multipliers(
      standardHue := Overwrite(m.standardHue, args.standardHue),
      standardSaturation := Overwrite(m.standardSaturation, args.standardSaturation),
      standardValue := Overwrite(m.standardValue, args.standardValue),
      standardRadius := Overwrite(m.standardRadius, args.standardRadius),
      coloredHue := Overwrite(m.coloredHue, args.coloredHue),
      coloredSaturation := Overwrite(m.coloredSaturation, args.coloredSaturation),
      coloredValue := Overwrite(m.coloredValue, args.coloredValue),
      coloredRadius := Overwrite(m.coloredRadius, args.coloredRadius),
      durationMult := Overwrite(m.durationMult, args.durationMult))
  }

  /** The switches after the second `overwrite_if_some` and the environment
      flags. */
  function LayerSwitches(s: Switches, args: LightArgs, env: EnvFlags): Switches {
    Switches(
      disableInteriorSun := s.disableInteriorSun,
      disableFlickering := Overwrite(s.disableFlickering, args.disableFlickering),
      disablePulse := Overwrite(s.disablePulse, args.disablePulse),
      saveLog := Overwrite(s.saveLog, RaiseOnly(args.writeLog)),
      autoEnable := Overwrite(s.autoEnable, RaiseOnly(args.autoEnable)),
      noNotifications := Overwrite(s.noNotifications, RaiseOnly(args.noNotifications)) || env.noNotifications,
      debug := Overwrite(s.debug, RaiseOnly(args.debug)) || env.debug,
      saveConfig := s.saveConfig)
  }

  /** The pattern lists moved into their compiled forms; plugin patterns
      are lower-cased first. */
  function CompileAll(c: LightConfig, re: RegexEngine): LightConfig {
    c.(
      excludedIds := [],
      excludedPlugins := [],
      lightOverrides := [],
      ambientOverrides := [],
      compiled := CompiledPatterns(
        c.compiled.excludedIdRegexes + Compiled(c.excludedIds, re),
        c.compiled.excludedPluginRegexes + Compiled(LowerAll(c.excludedPlugins), re),
        c.compiled.lightRegexes + CompiledTable(c.lightOverrides, re),
        c.compiled.ambientRegexes + CompiledTable(c.ambientOverrides, re)))
  }

  /** Whether the configuration is written back. */
  predicate SaveRequested(file: ConfigFile, base: LightConfig, args: LightArgs) {
    file.NotFound? || base.switches.saveConfig || args.updateLightConfig
  }

  /** The first `overwrite_if_some` call: the nine multipliers. */
  method OverwriteMultipliers(m: Multipliers, args: LightArgs) returns (r: Multipliers)
    ensures r == LayerMultipliers(m, args)
  {
    var scalars := OverwriteIfSome(
      [m.standardHue, m.standardSaturation, m.standardValue, m.standardRadius,
       m.coloredHue, m.coloredSaturation, m.coloredValue, m.coloredRadius, m.durationMult],
      [args.standardHue, args.standardSaturation, args.standardValue, args.standardRadius,
       args.coloredHue, args.coloredSaturation, args.coloredValue, args.coloredRadius, args.durationMult]);
    r := Multipliers(
      scalars[0], scalars[1], scalars[2], scalars[3], scalars[4], scalars[5], scalars[6], scalars[7], scalars[8]);
  }

  /** The second `overwrite_if_some` call, then the environment flags. */
  method OverwriteSwitches(s: Switches, args: LightArgs, env: EnvFlags) returns (r: Switches)
    ensures r == LayerSwitches(s, args, env)
  {
    var fields := [s.disablePulse, s.disableFlickering, s.saveLog, s.autoEnable, s.noNotifications, s.debug];
    var given := [args.disablePulse, args.disableFlickering, RaiseOnly(args.writeLog), RaiseOnly(args.autoEnable),
                  RaiseOnly(args.noNotifications), RaiseOnly(args.debug)];
    var switches := OverwriteIfSome(fields, given);
    assert switches[0] == Overwrite(s.disablePulse, args.disablePulse);
    assert switches[1] == Overwrite(s.disableFlickering, args.disableFlickering);
    assert switches[2] == Overwrite(s.saveLog, RaiseOnly(args.writeLog));
    assert switches[3] == Overwrite(s.autoEnable, RaiseOnly(args.autoEnable));
    assert switches[4] == Overwrite(s.noNotifications, RaiseOnly(args.noNotifications));
    assert switches[5] == Overwrite(s.debug, RaiseOnly(args.debug));
    r := Switches(
      disableInteriorSun := s.disableInteriorSun,
      disableFlickering := switches[1],
      disablePulse := switches[0],
      saveLog := switches[2],
      autoEnable := switches[3],
      noNotifications := switches[4] || env.noNotifications,
      debug := switches[5] || env.debug,
      saveConfig := s.saveConfig);
  }

  /** The four `for_each` loops that move the pattern lists into their
      compiled forms. */
  method CompileConfig(cfg: LightConfig, re: RegexEngine) returns (r: LightConfig)
    ensures r == CompileAll(cfg, re)
  {
    var c := cfg.compiled;
    var ids := CompilePatterns(cfg.excludedIds, re);
    c := c.(excludedIdRegexes := c.excludedIdRegexes + ids);
    var plugins := CompilePatterns(LowerAll(cfg.excludedPlugins), re);
    c := c.(excludedPluginRegexes := c.excludedPluginRegexes + plugins);
    var lightTable := CompileTable(cfg.lightOverrides, re);
    c := c.(lightRegexes := c.lightRegexes + lightTable);
    var ambientTable := CompileTable(cfg.ambientOverrides, re);
    c := c.(ambientRegexes := c.ambientRegexes + ambientTable);
    r := cfg.(excludedIds := [], excludedPlugins := [], lightOverrides := [], ambientOverrides := [], compiled := c);
  }

  /** The command line and the environment laid over the configuration
      read, up to the point where it would be saved. */
  method Layer(base: LightConfig, args: LightArgs, env: EnvFlags, isDir: Path -> bool, fallbackDir: Path)
    returns (r: Result<LightConfig, ConfigError>)
    ensures match OutputDir(args.output, base.outputDir, isDir, fallbackDir)
      case Err(e) => r == Err(e)
      case Ok(dir) => r == Ok(Layered(base, args, env, dir))
  {
    var m := OverwriteMultipliers(base.multipliers, args);
    var s := OverwriteSwitches(base.switches, args, env);

    var dir := base.outputDir;
    if args.output.Some? {
      if isDir(args.output.value) {
        dir := args.output;
      } else {
        return Err(OutputDirMissing);
      }
    } else if dir.None? {
      dir := Some(fallbackDir);
    }

    var lights := ExtendOrdered(base.lightOverrides, args.lightOverrides);
    var ambients := ExtendOrdered(base.ambientOverrides, args.ambientOverrides);

    if args.useClassic {
      s := s.(disableInteriorSun := true);
    }

    return Ok(LightConfig(
      switches := s,
      multipliers := m,
      excludedPlugins := base.excludedPlugins + args.excludedPlugins,
      excludedIds := base.excludedIds + args.excludedIds,
      lightOverrides := lights,
      ambientOverrides := ambients,
      outputDir := dir,
      compiled := base.compiled));
  }

  /** `LightConfig::get`. Finding and reading the file, the directory test,
      the fallback directory and the environment are inputs; writing the
      file back is reported as the configuration it would hold. */
  method Get(args: LightArgs, file: ConfigFile, env: EnvFlags, isDir: Path -> bool, fallbackDir: Path, re: RegexEngine)
    returns (r: Result<Loaded, ConfigError>)
    ensures file.Unreadable? ==> r == Err(ReadFailed)
    ensures file.Malformed? ==> r == Err(MalformedConfig)
    ensures file.NotFound? || file.Parsed? ==>
      var base := Base(file);
      match OutputDir(args.output, base.outputDir, isDir, fallbackDir)
      case Err(e) => r == Err(e)
      case Ok(dir) =>
        var layered := Layered(base, args, env, dir);
        && r.Ok?
        && r.value.config == CompileAll(layered, re)
        && r.value.saved == (if SaveRequested(file, base, args) then Some(layered) else None)
  {
    var writeConfig := false;
    var base: LightConfig;
    match file {
      case Unreadable => return Err(ReadFailed);
      case Malformed => return Err(MalformedConfig);
      case NotFound =>
        writeConfig := true;
        base := Default();
      case Parsed(c) =>
        base := Persisted(c);
    }

    var layered := Layer(base, args, env, isDir, fallbackDir);
    if layered.Err? {
      return Err(layered.error);
    }
    var cfg := layered.value;

    var saved := None;
    if writeConfig || cfg.switches.saveConfig || args.updateLightConfig {
      saved := Some(cfg);
    }

    cfg := CompileConfig(cfg, re);
    return Ok(Loaded(cfg, saved));
  }

  // ---------------------------------------------------------------------
  // What the layering promises

  /** Each numeric command-line value replaces the configured one when it is
      given, and the configured value stands when it is not; the two
      optional switches behave the same way. */
  lemma CliScalarsOverwriteOnlyWhenGiven(base: LightConfig, args: LightArgs, env: EnvFlags, dir: Option<Path>)
    ensures var l := Layered(base, args, env, dir).multipliers;
      && (args.standardHue.None? ==> l.standardHue == base.multipliers.standardHue)
      && (args.standardHue.Some? ==> l.standardHue == args.standardHue.value)
      && (args.standardSaturation.None? ==> l.standardSaturation == base.multipliers.standardSaturation)
      && (args.standardSaturation.Some? ==> l.standardSaturation == args.standardSaturation.value)
      && (args.standardValue.None? ==> l.standardValue == base.multipliers.standardValue)
      && (args.standardValue.Some? ==> l.standardValue == args.standardValue.value)
      && (args.coloredHue.None? ==> l.coloredHue == base.multipliers.coloredHue)
      && (args.coloredHue.Some? ==> l.coloredHue == args.coloredHue.value)
      && (args.coloredSaturation.None? ==> l.coloredSaturation == base.multipliers.coloredSaturation)
      && (args.coloredSaturation.Some? ==> l.coloredSaturation == args.coloredSaturation.value)
      && (args.coloredValue.None? ==> l.coloredValue == base.multipliers.coloredValue)
      && (args.coloredValue.Some? ==> l.coloredValue == args.coloredValue.value)
      && (args.standardRadius.None? ==> l.standardRadius == base.multipliers.standardRadius)
      && (args.standardRadius.Some? ==> l.standardRadius == args.standardRadius.value)
      && (args.coloredRadius.None? ==> l.coloredRadius == base.multipliers.coloredRadius)
      && (args.coloredRadius.Some? ==> l.coloredRadius == args.coloredRadius.value)
      && (args.durationMult.None? ==> l.durationMult == base.multipliers.durationMult)
      && (args.durationMult.Some? ==> l.durationMult == args.durationMult.value)
    ensures var l := Layered(base, args, env, dir).switches;
      && (args.disablePulse.None? ==> l.disablePulse == base.switches.disablePulse)
      && (args.disablePulse.Some? ==> l.disablePulse == args.disablePulse.value)
      && (args.disableFlickering.None? ==> l.disableFlickering == base.switches.disableFlickering)
      && (args.disableFlickering.Some? ==> l.disableFlickering == args.disableFlickering.value)
  {
  }

  /** The plain command-line switches can turn a setting on but never off,
      and the environment flags are or-ed in. */
  lemma CliSwitchesOnlyRaise(base: LightConfig, args: LightArgs, env: EnvFlags, dir: Option<Path>)
    ensures var l := Layered(base, args, env, dir).switches;
      && l.saveLog == (base.switches.saveLog || args.writeLog)
      && l.autoEnable == (base.switches.autoEnable || args.autoEnable)
      && l.noNotifications == (base.switches.noNotifications || args.noNotifications || env.noNotifications)
      && l.debug == (base.switches.debug || args.debug || env.debug)
  {
    var s := base.switches;
    var layered := LayerSwitches(s, args, env);
    assert Layered(base, args, env, dir).switches
        == if args.useClassic then layered.(disableInteriorSun := true) else layered;
    RaiseOnlyIsOr(s.saveLog, args.writeLog);
    RaiseOnlyIsOr(s.autoEnable, args.autoEnable);
    RaiseOnlyIsOr(s.noNotifications, args.noNotifications);
    RaiseOnlyIsOr(s.debug, args.debug);
  }

  /** The command-line lists come after the persisted ones and replace none
      of them; a command-line override for a pattern already configured
      takes its place and its value. */
  lemma CliListsAppended(base: LightConfig, args: LightArgs, env: EnvFlags, dir: Option<Path>)
    requires UniqueKeys(base.lightOverrides) && UniqueKeys(base.ambientOverrides)
    ensures var l := Layered(base, args, env, dir);
      && l.excludedIds[..|base.excludedIds|] == base.excludedIds
      && l.excludedIds[|base.excludedIds|..] == args.excludedIds
      && l.excludedPlugins[..|base.excludedPlugins|] == base.excludedPlugins
      && l.excludedPlugins[|base.excludedPlugins|..] == args.excludedPlugins
      && Keys(base.lightOverrides) <= Keys(l.lightOverrides)
      && Keys(base.ambientOverrides) <= Keys(l.ambientOverrides)
      && UniqueKeys(l.lightOverrides) && UniqueKeys(l.ambientOverrides)
      && (forall k :: Lookup(l.lightOverrides, k) ==
            match LastFor(args.lightOverrides, k)
            case Some(v) => Some(v)
            case None => Lookup(base.lightOverrides, k))
      && (forall k :: Lookup(l.ambientOverrides, k) ==
            match LastFor(args.ambientOverrides, k)
            case Some(v) => Some(v)
            case None => Lookup(base.ambientOverrides, k))
  {
    InsertAllSpec(base.lightOverrides, args.lightOverrides);
    InsertAllSpec(base.ambientOverrides, args.ambientOverrides);
  }

  /** Classic mode turns interior sunlight off and changes nothing else. */
  lemma ClassicOnlyDisablesInteriorSun(base: LightConfig, args: LightArgs, env: EnvFlags, dir: Option<Path>)
    ensures var off := Layered(base, args.(useClassic := false), env, dir);
            Layered(base, args.(useClassic := true), env, dir) == off.(switches := off.switches.(disableInteriorSun := true))
  {
  }

  /** After compilation the source lists are empty and each compiled list holds
      exactly the patterns that compile (plugin patterns lower-cased), with
      their source order kept. */
  lemma CompileAllSpec(c: LightConfig, re: RegexEngine)
    requires Uncompiled(c)
    ensures var k := CompileAll(c, re);
      && k.excludedIds == [] && k.excludedPlugins == [] && k.lightOverrides == [] && k.ambientOverrides == []
      && (forall x :: x in k.compiled.excludedIdRegexes <==> x.pattern in c.excludedIds && re.compiles(x.pattern))
      && (forall x :: x in k.compiled.excludedPluginRegexes <==> x.pattern in LowerAll(c.excludedPlugins) && re.compiles(x.pattern))
      && (forall p, v :: (Regex(p), v) in k.compiled.lightRegexes <==> (p, v) in c.lightOverrides && re.compiles(p))
      && (forall p, v :: (Regex(p), v) in k.compiled.ambientRegexes <==> (p, v) in c.ambientOverrides && re.compiles(p))
  {
    CompiledMembers(c.excludedIds, re);
    CompiledMembers(LowerAll(c.excludedPlugins), re);
    CompiledTableMembers(c.lightOverrides, re);
    CompiledTableMembers(c.ambientOverrides, re);
  }

  // ---------------------------------------------------------------------
  // The exclusion queries

  /** Some pattern of `rs` matches `text`. */
  predicate AnyMatches(re: RegexEngine, rs: seq<Regex>, text: string) {
    exists i :: 0 <= i < |rs| && Matches(re, rs[i], text)
  }

  /** `LightConfig::is_excluded_id`: a compiled id pattern matches. */
  method IsExcludedId(cfg: LightConfig, re: RegexEngine, recordId: string) returns (r: bool)
    ensures r <==> AnyMatches(re, cfg.compiled.excludedIdRegexes, recordId)
  {
    var i := 0;
    while i < |cfg.compiled.excludedIdRegexes|
      invariant 0 <= i <= |cfg.compiled.excludedIdRegexes|
      invariant forall j :: 0 <= j < i ==> !Matches(re, cfg.compiled.excludedIdRegexes[j], recordId)
    {
      if Matches(re, cfg.compiled.excludedIdRegexes[i], recordId) {
        return true;
      }
      i := i + 1;
    }
    return false;
  }

  /** `LightConfig::is_excluded_plugin`: false without a file name, otherwise
      whether a compiled plugin pattern matches the lower-cased file name. */
  method IsExcludedPlugin(cfg: LightConfig, re: RegexEngine, pluginPath: Path) returns (r: bool)
    ensures FileName(pluginPath).None? ==> !r
    ensures FileName(pluginPath).Some? ==>
              (r <==> AnyMatches(re, cfg.compiled.excludedPluginRegexes, ToAsciiLower(FileName(pluginPath).value)))
  {
    var name := FileName(pluginPath);
    if name.None? {
      return false;
    }
    var fileName := ToAsciiLower(name.value);
    var i := 0;
    while i < |cfg.compiled.excludedPluginRegexes|
      invariant 0 <= i <= |cfg.compiled.excludedPluginRegexes|
      invariant forall j :: 0 <= j < i ==> !Matches(re, cfg.compiled.excludedPluginRegexes[j], fileName)
    {
      if Matches(re, cfg.compiled.excludedPluginRegexes[i], fileName) {
        return true;
      }
      i := i + 1;
    }
    return false;
  }

  /** Plugin exclusion ignores ASCII case in the file name: since the
      compiled plugin patterns see only lower-cased names, two names that
      differ in case alone are excluded alike. */
  lemma PluginExclusionIgnoresCase(cfg: LightConfig, re: RegexEngine, name: string)
    ensures AnyMatches(re, cfg.compiled.excludedPluginRegexes, ToAsciiLower(ToAsciiLower(name)))
            == AnyMatches(re, cfg.compiled.excludedPluginRegexes, ToAsciiLower(name))
  {
    ToAsciiLowerIdempotent(name);
  }
}
