# S3LightFixes, modelled in Dafny

S3LightFixes reads an OpenMW load order. Then it builds one extra plugin,
`S3LightFixes.omwaddon`. That plugin overrides light records and the
atmosphere of interior cells. Each id is taken once, from the plugin loaded
last; excluded ids are skipped, and a cell is only overridden when something
in its atmosphere was replaced. The lights get new colours, radii and
durations, and flickering or pulsing can be switched off. Interior cells can
have their sunlight darkened and their ambient, sunlight and fog colours
replaced.

This project models:

- how the configuration is built (`LightConfig::get`): defaults, the TOML
  file, the command line and the environment;
- the parsers for the light-override syntax (`key=value,...`) and the light
  flag names;
- the plugin exclusion and eligibility tests;
- the transformation of one light (`process_light`);
- the atmosphere rewrite of one cell;
- the merge loop in `main` that collects the fixed objects, keeps only the
  first record for each id, and builds the plugin header.

Inputs the program reads from outside are parameters of the model:

- the regular-expression engine: which patterns compile, and what a pattern
  matches;
- the palette's RGB⇄HSV conversion, as a `ColorModel`;
- the virtual file system's path lookup;
- file metadata;
- the plugin parser;
- the configuration file as read;
- the environment flags;
- the test for whether a directory exists.

Module layout, one file each:

| module | file | models |
|---|---|---|
| `Wrappers` | wrappers.dfy | `Option` and `Result` |
| `Numbers` | numbers.dfy | Rust's saturating `f32 as u32` and `f32 as i32` casts, `clamp`, and decimal `u32` parsing |
| `Text` | text.dfy | ASCII lower-casing, `trim`, `split` and `split_once` |
| `Paths` | paths.dfy | `Path::file_name`, `extension` and `display` |
| `Patterns` | patterns.dfy | compiled regular expressions, as an abstract engine |
| `Palette` | palette.dfy | HSV and RGB colours and `into_positive_degrees` |
| `Defaults` | defaults.dfy | src/default.rs |
| `Records` | records.dfy | the light and cell records used from the plugin library |
| `Overrides` | light_override.dfy | src/light_override.rs |
| `Config` | light_config.dfy | src/light_config.rs |
| `Lib` | lib.dfy | the exclusion and eligibility functions of src/lib.rs |
| `LightFix` | light_fix.dfy | `light_to_hsv` and `process_light` of src/main.rs; a light is a `class` that `ProcessLight` updates in place |
| `CellFix` | cell_fix.dfy | the atmosphere rewrite inside `main` |
| `Fixer` | fixer.dfy | the plugin loading and the merge loop of `main` |

Each imperative piece of the source is written as a method. Each method is
proved equal to a specification function, and the lemmas state their
properties about that function:

- the loops of `overwrite_if_some`, of `extend` on the ordered maps, and of
  the pattern compilation;
- the loop that picks the first matching light override;
- `process_light` itself;
- the ambient loop;
- the merge loop.

## Model

| member | source | states |
|---|---|---|
| Overrides.ParseLightFlag | src/light_override.rs:287-299 | A rejected flag name is reported as `UnknownVariant` carrying the text given |
| Overrides.ParseLightFlagSpec | src/light_override.rs:290-299 | A flag name is accepted exactly when its lower-cased text is one of the five flag words, whatever its case, and the flag parsed has that word as its name |
| Overrides.ToEspFlag | src/light_override.rs:276-284 | `FLICKER`, `FLICKERSLOW`, `PULSE` and `PULSESLOW` each become exactly their own record bit, and each bit comes only from its own flag; `NONE` becomes the empty set |
| Overrides.ToEspFlagInjective | src/light_override.rs:276-284 | Distinct override flags become distinct record flag sets |
| Overrides.FieldOf | src/light_override.rs:56-174 | A recognised key is the name of the field it sets |
| Overrides.FieldOfName | src/light_override.rs:56-174 | Every one of the eleven field names is recognised as itself |
| Overrides.WithMult | src/light_override.rs:57-110 | Setting a channel's multiplier stores exactly the parsed number for that channel. Every other channel's multiplier, every fixed value and the flag keep their values |
| Overrides.SetFixed | src/light_override.rs:112-169 | A fixed value fails with `BadNumber` naming the key exactly when its text does not parse (as a `u32` for hue and radius, as a float otherwise). On success it stores the hue clamped to 0..360, the radius as parsed, saturation and value clamped to 0..1, and the duration as parsed. No multiplier and no other fixed value changes |
| Overrides.SetLightField | src/light_override.rs:55-177 | An unknown key is `UnknownField` with the key. A multiplier fails exactly when its text is not a number, with `BadNumber` and the multiplier's label; otherwise it is stored. A fixed value behaves as `SetFixed`. A flag fails exactly when the name is unknown, with `UnknownVariant`; otherwise it is stored. Exclusivity and clamping are never broken |
| Overrides.WithFlag | src/light_override.rs:170-173 | The `flag` key sets the flag and nothing else |
| Overrides.SetLightFieldChannel | src/light_override.rs:55-177 | Setting a key records its channel and keeps every channel already set. A multiplier after its fixed value, or a fixed value after its multiplier, is `ExclusiveFields(existing, rejected)` |
| Overrides.ParsePairs | src/light_override.rs:36-47 | Walks the comma-separated segments in order, skipping blank ones, and stops at the first failure |
| Overrides.SinglePairOverride | src/light_override.rs:36-181 | A string holding one pair `key=value` with a recognised key and no comma in the value gives what setting that one field on an empty override gives |
| Overrides.FromStr | src/light_override.rs:49-181 | The parsed override is the fold over the segments. Any override it returns is exclusive and clamped |
| Overrides.FoldKeepsValid | src/light_override.rs:36-47 | Folding segments into an exclusive, clamped override yields only exclusive, clamped overrides |
| Overrides.FoldPairsAppend | src/light_override.rs:40-46 | Parsing `a` then `b` is parsing `a`, then continuing with `b` from where `a` left off, unless `a` failed |
| Overrides.FirstFailureStops | src/light_override.rs:40-46 | The first segment that fails decides the error, whatever follows it |
| Overrides.FoldRejectsBoth | src/light_override.rs:55-177 | Once one key of a channel is set, any later segment with the other key of that channel makes the parse fail |
| Overrides.FixedAndMultRejected | src/light_override.rs:55-177 | A string that sets both the fixed value and the multiplier of a channel, in either order, is rejected |
| Overrides.ParseLightOverride | src/light_override.rs:183-190 | Text without `=` is `BadPair`. Otherwise the pattern is the text before the first `=` and the override is parsed from the rest; a parsed override is exclusive and clamped |
| Overrides.Deserialize | src/light_override.rs:207-247 | Reading an override from the configuration file succeeds exactly when no channel has both a value and a multiplier. The result is the raw fields with hue, saturation and value clamped. A failure names the offending pair |
| Overrides.DeserializeSerialize | src/light_override.rs:207-263 | Writing an exclusive, clamped override and reading it back gives the same override |
| Overrides.CommandLineOverrideSurvivesSave | src/light_override.rs:207-247 | An override parsed from the command line and saved into the configuration file reads back unchanged |
| Config.DefaultValues | src/light_config.rs:433-464 | The built-in configuration: the documented multipliers, flicker off, pulse on, the seven default excluded plugins in order, no ids, no overrides, no output directory |
| Config.Persisted | src/light_config.rs:163-170 | A configuration read from file has no compiled patterns |
| Config.RaiseOnly | src/light_config.rs:273-304 | A plain command-line switch is a value only when it is on |
| Config.RaiseOnlyIsOr | src/light_config.rs:273-304 | Overwriting a setting with a plain switch is a logical or |
| Config.OverwriteIfSome | src/light_config.rs:184-196 | Each field takes its partner's value when one is given and keeps its own otherwise |
| Config.OverwrittenSpec | src/light_config.rs:184-196 | Position by position, a field is the given value when there is one and unchanged when there is none |
| Config.InsertSpec | src/light_config.rs:342-348 | Inserting into the ordered map keeps keys unique, keeps every old key, maps the new key to the new value, and leaves every other lookup alone |
| Config.InsertAllSpec | src/light_config.rs:342-348 | After extending the ordered map, each key looks up the last value the extension gave it, or its old value if none |
| Config.ExtendOrdered | src/light_config.rs:342-348 | The `extend` loop inserts the entries one by one, in order |
| Config.CompiledMembers | src/light_config.rs:369-384 | A compiled pattern list holds exactly the source patterns that compile |
| Config.CompiledAppend | src/light_config.rs:369-384 | Compiling a concatenation concatenates the compiled lists, so source order is kept |
| Config.CompiledTableMembers | src/light_config.rs:386-402 | A compiled override table holds exactly the source pairs whose pattern compiles, with their values |
| Config.CompiledTableAppend | src/light_config.rs:386-402 | Compiling a concatenated table concatenates the compiled tables |
| Config.CompilePatterns | src/light_config.rs:369-384 | The `for_each` loop over a pattern list produces the compiled list |
| Config.CompileTable | src/light_config.rs:386-402 | The `for_each` loop over an override table produces the compiled table |
| Config.OutputDir | src/light_config.rs:310-332 | It is an error exactly when `--output` names something that is not a directory. Otherwise the command line wins, then the configured directory, then the fallback, so a directory is always chosen |
| Config.OverwriteMultipliers | src/light_config.rs:231-262 | The nine multipliers after the first `overwrite_if_some` |
| Config.OverwriteSwitches | src/light_config.rs:264-308 | The switches after the second `overwrite_if_some`, with the environment flags or-ed in |
| Config.CompileConfig | src/light_config.rs:369-402 | The four compilation loops empty the source lists into the compiled ones |
| Config.Layer | src/light_config.rs:229-357 | The command line laid over the configuration read. The result is an error only when the output directory is missing |
| Config.Get | src/light_config.rs:202-405 | An unreadable file is `ReadFailed` and a malformed file is `MalformedConfig`. Otherwise the result is the layered, compiled configuration. What is saved is the layered configuration before compilation: always on first run, and on request |
| Config.CliScalarsOverwriteOnlyWhenGiven | src/light_config.rs:231-272 | Each of the nine numeric options, and each optional switch, replaces the configured value when given and leaves it alone otherwise |
| Config.CliSwitchesOnlyRaise | src/light_config.rs:273-308 | Logging, auto-enable, no-notifications and debug can only be turned on from the command line or environment |
| Config.CliListsAppended | src/light_config.rs:334-348 | Command-line ids and plugin patterns follow the configured ones. In both the light and the ambient table, a pattern looks up the last command-line override given for it, and otherwise its configured one |
| Config.ClassicOnlyDisablesInteriorSun | src/light_config.rs:355-357 | Classic mode turns interior sunlight off and changes nothing else |
| Config.CompileAllSpec | src/light_config.rs:369-402 | After compilation the source lists are empty. Each compiled list holds exactly the patterns that compile, with plugin patterns lower-cased |
| Config.IsExcludedId | src/light_config.rs:422-430 | An id is excluded exactly when some compiled id pattern matches it |
| Config.IsExcludedPlugin | src/light_config.rs:407-420 | A path without a file name is never excluded. Otherwise it is excluded exactly when a compiled plugin pattern matches the lower-cased file name |
| Config.PluginExclusionIgnoresCase | src/light_config.rs:407-420 | Plugin names that differ only in ASCII case are excluded alike |
| Lib.AnyValidMatch | src/lib.rs:50-58 | True exactly when some listed pattern compiles and matches the text |
| Lib.IsExcludedPlugin | src/lib.rs:44-61 | A path without a file name is not excluded. Otherwise it is excluded exactly when a raw plugin pattern that compiles matches the file name |
| Lib.IsExcludedId | src/lib.rs:63-75 | An id is excluded exactly when a raw id pattern that compiles matches it |
| Lib.ExcludedIdAgreesWithCompiled | src/lib.rs:63-75 | On a configuration with nothing compiled yet, matching the raw id list agrees with matching the compiled one |
| Lib.RawListsEmptyAfterCompilation | src/lib.rs:44-75 | On the configuration `get` returns, the raw-list tests exclude nothing |
| Lib.IsFixablePlugin | src/lib.rs:77-95 | Fixable only when the metadata is readable, the path does not contain the output plugin's name, and the extension is a plugin extension (esp, esm, omwaddon, omwgame) in any case. The three together are enough |
| Lib.OwnOutputNeverFixable | src/lib.rs:82-83 | The generated plugin is never taken as input |
| Lib.ExtensionCaseIgnored | src/lib.rs:87-93 | The extension test ignores ASCII case |
| Lib.UpperCaseMasterFixable | src/lib.rs:87-93 | An upper-case `.ESM` master is fixable |
| Lib.TextFileNotFixable | src/lib.rs:87-93 | A `.txt` file is not fixable |
| Numbers.TruncToU32Spec | src/main.rs:129-135 | `f32 as u32`: 0 at or below zero, the floor in range, `u32::MAX` above |
| Numbers.TruncToI32Spec | src/main.rs:121-127 | `f32 as i32`: truncation toward zero in range, saturating at both ends |
| Numbers.ClampU32 | src/light_override.rs:143 | The result is at most the bound and at most the input, and is one of the two |
| Numbers.ClampUnit | src/light_override.rs:157 | The result lies in 0..1, equals the input there, and is the nearer end outside |
| Numbers.ParseU32OfDecimal | src/light_override.rs:137-143 | Parsing the decimal text of a `u32` gives it back |
| Text.ToAsciiLower | src/main.rs:63 | Same length; upper-case ASCII letters are lowered and every other character is kept |
| Text.TrimSpec | src/light_override.rs:40 | The trimmed text is a slice of the input with no whitespace at either end. It is empty exactly when the input is blank |
| Text.JoinSplit | src/light_override.rs:40 | Splitting on a separator and joining again gives back the text |
| Text.SplitOnce | src/light_override.rs:42-43 | None exactly when the separator is absent. Otherwise the text is the part before, the separator, then the part after, and the first part holds no separator |
| Paths.FileName | src/light_config.rs:408-410 | A file name exists exactly when the last component is a normal one |
| Paths.Extension | src/lib.rs:87-88 | None without a file name. Otherwise none exactly when the name is `..` or has no dot after its first character; else the text after the last dot, which holds no dot |
| Paths.DisplayContainsComponent | src/lib.rs:82-83 | A path's display contains the text of each of its components |
| Palette.PositiveDegrees | src/main.rs:36 | Every hue lands in 0..360, and one already there is unchanged |
| Palette.PositiveDegreesPeriodic | src/main.rs:36 | Whole turns do not change the positive hue |
| LightFix.LightToHsv | src/main.rs:27-39 | The HSV of the record's colour. A light is coloured exactly when its positive hue lies outside 14..64 degrees |
| LightFix.ClassificationSpec | src/main.rs:36-38 | The classification repeats every full turn. 14 and 64 degrees are standard and just outside them is coloured; a negative hue is taken modulo a turn |
| LightFix.StripFlags | src/main.rs:49-61 | Flicker and pulse bits are removed exactly when their switch is on; every other flag is kept |
| LightFix.FirstOverrideSpec | src/main.rs:66-73 | No override exactly when no pattern matches. Otherwise it is the value of the first matching pattern |
| LightFix.ToRgba | src/main.rs:152-153 | The written colour has alpha 0 |
| LightFix.NegativeLightSwitchedOff | src/main.rs:42-47 | A negative light loses its negative flag, gets radius 0 and black colour, and keeps its duration and other flags |
| LightFix.FlagsAfterTransform | src/main.rs:49-139 | A non-negative light gets alpha 0. An override's flag replaces all flags; otherwise the stripped flags stand |
| LightFix.RadiusPrecedence | src/main.rs:84-150 | For a light that is not negative: when the override has a radius multiplier, the radius is that multiplier times the light's radius, cast as `as u32` does, and it does not depend on its fixed radius nor on any configured multiplier. Without the multiplier, a fixed radius is the result. Without either, the radius is what no override gives |
| LightFix.TimePrecedence | src/main.rs:121-127 | For a light that is not negative: when the override has a duration multiplier, the duration is that multiplier times the light's duration, cast as `as i32` does, and it does not depend on its fixed duration nor on the configured multiplier. Without the multiplier, the fixed duration cast as `as i32` is the result. Without either, the duration is what no override gives |
| LightFix.ColorPrecedence | src/main.rs:84-119 | The colour is the converted HSV. For each of hue, saturation and value: a multiplier in the override scales the light's own channel by it and makes the channel independent of the fixed value and of the configured multipliers; without it a fixed value is the result; without either the channel is what no override gives |
| LightFix.NoOverrideScalesByClass | src/main.rs:140-150 | Without a matching override, a light that is not negative has its radius scaled by its class's radius multiplier (coloured or standard) and its duration by the duration multiplier |
| LightFix.NoOverrideColorByClass | src/main.rs:140-153 | Without a matching override, a light that is not negative keeps its stripped flags and has hue, saturation and value scaled by its class's multipliers |
| LightFix.EmptyOverrideIsNoOverride | src/main.rs:92-150 | An override that sets nothing gives exactly what no override gives: the global multipliers and the stripped flags |
| LightFix.TransformIgnoresIdCase | src/main.rs:63-73 | Override lookup ignores ASCII case in the light's id |
| LightFix.Light.constructor | src/main.rs:41 | The light holds the record's id and data |
| LightFix.FindOverride | src/main.rs:66-73 | The loop returns the first matching override |
| LightFix.OverrideHsv | src/main.rs:92-119 | The override's colour channels applied to the light's HSV |
| LightFix.OverrideTime | src/main.rs:121-127 | Only the duration changes, as the override says |
| LightFix.OverrideRadius | src/main.rs:129-135 | Only the radius changes, as the override says |
| LightFix.ScaleByGlobals | src/main.rs:148-149 | Radius and duration are scaled by the global multipliers; nothing else changes |
| LightFix.ProcessLight | src/main.rs:41-154 | The light's new data is the transformation of its old data, with the override looked up by lower-cased id |
| CellFix.HsvColor | src/main.rs:306-316 | An override colour is written with alpha 0 |
| CellFix.UnsetColorKept | src/main.rs:301-353 | A colour that no matching override sets keeps its starting value |
| CellFix.LastMatchWins | src/main.rs:301-353 | When several matching overrides set a colour, the last one decides it |
| CellFix.UnsetDensityKept | src/main.rs:349-352 | A fog density that no matching override sets keeps its starting value |
| CellFix.LastDensityWins | src/main.rs:301-353 | When several matching overrides set the fog density, the last one decides it, stored as given |
| CellFix.ReplacedIff | src/main.rs:293-353 | The cell counts as replaced exactly when the sun was already darkened or some matching override sets something |
| CellFix.InteriorSunDisabled | src/main.rs:295-299 | With interior sun disabled, the sunlight is black unless an override sets it, and the cell counts as replaced |
| CellFix.FixAtmosphere | src/main.rs:293-353 | The loop over the ambient overrides produces the resolved atmosphere and the replaced flag |
| Fixer.LoadOne | src/main.rs:248-267 | A load-order entry gives at most one plugin |
| Fixer.LoadPlugins | src/main.rs:244-268 | At most one plugin per entry |
| Fixer.LoadOneSpec | src/main.rs:248-267 | An entry is kept exactly when it resolves, the path passes `is_fixable_plugin`, and the plugin parses; it is kept with that path and what was parsed |
| Fixer.LoadedPluginsFixable | src/main.rs:244-268 | Every plugin kept is fixable, was parsed from its path, and its path is what some content file resolves to |
| Fixer.LoadPluginsAppend | src/main.rs:244-268 | The plugins come in reverse load order: the last entry is processed first |
| Fixer.CellStepSpec | src/main.rs:274-362 | A cell is added exactly when it is an interior cell with an atmosphere, its id is neither taken nor excluded, and something was replaced. It is added with the new atmosphere, no references and no water height, and its id is taken; otherwise nothing changes |
| Fixer.LightStepSpec | src/main.rs:366-383 | A light is added, transformed, exactly when its id is neither taken nor excluded, and its id is taken; otherwise nothing changes |
| Fixer.AddedCellsOnlyReplaced | src/main.rs:274-362 | Every record a plugin's cell loop adds comes from one of its interior cells whose atmosphere resolution replaced something, and carries the resolved atmosphere |
| Fixer.AppendKeepsGood | src/main.rs:271-403 | Adding an object with a new, admitted key keeps the merge invariant |
| Fixer.CellStepKeepsGood | src/main.rs:274-362 | Processing a cell keeps the merge invariant and only adds to the merge |
| Fixer.LightStepKeepsGood | src/main.rs:366-383 | Processing a light keeps the merge invariant and only adds to the merge |
| Fixer.AddedCellsKeepGood | src/main.rs:274-362 | Processing all cells of a plugin keeps the merge invariant |
| Fixer.AddedLightsKeepGood | src/main.rs:366-383 | Processing all lights of a plugin keeps the merge invariant |
| Fixer.FinishKeepsGood | src/main.rs:385-402 | Closing a plugin keeps the invariant: a plugin that contributed objects becomes a master and its objects are counted |
| Fixer.MergeAllKeepsGood | src/main.rs:271-403 | The whole merge keeps the invariant: keys are distinct and admitted, objects are fixed, and the header counts them |
| Fixer.PluginContributes | src/main.rs:271-402 | A plugin only appends objects, adds their number to the header, and is put first among the masters, with its file name and its size from `metadata`, exactly when it contributed |
| Fixer.FirstProcessedWins | src/main.rs:279-281 | An id already used is never added again by a later plugin |
| Fixer.ErrorEndsMerge | src/main.rs:386 | A metadata or file-name failure ends the merge with that error |
| Fixer.RunSpec | src/main.rs:218-416 | No content files is `NoPlugins` (exit 4), and no loadable plugin is `NoMasters` (exit 2). A generated plugin has distinct, non-excluded, fixed objects, counted in the header, with at least one master |
| Fixer.AddCells | src/main.rs:274-362 | The cell loop computes the cell fold |
| Fixer.AddLights | src/main.rs:366-383 | The light loop fixes each new light in place through `ProcessLight` and computes the light fold |
| Fixer.ProcessPlugin | src/main.rs:271-403 | One iteration of the plugin loop |
| Fixer.Generate | src/main.rs:218-416 | The plugin loop of `main` produces the specified result or error |

## Left out

- I/O is not modelled:
  - finding, reading and writing `lightconfig.toml` (`find`, the TOML
    parser and serialiser);
  - reading `openmw.cfg`;
  - `save_plugin`, which also sorts the plugin;
  - `notification_box`;
  - the log file.
  The model takes the file's contents as a `ConfigFile`, and it reports the
  configuration that would be saved rather than writing it.
- Config.Get: a failed save of the configuration file (serialising it,
  creating the file or writing it, src/light_config.rs:362-366, passed on
  by src/main.rs:212) ends `get` with an I/O error; the model does not
  represent that error.
- `get_config_path`, the `auto_enable` rewrite of `openmw.cfg` and the exit
  codes are not modelled. The exit codes appear only as error constructors.
- `main`'s own output-directory handling (src/main.rs:182-210) is not
  modelled. `LightConfig::get`'s is (`Config.OutputDir`).
- rayon's parallel iterator: `par_iter().rev()` keeps the order, so the
  model loads plugins sequentially in reverse.
- Floating point: `f32` is modelled as `real`, and rounding is not
  modelled.
- The palette crate's RGB⇄HSV conversion and its 8-bit rounding are an
  abstract `ColorModel` parameter. Only hue normalisation is modelled
  exactly.
- The regular-expression engine is an abstract parameter: which patterns
  compile, and what they match.
- `header.num_objects` is a `u32` in the source. The model counts with
  `nat` and does not model overflow past 2^32 - 1 objects.
- Invalid UTF-8 in file names (`to_string_lossy`) and non-ASCII
  lower-casing are not modelled. Ids and names are plain strings.
- Fixer.LoadOne: the file's metadata is consulted twice in the source: in
  `is_fixable_plugin`, and again for the size when the plugin is finished.
  The model uses one metadata function for both, so a file that changes
  between the two calls is not modelled.
- A plugin's cells and lights are modelled as two separate lists, cells
  first, as `main` processes them. Their interleaving in the file and
  record types other than cells and lights are not modelled.
- The `CustomCellAmbient` type is not part of this model's sources. Its
  shape (optional ambient, sunlight and fog colours, each as hue,
  saturation and value, plus an optional fog density) is inferred from how
  src/main.rs:301-353 uses it.
- `OrderedHashMap` comes from a crate outside this model. `extend` is
  modelled as insertion in order: an existing key keeps its place and takes
  the new value; a new key goes at the end.
- `LightArgs` in src/light_args.rs has no ambient-override option, although
  src/light_config.rs:346-348 extends the ambient table from one. The model
  gives `LightArgs` that field, and an empty sequence gives the source's
  behaviour.
- Fixer.Generate: the fixed objects are collected as values (`Object`); the
  in-place mutation of the plugin's own cell objects is not kept. Lights
  are fixed in place through `LightFix.Light`.
- The generated header's constant fields (version, author, description,
  file type) and the final `sort_objects` are not modelled.

Behaviour worth noting:

- Classic mode only disables interior sunlight (src/light_config.rs:355-357).
  Despite the comment at src/light_config.rs:199-201, it does not set a
  standard radius.
- A light whose hue is exactly 14 or 64 degrees counts as standard, because
  the test at src/main.rs:38 is strict.
- Durations are cast with `as i32` and can be negative. A negative
  duration is kept and scaled.
- `is_excluded_plugin` and `is_excluded_id` in src/lib.rs read the raw
  pattern lists. `LightConfig::get` empties those lists when it compiles
  them, and `main` uses the compiled methods of `LightConfig`. So on the
  configuration `get` returns, the src/lib.rs functions exclude nothing
  (`Lib.RawListsEmptyAfterCompilation`).
