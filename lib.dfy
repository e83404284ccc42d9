/** The free-standing helpers of src/lib.rs that decide which plugins the
    fixer reads: the fixable-plugin test and the exclusion tests that
    compile each pattern as they go. */
module Lib {
  import opened Wrappers
  import opened Text
  import opened Paths
  import opened Patterns
  import Config

  /** The name of the plugin the fixer writes. */
  const PLUGIN_NAME: string := "S3LightFixes.omwaddon"

  const DEFAULT_CONFIG_NAME: string := "lightconfig.toml"

  /** The extensions of the plugin formats the fixer reads, lower-case. */
  const FixableExtensions: set<string> := {"esp", "esm", "omwaddon", "omwgame"}

  /** Whether some pattern of `patterns` compiles and matches `text`, trying
      them in order and stopping at the first match. */
  function AnyValidMatch(re: RegexEngine, patterns: seq<string>, text: string): (r: bool)
    ensures r <==> exists i :: 0 <= i < |patterns| && re.compiles(patterns[i]) && re.isMatch(patterns[i], text)
  {
    if patterns == [] then false
    else if re.compiles(patterns[0]) && re.isMatch(patterns[0], text) then true
    else
      var rest := AnyValidMatch(re, patterns[1..], text);
      assert forall i :: 1 <= i < |patterns| ==> patterns[i] == patterns[1..][i - 1];
      rest
  }

  /** `is_excluded_plugin` of src/lib.rs: false without a file name, otherwise
      whether a configured plugin pattern that compiles matches the file name
      as written (no case folding here). */
  function IsExcludedPlugin(pluginPath: Path, cfg: Config.LightConfig, re: RegexEngine): (r: bool)
    ensures FileName(pluginPath).None? ==> !r
    ensures FileName(pluginPath).Some? ==>
      (r <==> exists i :: 0 <= i < |cfg.excludedPlugins|
                 && re.compiles(cfg.excludedPlugins[i])
                 && re.isMatch(cfg.excludedPlugins[i], FileName(pluginPath).value))
  {
    match FileName(pluginPath)
    case None => false
    case Some(name) => AnyValidMatch(re, cfg.excludedPlugins, name)
  }

  /** `is_excluded_id` of src/lib.rs: whether a configured id pattern that
      compiles matches the id. */
  function IsExcludedId(recordId: string, cfg: Config.LightConfig, re: RegexEngine): (r: bool)
    ensures r <==> exists i :: 0 <= i < |cfg.excludedIds|
                    && re.compiles(cfg.excludedIds[i]) && re.isMatch(cfg.excludedIds[i], recordId)
  {
    AnyValidMatch(re, cfg.excludedIds, recordId)
  }

  /** The two ways of asking agree: compiling the raw id patterns on the fly
      gives the same answer as matching the list compiled in advance. */
  lemma ExcludedIdAgreesWithCompiled(recordId: string, cfg: Config.LightConfig, re: RegexEngine)
    ensures IsExcludedId(recordId, cfg, re) <==>
            Config.AnyMatches(re, Config.Compiled(cfg.excludedIds, re), recordId)
  {
    var compiled := Config.Compiled(cfg.excludedIds, re);
    Config.CompiledMembers(cfg.excludedIds, re);
    if IsExcludedId(recordId, cfg, re) {
      var i :| 0 <= i < |cfg.excludedIds| && re.compiles(cfg.excludedIds[i]) && re.isMatch(cfg.excludedIds[i], recordId);
      var x := Regex(cfg.excludedIds[i]);
      assert x in compiled;
      var j :| 0 <= j < |compiled| && compiled[j] == x;
      assert Matches(re, compiled[j], recordId);
    }
    if Config.AnyMatches(re, compiled, recordId) {
      var j :| 0 <= j < |compiled| && Matches(re, compiled[j], recordId);
      assert compiled[j] in compiled;
      var i :| 0 <= i < |cfg.excludedIds| && cfg.excludedIds[i] == compiled[j].pattern;
    }
  }

  /** A configuration `LightConfig::get` returns has handed its raw pattern
      lists over to the compiled ones, so these on-the-fly tests exclude
      nothing for it. */
  lemma RawListsEmptyAfterCompilation(c: Config.LightConfig, re: RegexEngine, recordId: string, pluginPath: Path)
    ensures !IsExcludedId(recordId, Config.CompileAll(c, re), re)
    ensures !IsExcludedPlugin(pluginPath, Config.CompileAll(c, re), re)
  {
  }

  /** The case-folded extension is one the fixer reads. */
  predicate FixableExtension(ext: string) {
    ToAsciiLower(ext) in FixableExtensions
  }

  /** `is_fixable_plugin`: the path must exist (`metadataOk`), must not be the
      fixer's own output, and must carry a plugin extension, in any case. */
  function IsFixablePlugin(path: Path, metadataOk: bool): (r: bool)
    ensures r ==> metadataOk
    ensures r ==> !Contains(Display(path), PLUGIN_NAME)
    ensures r ==> Extension(path).Some? && FixableExtension(Extension(path).value)
    ensures (metadataOk && !Contains(Display(path), PLUGIN_NAME) && Extension(path).Some?
             && FixableExtension(Extension(path).value)) ==> r
  {
    if !metadataOk then false
    else if Contains(Display(path), PLUGIN_NAME) then false
    else match Extension(path)
      case None => false
      case Some(ext) => ToAsciiLower(ext) in FixableExtensions
  }

  /** The plugin the fixer writes, wherever it is written, is never read back
      as input. */
  lemma OwnOutputNeverFixable(dir: seq<Component>, metadataOk: bool)
    ensures !IsFixablePlugin(Path(dir + [Normal(PLUGIN_NAME)]), metadataOk)
  {
    var cs := dir + [Normal(PLUGIN_NAME)];
    DisplayContainsComponent(cs, |cs| - 1);
  }

  /** The extension test ignores ASCII case: "MOD.ESP" and "mod.esp" are read
      alike, as are "x.OmwAddon" and "x.omwaddon". */
  lemma ExtensionCaseIgnored(ext: string)
    ensures FixableExtension(ext) == FixableExtension(ToAsciiLower(ext))
  {
    ToAsciiLowerIdempotent(ext);
  }

  /** A path shorter than the plugin name cannot contain it. */
  lemma NameNotContained(p: Path)
    requires |Display(p)| < |PLUGIN_NAME|
    ensures !Contains(Display(p), PLUGIN_NAME)
  {
  }

  /** Concretely: an upper-case ".ESM" plugin is fixable. */
  lemma UpperCaseMasterFixable()
    ensures IsFixablePlugin(Path([Normal("Tamriel.ESM")]), true)
  {
    var p := Path([Normal("Tamriel.ESM")]);
    assert LastIndexOf("Tamriel.ESM", '.') == Some(7);
    assert ExtensionOf("Tamriel.ESM") == Some("ESM");
    assert ToAsciiLower("ESM") == "esm";
    NameNotContained(p);
  }

  /** Concretely: a ".txt" file is not fixable. */
  lemma TextFileNotFixable()
    ensures !IsFixablePlugin(Path([Normal("readme.txt")]), true)
  {
    assert LastIndexOf("readme.txt", '.') == Some(6);
    assert ExtensionOf("readme.txt") == Some("txt");
    assert ToAsciiLower("txt") == "txt";
    assert "txt" !in FixableExtensions;
  }
}
