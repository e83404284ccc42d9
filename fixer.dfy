/** The merge loop of `main` in src/main.rs: the content files are loaded in
    reverse order, each fixable plugin's interior cells and lights are fixed
    and appended to one generated plugin, an id taken once is never taken
    again, and every plugin that contributed records becomes a master of the
    generated plugin. */
module Fixer {
  import opened Wrappers
  import opened Text
  import opened Paths
  import opened Patterns
  import opened Palette
  import opened Records
  import opened Config
  import opened LightFix
  import opened CellFix
  import Lib

  // ---------------------------------------------------------------------
  // Data

  /** A record of the generated plugin. */
  datatype Object = CellObject(cell: Cell) | LightObject(light: LightRecord)

  /** The lower-cased editor id of a record: the key of `used_ids`. */
  function Key(o: Object): string {
    match o
    case CellObject(c) => ToAsciiLower(c.id)
    case LightObject(l) => ToAsciiLower(l.id)
  }

  /** A master entry of the header: file name and size in bytes. */
  datatype Master = Master(name: string, size: nat)

  datatype Header = Header(numObjects: nat, masters: seq<Master>)

  /** The generated plugin. */
  datatype Overlay = Overlay(objects: seq<Object>, header: Header)

  /** Why `main` stops without writing: no content files (exit 4), a failed
      `metadata` call (returned as an I/O error), a plugin path without a file
      name (exit 3), nothing fixed (exit 2). */
  datatype RunError = NoPlugins | MetadataUnavailable(path: Path) | UnnamedPlugin(path: Path) | NoMasters

  /** The cells and lights of a plugin, in file order. */
  datatype ParsedPlugin = ParsedPlugin(cells: seq<Cell>, lights: seq<LightRecord>)

  /** The file system as the loop sees it: the virtual file system's lookup
      of a content file, `metadata` (the size when it succeeds), and the
      plugin reader (None when it reports an error). */
  datatype Loader = Loader(
    resolve: string -> Option<Path>,
    metadata: Path -> Option<nat>,
    parse: Path -> Option<ParsedPlugin>)

  /** The loop's mutable locals: the generated plugin's records, `used_ids`,
      the header and `used_objects`. */
  datatype MergeState = MergeState(objects: seq<Object>, usedIds: set<string>, header: Header, usedObjects: nat)

  const Initial := MergeState([], {}, Header(0, []), 0)

  // ---------------------------------------------------------------------
  // Loading

  /** One content file: resolved, checked with `is_fixable_plugin`, parsed;
      a failure at any step drops it (a parse failure with a warning). */
  function LoadOne(loader: Loader, file: string): (r: seq<(ParsedPlugin, Path)>)
    ensures |r| <= 1
  {
    match loader.resolve(file)
    case None => []
    case Some(path) =>
      if !Lib.IsFixablePlugin(path, loader.metadata(path).Some?) then []
      else match loader.parse(path)
        case None => []
        case Some(p) => [(p, path)]
  }

  /** The content files in reverse order, each loaded or dropped. */
  function LoadPlugins(loader: Loader, files: seq<string>): (r: seq<(ParsedPlugin, Path)>)
    ensures |r| <= |files|
  {
    if files == [] then [] else LoadOne(loader, files[|files| - 1]) + LoadPlugins(loader, files[..|files| - 1])
  }

  /** The plugins come last-loaded first: a content file appended to the
      load order is the first plugin processed. */
  lemma LoadPluginsAppend(loader: Loader, files: seq<string>, last: string)
    ensures LoadPlugins(loader, files + [last]) == LoadOne(loader, last) + LoadPlugins(loader, files)
  {
    assert (files + [last])[..|files|] == files;
  }

  /** A content file is kept exactly when it resolves to a path that
      passes `is_fixable_plugin` and that parses; it is then kept with that
      path and what was parsed. */
  lemma LoadOneSpec(loader: Loader, file: string)
    ensures LoadOne(loader, file) != [] <==>
      && loader.resolve(file).Some?
      && Lib.IsFixablePlugin(loader.resolve(file).value, loader.metadata(loader.resolve(file).value).Some?)
      && loader.parse(loader.resolve(file).value).Some?
    ensures LoadOne(loader, file) != [] ==>
      LoadOne(loader, file) == [(loader.parse(loader.resolve(file).value).value, loader.resolve(file).value)]
  {
  }

  /** `path` passes `is_fixable_plugin` and parses to `p`. */
  predicate Loadable(loader: Loader, path: Path, p: ParsedPlugin) {
    Lib.IsFixablePlugin(path, loader.metadata(path).Some?) && loader.parse(path) == Some(p)
  }

  /** Some content file of `files` resolves to `path`. */
  predicate ResolvedFrom(loader: Loader, files: seq<string>, path: Path) {
    exists j :: 0 <= j < |files| && loader.resolve(files[j]) == Some(path)
  }

  /** Every plugin kept is fixable, was parsed from its path, and that path
      is what some content file resolves to. */
  lemma {:induction false} LoadedPluginsFixable(loader: Loader, files: seq<string>)
    ensures forall e: (ParsedPlugin, Path) :: e in LoadPlugins(loader, files) ==> Loadable(loader, e.1, e.0) && ResolvedFrom(loader, files, e.1)
  {
    if files != [] {
      var n := |files| - 1;
      var head := LoadOne(loader, files[n]);
      var tail := LoadPlugins(loader, files[..n]);
      LoadedPluginsFixable(loader, files[..n]);
      LoadOneSpec(loader, files[n]);
      assert LoadPlugins(loader, files) == head + tail;
      forall e: (ParsedPlugin, Path) | e in head + tail
        ensures Loadable(loader, e.1, e.0) && ResolvedFrom(loader, files, e.1)
      {
        if e in head {
          assert loader.resolve(files[n]) == Some(e.1);
        } else {
          assert ResolvedFrom(loader, files[..n], e.1);
          var j :| 0 <= j < n && loader.resolve(files[..n][j]) == Some(e.1);
          assert files[..n][j] == files[j];
        }
      }
    }
  }

  // ---------------------------------------------------------------------
  // One plugin

  /** An interior cell with an atmosphere whose id is free and not excluded
      is fixed; it is added only when something was replaced, with its
      references cleared and its water height removed. */
  function CellStep(cfg: LightConfig, re: RegexEngine, cm: ColorModel, st: MergeState, cell: Cell): MergeState {
    if !(cell.isInterior && cell.atmosphere.Some?) then st
    else
      var id := ToAsciiLower(cell.id);
      if id in st.usedIds || AnyMatches(re, cfg.compiled.excludedIdRegexes, id) then st
      else
        var (atmo, replaced) := ResolveAtmosphere(cfg, re, cm, id, cell.atmosphere.value);
        if !replaced then st
        else MergeState(st.objects + [CellObject(Cell(cell.id, cell.isInterior, Some(atmo), [], None))],
                        st.usedIds + {id}, st.header, st.usedObjects + 1)
  }

  function AddedCells(cfg: LightConfig, re: RegexEngine, cm: ColorModel, st: MergeState, cells: seq<Cell>): MergeState
    decreases |cells|
  {
    if cells == [] then st
    else CellStep(cfg, re, cm, AddedCells(cfg, re, cm, st, cells[..|cells| - 1]), cells[|cells| - 1])
  }

  /** A light whose id is free and not excluded is processed and added. */
  function LightStep(cfg: LightConfig, re: RegexEngine, cm: ColorModel, st: MergeState, light: LightRecord): MergeState {
    var id := ToAsciiLower(light.id);
    if id !in st.usedIds && !AnyMatches(re, cfg.compiled.excludedIdRegexes, id) then
      MergeState(st.objects + [LightObject(LightRecord(light.id, TransformLight(cfg, re, cm, light.id, light.data)))],
                 st.usedIds + {id}, st.header, st.usedObjects + 1)
    else st
  }

  function AddedLights(cfg: LightConfig, re: RegexEngine, cm: ColorModel, st: MergeState, lights: seq<LightRecord>): MergeState
    decreases |lights|
  {
    if lights == [] then st
    else LightStep(cfg, re, cm, AddedLights(cfg, re, cm, st, lights[..|lights| - 1]), lights[|lights| - 1])
  }

  /** A cell is added exactly when it is an interior cell with an
      atmosphere, its lower-cased id is neither taken nor excluded, and
      resolving its atmosphere replaced something; it is added with the new
      atmosphere, no references and no water height, and its id is taken.
      Otherwise nothing changes. */
  lemma CellStepSpec(cfg: LightConfig, re: RegexEngine, cm: ColorModel, st: MergeState, cell: Cell)
    ensures var id := ToAsciiLower(cell.id);
      var admitted := cell.isInterior && cell.atmosphere.Some? && id !in st.usedIds
                      && !AnyMatches(re, cfg.compiled.excludedIdRegexes, id)
                      && ResolveAtmosphere(cfg, re, cm, id, cell.atmosphere.value).1;
      var s := CellStep(cfg, re, cm, st, cell);
      && (admitted ==>
            && s.objects == st.objects + [CellObject(Cell(cell.id, true,
                 Some(ResolveAtmosphere(cfg, re, cm, id, cell.atmosphere.value).0), [], None))]
            && s.usedIds == st.usedIds + {id} && s.header == st.header && s.usedObjects == st.usedObjects + 1)
      && (!admitted ==> s == st)
  {
  }

  /** A light is added exactly when its lower-cased id is neither taken nor
      excluded; it is added with the transformed data and its id is taken.
      Otherwise nothing changes. */
  lemma LightStepSpec(cfg: LightConfig, re: RegexEngine, cm: ColorModel, st: MergeState, light: LightRecord)
    ensures var id := ToAsciiLower(light.id);
      var admitted := id !in st.usedIds && !AnyMatches(re, cfg.compiled.excludedIdRegexes, id);
      var s := LightStep(cfg, re, cm, st, light);
      && (admitted ==>
            && s.objects == st.objects + [LightObject(LightRecord(light.id, TransformLight(cfg, re, cm, light.id, light.data)))]
            && s.usedIds == st.usedIds + {id} && s.header == st.header && s.usedObjects == st.usedObjects + 1)
      && (!admitted ==> s == st)
  {
  }

  /** `o` is a cell record made from one of `cells`: an interior cell with
      an atmosphere whose resolution replaced something, carrying the
      resolved atmosphere. */
  predicate FromReplacedCell(cfg: LightConfig, re: RegexEngine, cm: ColorModel, cells: seq<Cell>, o: Object) {
    && o.CellObject?
    && exists j :: 0 <= j < |cells| && cells[j].id == o.cell.id
         && cells[j].isInterior && cells[j].atmosphere.Some?
         && ResolveAtmosphere(cfg, re, cm, ToAsciiLower(cells[j].id), cells[j].atmosphere.value).1
         && o.cell.atmosphere == Some(ResolveAtmosphere(cfg, re, cm, ToAsciiLower(cells[j].id), cells[j].atmosphere.value).0)
  }

  /** Every record a plugin's cell loop adds comes from one of its interior
      cells whose atmosphere resolution replaced something. */
  lemma {:induction false} AddedCellsOnlyReplaced(cfg: LightConfig, re: RegexEngine, cm: ColorModel,
                                                  st: MergeState, cells: seq<Cell>)
    decreases |cells|
    ensures var s := AddedCells(cfg, re, cm, st, cells);
      && st.objects <= s.objects
      && forall i :: |st.objects| <= i < |s.objects| ==> FromReplacedCell(cfg, re, cm, cells, s.objects[i])
  {
    if cells != [] {
      var n := |cells| - 1;
      var mid := AddedCells(cfg, re, cm, st, cells[..n]);
      AddedCellsOnlyReplaced(cfg, re, cm, st, cells[..n]);
      CellStepSpec(cfg, re, cm, mid, cells[n]);
      var s := AddedCells(cfg, re, cm, st, cells);
      assert s == CellStep(cfg, re, cm, mid, cells[n]);
      assert mid.objects <= s.objects;
      forall i | |st.objects| <= i < |s.objects|
        ensures FromReplacedCell(cfg, re, cm, cells, s.objects[i])
      {
        if i < |mid.objects| {
          assert s.objects[i] == mid.objects[i];
          assert FromReplacedCell(cfg, re, cm, cells[..n], mid.objects[i]);
          var j :| 0 <= j < n && cells[..n][j].id == mid.objects[i].cell.id
                   && cells[..n][j].isInterior && cells[..n][j].atmosphere.Some?
                   && ResolveAtmosphere(cfg, re, cm, ToAsciiLower(cells[..n][j].id), cells[..n][j].atmosphere.value).1
                   && mid.objects[i].cell.atmosphere
                      == Some(ResolveAtmosphere(cfg, re, cm, ToAsciiLower(cells[..n][j].id), cells[..n][j].atmosphere.value).0);
          assert cells[..n][j] == cells[j];
        } else {
          var c := cells[n];
          var res := ResolveAtmosphere(cfg, re, cm, ToAsciiLower(c.id), c.atmosphere.value);
          assert s.objects[i] == CellObject(Cell(c.id, true, Some(res.0), [], None)) && res.1;
          assert cells[n] == c;
        }
      }
    }
  }

  /** After a plugin: if it contributed records, its size and file name go to
      the front of the masters and its count to `num_objects`. */
  function FinishPlugin(loader: Loader, st: MergeState, path: Path): Result<MergeState, RunError> {
    if st.usedObjects == 0 then Ok(st)
    else match loader.metadata(path)
      case None => Err(MetadataUnavailable(path))
      case Some(size) =>
        match FileName(path)
        case None => Err(UnnamedPlugin(path))
        case Some(name) =>
          Ok(MergeState(st.objects, st.usedIds,
                        Header(st.header.numObjects + st.usedObjects, [Master(name, size)] + st.header.masters), 0))
  }

  function PluginStep(cfg: LightConfig, re: RegexEngine, cm: ColorModel, loader: Loader,
                      st: MergeState, p: (ParsedPlugin, Path)): Result<MergeState, RunError> {
    FinishPlugin(loader, AddedLights(cfg, re, cm, AddedCells(cfg, re, cm, st, p.0.cells), p.0.lights), p.1)
  }

  /** The loop over all loaded plugins; the first error ends it. */
  function MergeAll(cfg: LightConfig, re: RegexEngine, cm: ColorModel, loader: Loader,
                    st: MergeState, plugins: seq<(ParsedPlugin, Path)>): Result<MergeState, RunError>
    decreases |plugins|
  {
    if plugins == [] then Ok(st)
    else match MergeAll(cfg, re, cm, loader, st, plugins[..|plugins| - 1])
      case Err(e) => Err(e)
      case Ok(s) => PluginStep(cfg, re, cm, loader, s, plugins[|plugins| - 1])
  }

  /** `main` from the loaded configuration to the generated plugin. */
  function Run(cfg: LightConfig, re: RegexEngine, cm: ColorModel, loader: Loader, files: seq<string>): Result<Overlay, RunError> {
    if |files| == 0 then Err(NoPlugins)
    else match MergeAll(cfg, re, cm, loader, Initial, LoadPlugins(loader, files))
      case Err(e) => Err(e)
      case Ok(st) => if st.header.masters == [] then Err(NoMasters) else Ok(Overlay(st.objects, st.header))
  }

  // ---------------------------------------------------------------------
  // What the loop keeps

  /** A record as the loop leaves it: a cell is an interior cell with an
      atmosphere, no references and no water height; a light's unused colour
      byte is zero. */
  predicate Fixed(o: Object) {
    match o
    case CellObject(c) => c.isInterior && c.atmosphere.Some? && c.references == [] && c.waterHeight.None?
    case LightObject(l) => l.data.color.alpha == 0
  }

  /** No two records share a lower-cased id. */
  predicate DistinctKeys(objects: seq<Object>) {
    forall i, j :: 0 <= i < j < |objects| ==> Key(objects[i]) != Key(objects[j])
  }

  /** `ids` is exactly the set of the records' ids. */
  predicate KeysAre(objects: seq<Object>, ids: set<string>) {
    && (forall i :: 0 <= i < |objects| ==> Key(objects[i]) in ids)
    && (forall k :: k in ids ==> exists i :: 0 <= i < |objects| && Key(objects[i]) == k)
  }

  /** No record's id is excluded and every record is fixed. */
  predicate Admitted(cfg: LightConfig, re: RegexEngine, objects: seq<Object>) {
    forall i :: 0 <= i < |objects| ==>
      !AnyMatches(re, cfg.compiled.excludedIdRegexes, Key(objects[i])) && Fixed(objects[i])
  }

  /** The loop invariant: no two records share a lower-cased id, `used_ids`
      is exactly the set of those ids, no record's id is excluded, every
      record is fixed, `num_objects` plus the pending count is the number of
      records, and there are masters exactly when `num_objects` is nonzero. */
  predicate Good(cfg: LightConfig, re: RegexEngine, st: MergeState) {
    && DistinctKeys(st.objects)
    && KeysAre(st.objects, st.usedIds)
    && Admitted(cfg, re, st.objects)
    && st.header.numObjects + st.usedObjects == |st.objects|
    && (st.header.masters == [] <==> st.header.numObjects == 0)
  }

  /** What one plugin's cells and lights do to the state: records appended,
      ids added, the header untouched. */
  predicate Grows(st: MergeState, st': MergeState) {
    && st.objects <= st'.objects
    && st.usedIds <= st'.usedIds
    && st'.header == st.header
    && st'.usedObjects == st.usedObjects + (|st'.objects| - |st.objects|)
  }

  lemma AppendDistinct(objects: seq<Object>, ids: set<string>, o: Object)
    requires DistinctKeys(objects) && KeysAre(objects, ids) && Key(o) !in ids
    ensures DistinctKeys(objects + [o])
  {
    var s := objects + [o];
    forall i, j | 0 <= i < j < |s|
      ensures Key(s[i]) != Key(s[j])
    {
      assert s[i] == objects[i];
      if j < |objects| {
        assert s[j] == objects[j];
      }
    }
  }

  lemma AppendKeys(objects: seq<Object>, ids: set<string>, o: Object)
    requires KeysAre(objects, ids)
    ensures KeysAre(objects + [o], ids + {Key(o)})
  {
    var s := objects + [o];
    var n := |objects|;
    assert forall i :: 0 <= i < n ==> s[i] == objects[i];
    forall k | k in ids + {Key(o)}
      ensures exists i :: 0 <= i < |s| && Key(s[i]) == k
    {
      if k == Key(o) {
        assert Key(s[n]) == k;
      } else {
        var i :| 0 <= i < n && Key(objects[i]) == k;
        assert Key(s[i]) == k;
      }
    }
  }

  lemma AppendAdmitted(cfg: LightConfig, re: RegexEngine, objects: seq<Object>, o: Object)
    requires Admitted(cfg, re, objects)
    requires !AnyMatches(re, cfg.compiled.excludedIdRegexes, Key(o)) && Fixed(o)
    ensures Admitted(cfg, re, objects + [o])
  {
    assert forall i :: 0 <= i < |objects| ==> (objects + [o])[i] == objects[i];
  }

  lemma AppendKeepsGood(cfg: LightConfig, re: RegexEngine, st: MergeState, o: Object)
    requires Good(cfg, re, st)
    requires Key(o) !in st.usedIds && !AnyMatches(re, cfg.compiled.excludedIdRegexes, Key(o)) && Fixed(o)
    ensures var st' := MergeState(st.objects + [o], st.usedIds + {Key(o)}, st.header, st.usedObjects + 1);
      Good(cfg, re, st') && Grows(st, st')
  {
    AppendDistinct(st.objects, st.usedIds, o);
    AppendKeys(st.objects, st.usedIds, o);
    AppendAdmitted(cfg, re, st.objects, o);
  }

  lemma CellStepKeepsGood(cfg: LightConfig, re: RegexEngine, cm: ColorModel, st: MergeState, cell: Cell)
    requires Good(cfg, re, st)
    ensures Good(cfg, re, CellStep(cfg, re, cm, st, cell)) && Grows(st, CellStep(cfg, re, cm, st, cell))
  {
    if cell.isInterior && cell.atmosphere.Some? {
      var id := ToAsciiLower(cell.id);
      if id !in st.usedIds && !AnyMatches(re, cfg.compiled.excludedIdRegexes, id) {
        var (atmo, replaced) := ResolveAtmosphere(cfg, re, cm, id, cell.atmosphere.value);
        if replaced {
          AppendKeepsGood(cfg, re, st, CellObject(Cell(cell.id, cell.isInterior, Some(atmo), [], None)));
        }
      }
    }
  }

  lemma LightStepKeepsGood(cfg: LightConfig, re: RegexEngine, cm: ColorModel, st: MergeState, light: LightRecord)
    requires Good(cfg, re, st)
    ensures Good(cfg, re, LightStep(cfg, re, cm, st, light)) && Grows(st, LightStep(cfg, re, cm, st, light))
  {
    var id := ToAsciiLower(light.id);
    if id !in st.usedIds && !AnyMatches(re, cfg.compiled.excludedIdRegexes, id) {
      var data := TransformLight(cfg, re, cm, light.id, light.data);
      if Negative in light.data.flags {
        NegativeLightSwitchedOff(cfg, re, cm, light.id, light.data);
      } else {
        FlagsAfterTransform(cfg, re, cm, light.id, light.data);
      }
      AppendKeepsGood(cfg, re, st, LightObject(LightRecord(light.id, data)));
    }
  }

  lemma GrowsTrans(a: MergeState, b: MergeState, c: MergeState)
    requires Grows(a, b) && Grows(b, c)
    ensures Grows(a, c)
  {
  }

  lemma {:induction false} AddedCellsKeepGood(cfg: LightConfig, re: RegexEngine, cm: ColorModel, st: MergeState, cells: seq<Cell>)
    requires Good(cfg, re, st)
    decreases |cells|
    ensures Good(cfg, re, AddedCells(cfg, re, cm, st, cells)) && Grows(st, AddedCells(cfg, re, cm, st, cells))
  {
    if cells != [] {
      var mid := AddedCells(cfg, re, cm, st, cells[..|cells| - 1]);
      AddedCellsKeepGood(cfg, re, cm, st, cells[..|cells| - 1]);
      CellStepKeepsGood(cfg, re, cm, mid, cells[|cells| - 1]);
      GrowsTrans(st, mid, AddedCells(cfg, re, cm, st, cells));
    }
  }

  lemma {:induction false} AddedLightsKeepGood(cfg: LightConfig, re: RegexEngine, cm: ColorModel, st: MergeState, lights: seq<LightRecord>)
    requires Good(cfg, re, st)
    decreases |lights|
    ensures Good(cfg, re, AddedLights(cfg, re, cm, st, lights)) && Grows(st, AddedLights(cfg, re, cm, st, lights))
  {
    if lights != [] {
      var mid := AddedLights(cfg, re, cm, st, lights[..|lights| - 1]);
      AddedLightsKeepGood(cfg, re, cm, st, lights[..|lights| - 1]);
      LightStepKeepsGood(cfg, re, cm, mid, lights[|lights| - 1]);
      GrowsTrans(st, mid, AddedLights(cfg, re, cm, st, lights));
    }
  }

  /** Finishing a plugin moves the pending count into the header, and adds
      one master in front exactly when the plugin contributed records. */
  lemma FinishKeepsGood(cfg: LightConfig, re: RegexEngine, loader: Loader, st: MergeState, path: Path)
    requires Good(cfg, re, st)
    ensures FinishPlugin(loader, st, path).Ok? ==>
      var s := FinishPlugin(loader, st, path).value;
      && Good(cfg, re, s) && s.usedObjects == 0 && s.objects == st.objects && s.usedIds == st.usedIds
      && s.header.numObjects == st.header.numObjects + st.usedObjects
      && (st.usedObjects == 0 ==> s.header.masters == st.header.masters)
      && (st.usedObjects > 0 ==> |s.header.masters| == |st.header.masters| + 1
                                 && s.header.masters[1..] == st.header.masters)
  {
  }

  /** Over the whole loop: the invariant holds, records are only appended,
      and nothing is left pending. */
  lemma {:induction false} MergeAllKeepsGood(cfg: LightConfig, re: RegexEngine, cm: ColorModel, loader: Loader,
                                             st: MergeState, plugins: seq<(ParsedPlugin, Path)>)
    requires Good(cfg, re, st) && st.usedObjects == 0
    decreases |plugins|
    ensures MergeAll(cfg, re, cm, loader, st, plugins).Ok? ==>
      var s := MergeAll(cfg, re, cm, loader, st, plugins).value;
      Good(cfg, re, s) && s.usedObjects == 0 && st.objects <= s.objects
  {
    if plugins != [] {
      var init := plugins[..|plugins| - 1];
      MergeAllKeepsGood(cfg, re, cm, loader, st, init);
      var r := MergeAll(cfg, re, cm, loader, st, init);
      if r.Ok? {
        var p := plugins[|plugins| - 1];
        var afterCells := AddedCells(cfg, re, cm, r.value, p.0.cells);
        AddedCellsKeepGood(cfg, re, cm, r.value, p.0.cells);
        var afterLights := AddedLights(cfg, re, cm, afterCells, p.0.lights);
        AddedLightsKeepGood(cfg, re, cm, afterCells, p.0.lights);
        FinishKeepsGood(cfg, re, loader, afterLights, p.1);
      }
    }
  }

  /** One plugin: its admitted records are appended, `num_objects` grows by
      exactly their number, and its file name goes to the front of the
      masters once if it contributed any record, not at all otherwise. */
  lemma PluginContributes(cfg: LightConfig, re: RegexEngine, cm: ColorModel, loader: Loader,
                          st: MergeState, p: (ParsedPlugin, Path))
    requires Good(cfg, re, st) && st.usedObjects == 0
    ensures PluginStep(cfg, re, cm, loader, st, p).Ok? ==>
      var s := PluginStep(cfg, re, cm, loader, st, p).value;
      && st.objects <= s.objects
      && s.header.numObjects == st.header.numObjects + (|s.objects| - |st.objects|)
      && (|s.objects| > |st.objects| ==>
            |s.header.masters| == |st.header.masters| + 1
            && FileName(p.1).Some? && loader.metadata(p.1).Some?
            && s.header.masters[0] == Master(FileName(p.1).value, loader.metadata(p.1).value)
            && s.header.masters[1..] == st.header.masters)
      && (|s.objects| == |st.objects| ==> s.header.masters == st.header.masters)
  {
    var afterCells := AddedCells(cfg, re, cm, st, p.0.cells);
    AddedCellsKeepGood(cfg, re, cm, st, p.0.cells);
    var afterLights := AddedLights(cfg, re, cm, afterCells, p.0.lights);
    AddedLightsKeepGood(cfg, re, cm, afterCells, p.0.lights);
    FinishKeepsGood(cfg, re, loader, afterLights, p.1);
  }

  /** The first plugin processed wins: an id already taken never appears
      among the records added later. */
  lemma FirstProcessedWins(cfg: LightConfig, re: RegexEngine, cm: ColorModel, loader: Loader,
                           st: MergeState, plugins: seq<(ParsedPlugin, Path)>)
    requires Good(cfg, re, st) && st.usedObjects == 0
    ensures MergeAll(cfg, re, cm, loader, st, plugins).Ok? ==>
      var s := MergeAll(cfg, re, cm, loader, st, plugins).value;
      forall i :: |st.objects| <= i < |s.objects| ==> Key(s.objects[i]) !in st.usedIds
  {
    MergeAllKeepsGood(cfg, re, cm, loader, st, plugins);
    var r := MergeAll(cfg, re, cm, loader, st, plugins);
    if r.Ok? {
      var s := r.value;
      assert forall j :: 0 <= j < |st.objects| ==> s.objects[j] == st.objects[j];
      forall i | |st.objects| <= i < |s.objects|
        ensures Key(s.objects[i]) !in st.usedIds
      {
        assert forall j :: 0 <= j < |st.objects| ==> Key(st.objects[j]) != Key(s.objects[i]);
      }
    }
  }

  /** An error ends the loop: once a prefix of the plugins fails, the whole
      loop fails with the same error. */
  lemma {:induction false} ErrorEndsMerge(cfg: LightConfig, re: RegexEngine, cm: ColorModel, loader: Loader,
                                          st: MergeState, plugins: seq<(ParsedPlugin, Path)>, k: nat)
    requires k <= |plugins| && MergeAll(cfg, re, cm, loader, st, plugins[..k]).Err?
    decreases |plugins| - k
    ensures MergeAll(cfg, re, cm, loader, st, plugins) == MergeAll(cfg, re, cm, loader, st, plugins[..k])
  {
    if k < |plugins| {
      var init := plugins[..|plugins| - 1];
      assert init[..k] == plugins[..k];
      ErrorEndsMerge(cfg, re, cm, loader, st, init, k);
    } else {
      assert plugins[..k] == plugins;
    }
  }

  /** What `main` promises of the generated plugin: no content files stop
      it with exit 4; when it is produced, no two records share an id, none
      is excluded, every record is fixed, the header counts every record,
      and there is at least one master and one record. Nothing fixed stops
      it with exit 2. */
  lemma RunSpec(cfg: LightConfig, re: RegexEngine, cm: ColorModel, loader: Loader, files: seq<string>)
    ensures |files| == 0 ==> Run(cfg, re, cm, loader, files) == Err(NoPlugins)
    ensures |files| > 0 && LoadPlugins(loader, files) == [] ==> Run(cfg, re, cm, loader, files) == Err(NoMasters)
    ensures Run(cfg, re, cm, loader, files).Ok? ==>
      var ov := Run(cfg, re, cm, loader, files).value;
      && (forall i, j :: 0 <= i < j < |ov.objects| ==> Key(ov.objects[i]) != Key(ov.objects[j]))
      && (forall i :: 0 <= i < |ov.objects| ==> !AnyMatches(re, cfg.compiled.excludedIdRegexes, Key(ov.objects[i])))
      && (forall i :: 0 <= i < |ov.objects| ==> Fixed(ov.objects[i]))
      && ov.header.numObjects == |ov.objects| > 0
      && |ov.header.masters| > 0
  {
    if |files| > 0 {
      MergeAllKeepsGood(cfg, re, cm, loader, Initial, LoadPlugins(loader, files));
    }
  }

  // ---------------------------------------------------------------------
  // The loop itself

  /** The cell loop of one plugin. */
  method AddCells(cfg: LightConfig, re: RegexEngine, cm: ColorModel, st0: MergeState, cells: seq<Cell>)
    returns (st: MergeState)
    ensures st == AddedCells(cfg, re, cm, st0, cells)
  {
    st := st0;
    var i := 0;
    while i < |cells|
      invariant 0 <= i <= |cells|
      invariant st == AddedCells(cfg, re, cm, st0, cells[..i])
    {
      assert cells[..i + 1][..i] == cells[..i];
      var cell := cells[i];
      if cell.isInterior && cell.atmosphere.Some? {
        var cellId := ToAsciiLower(cell.id);
        var excluded := IsExcludedId(cfg, re, cellId);
        if cellId !in st.usedIds && !excluded {
          var atmo, replaced := FixAtmosphere(cfg, re, cm, cellId, cell.atmosphere.value);
          if replaced {
            st := MergeState(st.objects + [CellObject(Cell(cell.id, cell.isInterior, Some(atmo), [], None))],
                             st.usedIds + {cellId}, st.header, st.usedObjects + 1);
          }
        }
      }
      i := i + 1;
    }
    assert cells[..i] == cells;
  }

  /** The light loop of one plugin: each admitted light is processed in
      place and then added. */
  method AddLights(cfg: LightConfig, re: RegexEngine, cm: ColorModel, st0: MergeState, lights: seq<LightRecord>)
    returns (st: MergeState)
    ensures st == AddedLights(cfg, re, cm, st0, lights)
  {
    st := st0;
    var i := 0;
    while i < |lights|
      invariant 0 <= i <= |lights|
      invariant st == AddedLights(cfg, re, cm, st0, lights[..i])
    {
      assert lights[..i + 1][..i] == lights[..i];
      var lightId := ToAsciiLower(lights[i].id);
      var excluded := IsExcludedId(cfg, re, lightId);
      if lightId !in st.usedIds && !excluded {
        var light := new Light(lights[i]);
        ProcessLight(cfg, light, re, cm);
        st := MergeState(st.objects + [LightObject(light.Record())], st.usedIds + {lightId},
                         st.header, st.usedObjects + 1);
      }
      i := i + 1;
    }
    assert lights[..i] == lights;
  }

  /** The body of the loop for one plugin. */
  method ProcessPlugin(cfg: LightConfig, re: RegexEngine, cm: ColorModel, loader: Loader,
                       st0: MergeState, p: (ParsedPlugin, Path))
    returns (r: Result<MergeState, RunError>)
    ensures r == PluginStep(cfg, re, cm, loader, st0, p)
  {
    var (plugin, path) := p;
    var st := AddCells(cfg, re, cm, st0, plugin.cells);
    st := AddLights(cfg, re, cm, st, plugin.lights);
    if st.usedObjects > 0 {
      var size := loader.metadata(path);
      if size.None? {
        return Err(MetadataUnavailable(path));
      }
      var name := FileName(path);
      if name.None? {
        return Err(UnnamedPlugin(path));
      }
      st := MergeState(st.objects, st.usedIds,
                       Header(st.header.numObjects + st.usedObjects, [Master(name.value, size.value)] + st.header.masters), 0);
    }
    return Ok(st);
  }

  /** `main` from the loaded configuration to the generated plugin. */
  method Generate(cfg: LightConfig, re: RegexEngine, cm: ColorModel, loader: Loader, files: seq<string>)
    returns (r: Result<Overlay, RunError>)
    ensures r == Run(cfg, re, cm, loader, files)
  {
    if |files| == 0 {
      return Err(NoPlugins);
    }
    var plugins := LoadPlugins(loader, files);
    var st := Initial;
    var i := 0;
    while i < |plugins|
      invariant 0 <= i <= |plugins|
      invariant MergeAll(cfg, re, cm, loader, Initial, plugins[..i]) == Ok(st)
    {
      ghost var done := plugins[..i + 1];
      assert done[..i] == plugins[..i] && done[i] == plugins[i];
      var step := ProcessPlugin(cfg, re, cm, loader, st, plugins[i]);
      assert MergeAll(cfg, re, cm, loader, Initial, done) == step;
      if step.Err? {
        ErrorEndsMerge(cfg, re, cm, loader, Initial, plugins, i + 1);
        return Err(step.error);
      }
      st := step.value;
      i := i + 1;
    }
    assert plugins[..i] == plugins;
    if st.header.masters == [] {
      return Err(NoMasters);
    }
    return Ok(Overlay(st.objects, st.header));
  }
}
