/** The interior-cell step of the merge loop in src/main.rs: a cell's
    atmosphere loses its sunlight when interior sun is disabled, then every
    ambient override whose pattern matches the cell's id rewrites the
    colours and the fog density it sets. */
module CellFix {
  import opened Wrappers
  import opened Patterns
  import opened Palette
  import opened Records
  import opened Overrides
  import opened Config

  /** A colour given as hue, saturation and value, as the plugin stores it:
      the unused byte zero. */
  function HsvColor(cm: ColorModel, s: HsvSetting): (r: Rgba)
    ensures r.alpha == 0
  {
    var c := cm.toRgb8(Hsv(s.hue as real, s.saturation, s.value));
    Rgba(c.red, c.green, c.blue, 0)
  }

  /** Whether an override sets anything at all. */
  predicate SetsAnything(o: CustomCellAmbient) {
    o.ambient.Some? || o.sunlight.Some? || o.fog.Some? || o.fogDensity.Some?
  }

  /** One matching ambient override applied to the atmosphere, together with
      the "replaced" flag. */
  function ApplyAmbient(cm: ColorModel, acc: (AtmosphereData, bool), o: CustomCellAmbient): (AtmosphereData, bool) {
    var a := acc.0;
    (AtmosphereData(
       if o.ambient.Some? then HsvColor(cm, o.ambient.value) else a.ambientColor,
       if o.sunlight.Some? then HsvColor(cm, o.sunlight.value) else a.sunlightColor,
       if o.fog.Some? then HsvColor(cm, o.fog.value) else a.fogColor,
       if o.fogDensity.Some? then o.fogDensity.value else a.fogDensity),
     acc.1 || SetsAnything(o))
  }

  /** Every entry of the ambient table, in order, whose pattern matches `id`,
      applied to `start`; no entry stops the others. */
  function ApplyAmbients(re: RegexEngine, cm: ColorModel, table: seq<(Regex, CustomCellAmbient)>,
                         id: string, start: (AtmosphereData, bool)): (AtmosphereData, bool)
    decreases |table|
  {
    if table == [] then start
    else
      var acc := ApplyAmbients(re, cm, table[..|table| - 1], id, start);
      if Matches(re, table[|table| - 1].0, id) then ApplyAmbient(cm, acc, table[|table| - 1].1) else acc
  }

  /** The new atmosphere of the interior cell whose lower-cased id is `id`,
      and whether anything was replaced. */
  function ResolveAtmosphere(cfg: LightConfig, re: RegexEngine, cm: ColorModel, id: string,
                             atmo: AtmosphereData): (AtmosphereData, bool)
  {
    var start :=
      if cfg.switches.disableInteriorSun then
        (AtmosphereData(atmo.ambientColor, Black, atmo.fogColor, atmo.fogDensity), true)
      else (atmo, false);
    ApplyAmbients(re, cm, cfg.compiled.ambientRegexes, id, start)
  }

  /** The three colours of an atmosphere, to state one property of all three. */
  datatype ColorSlot = AmbientSlot | SunlightSlot | FogSlot

  function SlotColor(a: AtmosphereData, slot: ColorSlot): Rgba {
    match slot
    case AmbientSlot => a.ambientColor
    case SunlightSlot => a.sunlightColor
    case FogSlot => a.fogColor
  }

  function SlotSetting(o: CustomCellAmbient, slot: ColorSlot): Option<HsvSetting> {
    match slot
    case AmbientSlot => o.ambient
    case SunlightSlot => o.sunlight
    case FogSlot => o.fog
  }

  /** Entry `e` applies to the cell `id` and sets the colour `slot`. */
  predicate SetsSlot(re: RegexEngine, id: string, e: (Regex, CustomCellAmbient), slot: ColorSlot) {
    Matches(re, e.0, id) && SlotSetting(e.1, slot).Some?
  }

  /** One entry sets the colour it names and leaves the others alone. */
  lemma ApplyAmbientSlot(cm: ColorModel, acc: (AtmosphereData, bool), o: CustomCellAmbient, slot: ColorSlot)
    ensures SlotColor(ApplyAmbient(cm, acc, o).0, slot)
         == if SlotSetting(o, slot).Some? then HsvColor(cm, SlotSetting(o, slot).value) else SlotColor(acc.0, slot)
  {
  }

  /** A colour that no matching entry sets is the one the cell started with. */
  lemma {:induction false} UnsetColorKept(re: RegexEngine, cm: ColorModel, table: seq<(Regex, CustomCellAmbient)>,
                                          id: string, start: (AtmosphereData, bool), slot: ColorSlot)
    requires forall i :: 0 <= i < |table| ==> !SetsSlot(re, id, table[i], slot)
    decreases |table|
    ensures SlotColor(ApplyAmbients(re, cm, table, id, start).0, slot) == SlotColor(start.0, slot)
  {
    if table != [] {
      var n := |table| - 1;
      var init := table[..n];
      assert forall i :: 0 <= i < n ==> init[i] == table[i];
      UnsetColorKept(re, cm, init, id, start, slot);
      if Matches(re, table[n].0, id) {
        ApplyAmbientSlot(cm, ApplyAmbients(re, cm, init, id, start), table[n].1, slot);
      }
    }
  }

  /** The last matching entry that sets a colour decides it. */
  lemma {:induction false} LastMatchWins(re: RegexEngine, cm: ColorModel, table: seq<(Regex, CustomCellAmbient)>,
                                         id: string, start: (AtmosphereData, bool), slot: ColorSlot, i: nat)
    requires i < |table| && SetsSlot(re, id, table[i], slot)
    requires forall j :: i < j < |table| ==> !SetsSlot(re, id, table[j], slot)
    decreases |table|
    ensures SlotColor(ApplyAmbients(re, cm, table, id, start).0, slot)
         == HsvColor(cm, SlotSetting(table[i].1, slot).value)
  {
    var n := |table| - 1;
    var init := table[..n];
    var acc := ApplyAmbients(re, cm, init, id, start);
    if i == n {
      ApplyAmbientSlot(cm, acc, table[n].1, slot);
    } else {
      assert forall j :: 0 <= j < n ==> init[j] == table[j];
      LastMatchWins(re, cm, init, id, start, slot, i);
      if Matches(re, table[n].0, id) {
        ApplyAmbientSlot(cm, acc, table[n].1, slot);
      }
    }
  }

  /** Entry `e` applies to the cell `id` and sets the fog density. */
  predicate SetsDensity(re: RegexEngine, id: string, e: (Regex, CustomCellAmbient)) {
    Matches(re, e.0, id) && e.1.fogDensity.Some?
  }

  /** A fog density that no matching entry sets is the one the cell started
      with. */
  lemma {:induction false} UnsetDensityKept(re: RegexEngine, cm: ColorModel, table: seq<(Regex, CustomCellAmbient)>,
                                            id: string, start: (AtmosphereData, bool))
    requires forall i :: 0 <= i < |table| ==> !SetsDensity(re, id, table[i])
    decreases |table|
    ensures ApplyAmbients(re, cm, table, id, start).0.fogDensity == start.0.fogDensity
  {
    if table != [] {
      var n := |table| - 1;
      var init := table[..n];
      assert forall i :: 0 <= i < n ==> init[i] == table[i];
      UnsetDensityKept(re, cm, init, id, start);
    }
  }

  /** The last matching entry that sets the fog density decides it: the
      density is stored as given, with no conversion. */
  lemma {:induction false} LastDensityWins(re: RegexEngine, cm: ColorModel, table: seq<(Regex, CustomCellAmbient)>,
                                           id: string, start: (AtmosphereData, bool), i: nat)
    requires i < |table| && SetsDensity(re, id, table[i])
    requires forall j :: i < j < |table| ==> !SetsDensity(re, id, table[j])
    decreases |table|
    ensures ApplyAmbients(re, cm, table, id, start).0.fogDensity == table[i].1.fogDensity.value
  {
    var n := |table| - 1;
    var init := table[..n];
    if i < n {
      assert forall j :: 0 <= j < n ==> init[j] == table[j];
      LastDensityWins(re, cm, init, id, start, i);
    }
  }

  /** Something is replaced exactly when interior sun is disabled or some
      matching entry sets at least one field. */
  lemma {:induction false} ReplacedIff(re: RegexEngine, cm: ColorModel, table: seq<(Regex, CustomCellAmbient)>,
                                       id: string, start: (AtmosphereData, bool))
    decreases |table|
    ensures ApplyAmbients(re, cm, table, id, start).1 <==>
              start.1 || exists i :: 0 <= i < |table| && Matches(re, table[i].0, id) && SetsAnything(table[i].1)
  {
    if table != [] {
      var n := |table| - 1;
      var init := table[..n];
      ReplacedIff(re, cm, init, id, start);
      assert forall i :: 0 <= i < n ==> init[i] == table[i];
      if Matches(re, table[n].0, id) && SetsAnything(table[n].1) {
        assert ApplyAmbients(re, cm, table, id, start).1;
      }
    }
  }

  /** Disabling interior sun blackens the sunlight unless a matching entry
      sets it again, and always marks the cell as replaced. */
  lemma InteriorSunDisabled(cfg: LightConfig, re: RegexEngine, cm: ColorModel, id: string, atmo: AtmosphereData)
    requires cfg.switches.disableInteriorSun
    requires forall i :: 0 <= i < |cfg.compiled.ambientRegexes| ==> !SetsSlot(re, id, cfg.compiled.ambientRegexes[i], SunlightSlot)
    ensures ResolveAtmosphere(cfg, re, cm, id, atmo).0.sunlightColor == Black
    ensures ResolveAtmosphere(cfg, re, cm, id, atmo).1
  {
    var start := (AtmosphereData(atmo.ambientColor, Black, atmo.fogColor, atmo.fogDensity), true);
    UnsetColorKept(re, cm, cfg.compiled.ambientRegexes, id, start, SunlightSlot);
    ReplacedIff(re, cm, cfg.compiled.ambientRegexes, id, start);
  }

  /** The atmosphere part of the loop body: the table walked in order, a
      non-matching entry skipped. */
  method FixAtmosphere(cfg: LightConfig, re: RegexEngine, cm: ColorModel, cellId: string, atmo0: AtmosphereData)
    returns (atmo: AtmosphereData, replaced: bool)
    ensures (atmo, replaced) == ResolveAtmosphere(cfg, re, cm, cellId, atmo0)
  {
    atmo := atmo0;
    replaced := false;
    if cfg.switches.disableInteriorSun {
      atmo := AtmosphereData(atmo.ambientColor, Black, atmo.fogColor, atmo.fogDensity);
      replaced := true;
    }
    ghost var start := (atmo, replaced);

    var table := cfg.compiled.ambientRegexes;
    var i := 0;
    while i < |table|
      invariant 0 <= i <= |table|
      invariant (atmo, replaced) == ApplyAmbients(re, cm, table[..i], cellId, start)
    {
      assert table[..i + 1][..i] == table[..i];
      var (pattern, o) := table[i];
      if !Matches(re, pattern, cellId) {
        i := i + 1;
        continue;
      }
      if o.ambient.Some? {
        atmo := AtmosphereData(HsvColor(cm, o.ambient.value), atmo.sunlightColor, atmo.fogColor, atmo.fogDensity);
        replaced := true;
      }
      if o.fog.Some? {
        atmo := AtmosphereData(atmo.ambientColor, atmo.sunlightColor, HsvColor(cm, o.fog.value), atmo.fogDensity);
        replaced := true;
      }
      if o.sunlight.Some? {
        atmo := AtmosphereData(atmo.ambientColor, HsvColor(cm, o.sunlight.value), atmo.fogColor, atmo.fogDensity);
        replaced := true;
      }
      if o.fogDensity.Some? {
        atmo := AtmosphereData(atmo.ambientColor, atmo.sunlightColor, atmo.fogColor, o.fogDensity.value);
        replaced := true;
      }
      i := i + 1;
    }
    assert table[..i] == table;
  }
}
