/** The per-light transform of src/main.rs: `light_to_hsv` classifies a
    light by its hue, and `process_light` rewrites a light in place from the
    configuration and the first override whose pattern matches its id. */
module LightFix {
  import opened Wrappers
  import opened Numbers
  import opened Text
  import opened Patterns
  import opened Palette
  import opened Records
  import opened Overrides
  import opened Config

  // ---------------------------------------------------------------------
  // light_to_hsv

  /** Red, purple, blue, green and yellow lights: a hue above 64 degrees or
      below 14 degrees. Everything in between, both ends included, is
      "standard" (orange-ish). */
  predicate IsColoredHue(hueDegrees: real) {
    hueDegrees > 64.0 || hueDegrees < 14.0
  }

  /** `light_to_hsv`: the light's colour as HSV, and whether it is coloured. */
  function LightToHsv(cm: ColorModel, data: LightData): (r: (Hsv, bool))
    ensures r.0 == cm.toHsv(Rgb8(data.color.red, data.color.green, data.color.blue))
    ensures r.1 <==> !(14.0 <= PositiveDegrees(r.0.hue) <= 64.0)
  {
    var hsv := cm.toHsv(Rgb8(data.color.red, data.color.green, data.color.blue));
    (hsv, IsColoredHue(PositiveDegrees(hsv.hue)))
  }

  /** The classification depends only on the hue: whole turns do not change
      it, the band edges 14 and 64 are standard, just outside them is
      coloured; the colour's alpha byte plays no part. */
  lemma ClassificationSpec(hue: real, turns: int)
    ensures IsColoredHue(PositiveDegrees(hue + turns as real * 360.0)) == IsColoredHue(PositiveDegrees(hue))
    ensures !IsColoredHue(14.0) && !IsColoredHue(64.0)
    ensures IsColoredHue(13.99) && IsColoredHue(64.01)
    ensures IsColoredHue(PositiveDegrees(-10.0))
  {
    PositiveDegreesPeriodic(hue, turns);
    assert PositiveDegrees(-10.0) == 350.0 by {
      assert (-10.0 / 360.0).Floor == -1;
    }
  }

  // ---------------------------------------------------------------------
  // process_light, as a function of the light's data

  /** The flicker and pulse bits removed as configured. */
  function StripFlags(flags: set<EspFlag>, disableFlickering: bool, disablePulse: bool): (r: set<EspFlag>)
    ensures r <= flags
    ensures disableFlickering ==> Flicker !in r && FlickerSlow !in r
    ensures disablePulse ==> Pulse !in r && PulseSlow !in r
    ensures forall f :: f in flags && f !in {Flicker, FlickerSlow, Pulse, PulseSlow} ==> f in r
    ensures !disableFlickering ==> (Flicker in r <==> Flicker in flags) && (FlickerSlow in r <==> FlickerSlow in flags)
    ensures !disablePulse ==> (Pulse in r <==> Pulse in flags) && (PulseSlow in r <==> PulseSlow in flags)
  {
    var f := if disableFlickering then flags - {Flicker, FlickerSlow} else flags;
    if disablePulse then f - {Pulse, PulseSlow} else f
  }

  /** The override of the first entry, in order, whose pattern matches `id`. */
  function FirstOverride(re: RegexEngine, table: seq<(Regex, CustomLightData)>, id: string): (r: Option<CustomLightData>)
  {
    if table == [] then None
    else if Matches(re, table[0].0, id) then Some(table[0].1)
    else FirstOverride(re, table[1..], id)
  }

  /** Only the first matching entry counts: the result comes from entry `i`
      exactly when `i` matches and no entry before it does, and there is none
      when no entry matches. */
  lemma {:induction false} FirstOverrideSpec(re: RegexEngine, table: seq<(Regex, CustomLightData)>, id: string)
    ensures FirstOverride(re, table, id).None? <==> forall i :: 0 <= i < |table| ==> !Matches(re, table[i].0, id)
    ensures FirstOverride(re, table, id).Some? ==>
              exists i :: 0 <= i < |table| && Matches(re, table[i].0, id)
                       && (forall j :: 0 <= j < i ==> !Matches(re, table[j].0, id))
                       && FirstOverride(re, table, id).value == table[i].1
  {
    if table != [] && !Matches(re, table[0].0, id) {
      var rest := table[1..];
      FirstOverrideSpec(re, rest, id);
      if FirstOverride(re, rest, id).Some? {
        var i :| 0 <= i < |rest| && Matches(re, rest[i].0, id)
                 && (forall j :: 0 <= j < i ==> !Matches(re, rest[j].0, id))
                 && FirstOverride(re, rest, id).value == rest[i].1;
        assert table[i + 1] == rest[i];
        assert forall j :: 1 <= j < i + 1 ==> table[j] == rest[j - 1];
      } else {
        assert forall i :: 1 <= i < |table| ==> table[i] == rest[i - 1];
      }
    }
  }

  /** The class-wide multipliers for radius, hue, saturation and value. */
  datatype Globals = Globals(radius: real, hue: real, saturation: real, value: real)

  function GlobalsFor(m: Multipliers, colored: bool): Globals {
    if colored then Globals(m.coloredRadius, m.coloredHue, m.coloredSaturation, m.coloredValue)
    else Globals(m.standardRadius, m.standardHue, m.standardSaturation, m.standardValue)
  }

  /** One channel under an override: its multiplier, else its fixed value,
      else the class-wide multiplier. */
  function Pick(mult: Option<real>, fixed: Option<real>, current: real, global: real): real {
    if mult.Some? then current * mult.value
    else if fixed.Some? then fixed.value
    else current * global
  }

  /** The colour after the transform, in HSV. */
  function NewHsv(hsv: Hsv, o: Option<CustomLightData>, g: Globals): Hsv {
    match o
    case None => Hsv(hsv.hue * g.hue, hsv.saturation * g.saturation, hsv.value * g.value)
    case Some(d) =>
      Hsv(Pick(d.hueMult, if d.hue.Some? then Some(d.hue.value as real) else None, hsv.hue, g.hue),
          Pick(d.saturationMult, d.saturation, hsv.saturation, g.saturation),
          Pick(d.valueMult, d.value, hsv.value, g.value))
  }

  /** The duration after the transform, saturated to `i32` as `as i32` does. */
  function NewTime(time: i32, o: Option<CustomLightData>, durationMult: real): i32 {
    match o
    case None => TruncToI32(time as real * durationMult)
    case Some(d) =>
      if d.durationMult.Some? then TruncToI32(d.durationMult.value * time as real)
      else if d.duration.Some? then TruncToI32(d.duration.value)
      else TruncToI32(time as real * durationMult)
  }

  /** The radius after the transform, saturated to `u32` as `as u32` does. */
  function NewRadius(radius: u32, o: Option<CustomLightData>, g: Globals): u32 {
    match o
    case None => TruncToU32(g.radius * radius as real)
    case Some(d) =>
      if d.radiusMult.Some? then TruncToU32(d.radiusMult.value * radius as real)
      else if d.radius.Some? then d.radius.value
      else TruncToU32(g.radius * radius as real)
  }

  /** The flags after the transform: an override's flag replaces them all. */
  function NewFlags(stripped: set<EspFlag>, o: Option<CustomLightData>): set<EspFlag> {
    if o.Some? && o.value.flag.Some? then ToEspFlag(o.value.flag.value) else stripped
  }

  /** A colour as stored in a plugin, the unused byte zero. */
  function ToRgba(c: Rgb8): (r: Rgba)
    ensures r.alpha == 0
  {
    Rgba(c.red, c.green, c.blue, 0)
  }

  /** `process_light` with a given override (or none). */
  function TransformWith(cfg: LightConfig, cm: ColorModel, o: Option<CustomLightData>, d: LightData): LightData {
    if Negative in d.flags then LightData(d.flags - {Negative}, 0, d.time, Black)
    else
      var stripped := StripFlags(d.flags, cfg.switches.disableFlickering, cfg.switches.disablePulse);
      var (hsv, colored) := LightToHsv(cm, d);
      var g := GlobalsFor(cfg.multipliers, colored);
      LightData(
        NewFlags(stripped, o),
        NewRadius(d.radius, o, g),
        NewTime(d.time, o, cfg.multipliers.durationMult),
        ToRgba(cm.toRgb8(NewHsv(hsv, o, g))))
  }

  /** What `process_light` makes of the data of the light with editor id `id`. */
  function TransformLight(cfg: LightConfig, re: RegexEngine, cm: ColorModel, id: string, d: LightData): LightData {
    TransformWith(cfg, cm, FirstOverride(re, cfg.compiled.lightRegexes, ToAsciiLower(id)), d)
  }

  // ---------------------------------------------------------------------
  // What process_light promises

  /** A negative light is switched off: the negative bit cleared, radius 0,
      colour black, the duration and the other bits kept, nothing else
      applied. */
  lemma NegativeLightSwitchedOff(cfg: LightConfig, re: RegexEngine, cm: ColorModel, id: string, d: LightData)
    requires Negative in d.flags
    ensures var r := TransformLight(cfg, re, cm, id, d);
      && Negative !in r.flags && r.flags == d.flags - {Negative}
      && r.radius == 0 && r.color == Black && r.time == d.time
  {
  }

  /** Any other light leaves with the unused colour byte zero, and the
      flicker and pulse bits stripped as configured unless an override sets
      the flag, which then replaces all the bits. */
  lemma FlagsAfterTransform(cfg: LightConfig, re: RegexEngine, cm: ColorModel, id: string, d: LightData)
    requires Negative !in d.flags
    ensures var r := TransformLight(cfg, re, cm, id, d);
      var o := FirstOverride(re, cfg.compiled.lightRegexes, ToAsciiLower(id));
      && r.color.alpha == 0
      && (o.Some? && o.value.flag.Some? ==> r.flags == ToEspFlag(o.value.flag.value))
      && (!(o.Some? && o.value.flag.Some?) ==>
            r.flags == StripFlags(d.flags, cfg.switches.disableFlickering, cfg.switches.disablePulse))
  {
  }

  /** The colour of a non-negative light after the transform, in HSV, before
      it is converted back to 8-bit RGB. */
  function TransformedHsv(cfg: LightConfig, cm: ColorModel, o: Option<CustomLightData>, d: LightData): Hsv {
    var (hsv, colored) := LightToHsv(cm, d);
    NewHsv(hsv, o, GlobalsFor(cfg.multipliers, colored))
  }

  /** Radius precedence, for a light that is not negative: an override's
      radius multiplier scales the radius (cast as `as u32` does) and decides
      alone, whatever fixed radius the override also carries and whatever
      the configured multipliers are; without one, a fixed radius is taken
      as it is; with neither, the radius is what it would be without any
      override. */
  lemma RadiusPrecedence(cfg: LightConfig, cfg2: LightConfig, cm: ColorModel, o: CustomLightData, o2: CustomLightData, d: LightData)
    requires Negative !in d.flags
    ensures o.radiusMult.Some? ==>
              TransformWith(cfg, cm, Some(o), d).radius == TruncToU32(o.radiusMult.value * d.radius as real)
    ensures o.radiusMult.Some? && o2.radiusMult == o.radiusMult ==>
              TransformWith(cfg, cm, Some(o), d).radius == TransformWith(cfg2, cm, Some(o2), d).radius
    ensures o.radiusMult.None? && o.radius.Some? ==>
              TransformWith(cfg, cm, Some(o), d).radius == o.radius.value
    ensures o.radiusMult.None? && o.radius.None? ==>
              TransformWith(cfg, cm, Some(o), d).radius == TransformWith(cfg, cm, None, d).radius
  {
  }

  /** The transform of a light that is not negative, field by field. */
  lemma TransformParts(cfg: LightConfig, cm: ColorModel, o: Option<CustomLightData>, d: LightData)
    requires Negative !in d.flags
    ensures var g := GlobalsFor(cfg.multipliers, LightToHsv(cm, d).1);
      && TransformWith(cfg, cm, o, d).radius == NewRadius(d.radius, o, g)
      && TransformWith(cfg, cm, o, d).time == NewTime(d.time, o, cfg.multipliers.durationMult)
      && TransformWith(cfg, cm, o, d).color == ToRgba(cm.toRgb8(NewHsv(LightToHsv(cm, d).0, o, g)))
      && TransformWith(cfg, cm, o, d).flags ==
           NewFlags(StripFlags(d.flags, cfg.switches.disableFlickering, cfg.switches.disablePulse), o)
  {
  }

  /** The duration of a light that is not negative after the transform. */
  lemma TransformTime(cfg: LightConfig, cm: ColorModel, o: Option<CustomLightData>, d: LightData)
    ensures Negative !in d.flags ==> TransformWith(cfg, cm, o, d).time == NewTime(d.time, o, cfg.multipliers.durationMult)
  {
  }

  /** The duration rule on its own: an override's multiplier scales the
      duration, whatever the configured multiplier. */
  lemma NewTimeByMult(t: i32, o: Option<CustomLightData>, m: real)
    ensures o.Some? && o.value.durationMult.Some? ==> NewTime(t, o, m) == TruncToI32(o.value.durationMult.value * t as real)
  {
  }

  /** Without an override multiplier, a fixed duration is cast, and with
      neither the configured multiplier applies. */
  lemma NewTimeWithoutMult(t: i32, o: Option<CustomLightData>, m: real)
    requires o.Some? && o.value.durationMult.None?
    ensures o.value.duration.Some? ==> NewTime(t, o, m) == TruncToI32(o.value.duration.value)
    ensures o.value.duration.None? ==> NewTime(t, o, m) == NewTime(t, None, m)
  {
  }

  /** Without any override the configured multiplier scales the duration. */
  lemma NewTimeNone(t: i32, m: real)
    ensures NewTime(t, None, m) == TruncToI32(t as real * m)
  {
  }

  /** Two overrides with the same duration multiplier give the same duration. */
  lemma NewTimeSameMult(t: i32, o: Option<CustomLightData>, o2: Option<CustomLightData>, m: real, m2: real)
    ensures o.Some? && o2.Some? && o.value.durationMult.Some? && o2.value.durationMult == o.value.durationMult ==>
              NewTime(t, o, m) == NewTime(t, o2, m2)
  {
  }

  /** An override's duration multiplier scales the light's duration. */
  lemma TimeByOverrideMult(cfg: LightConfig, cm: ColorModel, o: Option<CustomLightData>, d: LightData)
    requires Negative !in d.flags && o.Some? && o.value.durationMult.Some?
    ensures TransformWith(cfg, cm, o, d).time == TruncToI32(o.value.durationMult.value * d.time as real)
  {
    TransformTime(cfg, cm, o, d);
    NewTimeByMult(d.time, o, cfg.multipliers.durationMult);
  }

  /** With the same duration multiplier, nothing else decides the duration. */
  lemma TimeBySameMult(cfg: LightConfig, cfg2: LightConfig, cm: ColorModel, o: Option<CustomLightData>,
                       o2: Option<CustomLightData>, d: LightData)
    requires Negative !in d.flags && o.Some? && o2.Some?
    requires o.value.durationMult.Some? && o2.value.durationMult == o.value.durationMult
    ensures TransformWith(cfg, cm, o, d).time == TransformWith(cfg2, cm, o2, d).time
  {
    TransformTime(cfg, cm, o, d);
    TransformTime(cfg2, cm, o2, d);
    NewTimeSameMult(d.time, o, o2, cfg.multipliers.durationMult, cfg2.multipliers.durationMult);
  }

  /** Without a duration multiplier, the fixed duration is cast, and without
      either the duration is what no override gives. */
  lemma TimeWithoutOverrideMult(cfg: LightConfig, cm: ColorModel, o: Option<CustomLightData>, d: LightData)
    requires Negative !in d.flags && o.Some? && o.value.durationMult.None?
    ensures o.value.duration.Some? ==> TransformWith(cfg, cm, o, d).time == TruncToI32(o.value.duration.value)
    ensures o.value.duration.None? ==> TransformWith(cfg, cm, o, d).time == TransformWith(cfg, cm, None, d).time
  {
    TransformTime(cfg, cm, o, d);
    TransformTime(cfg, cm, None, d);
    NewTimeWithoutMult(d.time, o, cfg.multipliers.durationMult);
  }

  /** Duration precedence, for a light that is not negative and overrides
      `o` and `o2`: the override's duration multiplier scales the duration
      and decides alone, then its fixed duration, then the configured
      duration multiplier as without an override; each is cast as `as i32`
      does. */
  lemma TimePrecedence(cfg: LightConfig, cfg2: LightConfig, cm: ColorModel, o: Option<CustomLightData>, o2: Option<CustomLightData>, d: LightData)
    requires Negative !in d.flags && o.Some? && o2.Some?
    ensures o.value.durationMult.Some? ==>
              TransformWith(cfg, cm, o, d).time == TruncToI32(o.value.durationMult.value * d.time as real)
    ensures o.value.durationMult.Some? && o2.value.durationMult == o.value.durationMult ==>
              TransformWith(cfg, cm, o, d).time == TransformWith(cfg2, cm, o2, d).time
    ensures o.value.durationMult.None? && o.value.duration.Some? ==>
              TransformWith(cfg, cm, o, d).time == TruncToI32(o.value.duration.value)
    ensures o.value.durationMult.None? && o.value.duration.None? ==>
              TransformWith(cfg, cm, o, d).time == TransformWith(cfg, cm, None, d).time
  {
    if o.value.durationMult.Some? {
      TimeByOverrideMult(cfg, cm, o, d);
      if o2.value.durationMult == o.value.durationMult {
        TimeBySameMult(cfg, cfg2, cm, o, o2, d);
      }
    } else {
      TimeWithoutOverrideMult(cfg, cm, o, d);
    }
  }

  /** The colour is the converted HSV, and each of hue, saturation and value
      follows the same precedence: the override's multiplier scales the
      light's own channel and decides alone, then its fixed value, then the
      class-wide multiplier as without an override. */
  lemma ColorPrecedence(cfg: LightConfig, cfg2: LightConfig, cm: ColorModel, o: CustomLightData, o2: CustomLightData, d: LightData)
    requires Negative !in d.flags
    ensures TransformWith(cfg, cm, Some(o), d).color == ToRgba(cm.toRgb8(TransformedHsv(cfg, cm, Some(o), d)))
    ensures var h, h2, h0 := TransformedHsv(cfg, cm, Some(o), d), TransformedHsv(cfg2, cm, Some(o2), d), TransformedHsv(cfg, cm, None, d);
      var hsv := LightToHsv(cm, d).0;
      && (o.hueMult.Some? ==> h.hue == hsv.hue * o.hueMult.value)
      && (o.saturationMult.Some? ==> h.saturation == hsv.saturation * o.saturationMult.value)
      && (o.valueMult.Some? ==> h.value == hsv.value * o.valueMult.value)
      && (o.hueMult.Some? && o2.hueMult == o.hueMult ==> h.hue == h2.hue)
      && (o.hueMult.None? && o.hue.Some? ==> h.hue == o.hue.value as real)
      && (o.hueMult.None? && o.hue.None? ==> h.hue == h0.hue)
      && (o.saturationMult.Some? && o2.saturationMult == o.saturationMult ==> h.saturation == h2.saturation)
      && (o.saturationMult.None? && o.saturation.Some? ==> h.saturation == o.saturation.value)
      && (o.saturationMult.None? && o.saturation.None? ==> h.saturation == h0.saturation)
      && (o.valueMult.Some? && o2.valueMult == o.valueMult ==> h.value == h2.value)
      && (o.valueMult.None? && o.value.Some? ==> h.value == o.value.value)
      && (o.valueMult.None? && o.value.None? ==> h.value == h0.value)
  {
  }

  /** Without a matching override, a light that is not negative has its
      radius scaled by the radius multiplier of its class (coloured or
      standard) and its duration by the configured duration multiplier,
      each cast as `as u32` and `as i32` do. */
  lemma NoOverrideScalesByClass(cfg: LightConfig, re: RegexEngine, cm: ColorModel, id: string, d: LightData)
    requires Negative !in d.flags
    requires FirstOverride(re, cfg.compiled.lightRegexes, ToAsciiLower(id)).None?
    ensures TransformLight(cfg, re, cm, id, d).time == TruncToI32(d.time as real * cfg.multipliers.durationMult)
    ensures LightToHsv(cm, d).1 ==>
      TransformLight(cfg, re, cm, id, d).radius == TruncToU32(cfg.multipliers.coloredRadius * d.radius as real)
    ensures !LightToHsv(cm, d).1 ==>
      TransformLight(cfg, re, cm, id, d).radius == TruncToU32(cfg.multipliers.standardRadius * d.radius as real)
  {
    NewTimeNone(d.time, cfg.multipliers.durationMult);
    assert TransformLight(cfg, re, cm, id, d) == TransformWith(cfg, cm, None, d);
    TransformParts(cfg, cm, None, d);
  }

  /** Without a matching override, the flags of a light that is not
      negative are only stripped, and its hue, saturation and value are
      scaled by the three multipliers of its class. */
  lemma NoOverrideColorByClass(cfg: LightConfig, re: RegexEngine, cm: ColorModel, id: string, d: LightData)
    requires Negative !in d.flags
    requires FirstOverride(re, cfg.compiled.lightRegexes, ToAsciiLower(id)).None?
    ensures TransformLight(cfg, re, cm, id, d).flags ==
      StripFlags(d.flags, cfg.switches.disableFlickering, cfg.switches.disablePulse)
    ensures TransformLight(cfg, re, cm, id, d).color == ToRgba(cm.toRgb8(TransformedHsv(cfg, cm, None, d)))
    ensures var hsv, m := LightToHsv(cm, d).0, cfg.multipliers;
      LightToHsv(cm, d).1 ==>
        TransformedHsv(cfg, cm, None, d) == Hsv(hsv.hue * m.coloredHue, hsv.saturation * m.coloredSaturation, hsv.value * m.coloredValue)
    ensures var hsv, m := LightToHsv(cm, d).0, cfg.multipliers;
      !LightToHsv(cm, d).1 ==>
        TransformedHsv(cfg, cm, None, d) == Hsv(hsv.hue * m.standardHue, hsv.saturation * m.standardSaturation, hsv.value * m.standardValue)
  {
    assert TransformLight(cfg, re, cm, id, d) == TransformWith(cfg, cm, None, d);
    TransformParts(cfg, cm, None, d);
  }

  /** An override that sets nothing acts exactly like no override at all:
      every channel then falls back to the class-wide multipliers. */
  lemma EmptyOverrideIsNoOverride(cfg: LightConfig, cm: ColorModel, d: LightData)
    ensures TransformWith(cfg, cm, Some(EmptyLightData), d) == TransformWith(cfg, cm, None, d)
  {
    if Negative !in d.flags {
      var (hsv, colored) := LightToHsv(cm, d);
      var g := GlobalsFor(cfg.multipliers, colored);
      assert NewHsv(hsv, Some(EmptyLightData), g) == NewHsv(hsv, None, g);
      assert NewRadius(d.radius, Some(EmptyLightData), g) == NewRadius(d.radius, None, g);
      assert NewTime(d.time, Some(EmptyLightData), cfg.multipliers.durationMult)
          == NewTime(d.time, None, cfg.multipliers.durationMult);
    }
  }

  /** Matching uses the lower-cased id, so ids that differ only in ASCII case
      are transformed alike. */
  lemma TransformIgnoresIdCase(cfg: LightConfig, re: RegexEngine, cm: ColorModel, id: string, d: LightData)
    ensures TransformLight(cfg, re, cm, ToAsciiLower(id), d) == TransformLight(cfg, re, cm, id, d)
  {
    ToAsciiLowerIdempotent(id);
  }

  // ---------------------------------------------------------------------
  // The light record, updated in place

  /** A `tes3::esp::Light`: its editor id and the data `process_light`
      rewrites in place. */
  class Light {
    const id: string
    var flags: set<EspFlag>
    var radius: u32
    var time: i32
    var color: Rgba

    constructor (rec: LightRecord)
      ensures id == rec.id && Data() == rec.data
    {
      id := rec.id;
      flags := rec.data.flags;
      radius := rec.data.radius;
      time := rec.data.time;
      color := rec.data.color;
    }

    function Data(): LightData
      reads this
    {
      LightData(flags, radius, time, color)
    }

    function Record(): LightRecord
      reads this
    {
      LightRecord(id, Data())
    }
  }

  /** The loop of `process_light` that picks the first matching override. */
  method FindOverride(re: RegexEngine, table: seq<(Regex, CustomLightData)>, id: string)
    returns (replacement: Option<CustomLightData>)
    ensures replacement == FirstOverride(re, table, id)
  {
    replacement := None;
    var i := 0;
    while i < |table|
      invariant 0 <= i <= |table|
      invariant FirstOverride(re, table, id) == FirstOverride(re, table[i..], id)
    {
      if Matches(re, table[i].0, id) {
        replacement := Some(table[i].1);
        return;
      }
      assert table[i..][1..] == table[i + 1..];
      i := i + 1;
    }
  }

  /** The hue, saturation and value steps of `process_light` under an
      override. */
  method OverrideHsv(hsv0: Hsv, o: CustomLightData, g: Globals) returns (hsv: Hsv)
    ensures hsv == NewHsv(hsv0, Some(o), g)
  {
    hsv := hsv0;
    if o.hueMult.Some? {
      hsv := hsv.(hue := hsv.hue * o.hueMult.value);
    } else if o.hue.Some? {
      hsv := hsv.(hue := o.hue.value as real);
    } else {
      hsv := hsv.(hue := hsv.hue * g.hue);
    }

    if o.saturationMult.Some? {
      hsv := hsv.(saturation := hsv.saturation * o.saturationMult.value);
    } else if o.saturation.Some? {
      hsv := hsv.(saturation := o.saturation.value);
    } else {
      hsv := hsv.(saturation := hsv.saturation * g.saturation);
    }

    if o.valueMult.Some? {
      hsv := hsv.(value := hsv.value * o.valueMult.value);
    } else if o.value.Some? {
      hsv := hsv.(value := o.value.value);
    } else {
      hsv := hsv.(value := hsv.value * g.value);
    }
  }

  /** The duration step of `process_light` under an override. */
  method OverrideTime(light: Light, o: CustomLightData, durationMult: real)
    modifies light
    ensures light.time == NewTime(old(light.time), Some(o), durationMult)
    ensures light.flags == old(light.flags) && light.radius == old(light.radius) && light.color == old(light.color)
  {
    if o.durationMult.Some? {
      light.time := TruncToI32(o.durationMult.value * light.time as real);
    } else if o.duration.Some? {
      light.time := TruncToI32(o.duration.value);
    } else {
      light.time := TruncToI32(light.time as real * durationMult);
    }
  }

  /** The radius step of `process_light` under an override. */
  method OverrideRadius(light: Light, o: CustomLightData, g: Globals)
    modifies light
    ensures light.radius == NewRadius(old(light.radius), Some(o), g)
    ensures light.flags == old(light.flags) && light.time == old(light.time) && light.color == old(light.color)
  {
    if o.radiusMult.Some? {
      light.radius := TruncToU32(o.radiusMult.value * light.radius as real);
    } else if o.radius.Some? {
      light.radius := o.radius.value;
    } else {
      light.radius := TruncToU32(g.radius * light.radius as real);
    }
  }

  /** The radius and duration steps of `process_light` when no override
      matches. */
  method ScaleByGlobals(light: Light, g: Globals, durationMult: real)
    modifies light
    ensures light.radius == NewRadius(old(light.radius), None, g)
    ensures light.time == NewTime(old(light.time), None, durationMult)
    ensures light.flags == old(light.flags) && light.color == old(light.color)
  {
    light.radius := TruncToU32(g.radius * light.radius as real);
    light.time := TruncToI32(light.time as real * durationMult);
  }

  /** `process_light`. */
  method ProcessLight(cfg: LightConfig, light: Light, re: RegexEngine, cm: ColorModel)
    modifies light
    ensures light.Data() == TransformLight(cfg, re, cm, light.id, old(light.Data()))
  {
    ghost var d := light.Data();
    if Negative in light.flags {
      light.flags := light.flags - {Negative};
      light.radius := 0;
      light.color := Black;
      return;
    }

    if cfg.switches.disableFlickering {
      light.flags := light.flags - {Flicker, FlickerSlow};
    }
    if cfg.switches.disablePulse {
      light.flags := light.flags - {Pulse, PulseSlow};
    }

    var lightId := ToAsciiLower(light.id);
    assert light.color == d.color;
    var (hsv, colored) := LightToHsv(cm, light.Data());
    assert (hsv, colored) == LightToHsv(cm, d);

    var replacement := FindOverride(re, cfg.compiled.lightRegexes, lightId);

    var g := GlobalsFor(cfg.multipliers, colored);
    ghost var hsv0 := hsv;
    ghost var stripped := light.flags;
    assert stripped == StripFlags(d.flags, cfg.switches.disableFlickering, cfg.switches.disablePulse);
    assert light.radius == d.radius && light.time == d.time;

    if replacement.Some? {
      var o := replacement.value;
      hsv := OverrideHsv(hsv, o, g);
      assert hsv == NewHsv(hsv0, replacement, g);

      OverrideTime(light, o, cfg.multipliers.durationMult);
      OverrideRadius(light, o, g);
      assert light.time == NewTime(d.time, replacement, cfg.multipliers.durationMult);
      assert light.radius == NewRadius(d.radius, replacement, g);

      if o.flag.Some? {
        light.flags := ToEspFlag(o.flag.value);
      }
      assert light.flags == NewFlags(stripped, replacement);
    } else {
      hsv := Hsv(hsv.hue * g.hue, hsv.saturation * g.saturation, hsv.value * g.value);
      ScaleByGlobals(light, g, cfg.multipliers.durationMult);
      assert light.flags == NewFlags(stripped, replacement);
      assert light.time == NewTime(d.time, replacement, cfg.multipliers.durationMult);
      assert light.radius == NewRadius(d.radius, replacement, g);
      assert hsv == NewHsv(hsv0, replacement, g);
    }

    light.color := ToRgba(cm.toRgb8(hsv));
    assert light.Data() == TransformWith(cfg, cm, replacement, d);
  }
}
