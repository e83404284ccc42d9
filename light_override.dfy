/** Per-light overrides (src/light_override.rs): the `key=value,...` text
    syntax given on the command line, the `LightFlag` names, and the check
    applied when an override is read from the configuration file. */
module Overrides {
  import opened Wrappers
  import opened Numbers
  import opened Text
  import opened Records

  datatype ParseLightError =
    | ExclusiveFields(existing: string, rejected: string)
    | BadPair(pair: string)
    | UnknownField(key: string)
    | BadNumber(field: string)
    | MissingPrefix
    | UnknownVariant(variant: string)

  /** The flag an override may force on a light; the names are those the
      configuration file uses. */
  datatype LightFlag = FLICKERSLOW | FLICKER | PULSE | PULSESLOW | NONE

  /** `CustomLightData`: for each channel an optional fixed value and an
      optional multiplier, plus an optional flag. */
  datatype CustomLightData = CustomLightData(
    hue: Option<u32>, hueMult: Option<real>,
    saturation: Option<real>, saturationMult: Option<real>,
    value: Option<real>, valueMult: Option<real>,
    radius: Option<u32>, radiusMult: Option<real>,
    duration: Option<real>, durationMult: Option<real>,
    flag: Option<LightFlag>)

  /** `CustomLightData::default()`: nothing set. */
  const EmptyLightData: CustomLightData :=
    CustomLightData(None, None, None, None, None, None, None, None, None, None, None)

  /** A colour given as hue (degrees), saturation and value. */
  datatype HsvSetting = HsvSetting(hue: u32, saturation: real, value: real)

  /** `CustomCellAmbient`, the payload of an ambient override. Its definition
      lies outside the modelled files; the fields are those the merge loop
      reads. */
  datatype CustomCellAmbient = CustomCellAmbient(
    ambient: Option<HsvSetting>, sunlight: Option<HsvSetting>,
    fog: Option<HsvSetting>, fogDensity: Option<real>)

  /** The five channels, each with a fixed form and a multiplier form. */
  datatype Channel = HueChannel | SaturationChannel | ValueChannel | RadiusChannel | DurationChannel

  function FixedKey(ch: Channel): string {
    match ch
    case HueChannel => "hue"
    case SaturationChannel => "saturation"
    case ValueChannel => "value"
    case RadiusChannel => "radius"
    case DurationChannel => "duration"
  }

  function MultKey(ch: Channel): string {
    match ch
    case HueChannel => "hue_mult"
    case SaturationChannel => "saturation_mult"
    case ValueChannel => "value_mult"
    case RadiusChannel => "radius_mult"
    case DurationChannel => "duration_mult"
  }

  predicate HasFixed(d: CustomLightData, ch: Channel) {
    match ch
    case HueChannel => d.hue.Some?
    case SaturationChannel => d.saturation.Some?
    case ValueChannel => d.value.Some?
    case RadiusChannel => d.radius.Some?
    case DurationChannel => d.duration.Some?
  }

  predicate HasMult(d: CustomLightData, ch: Channel) {
    match ch
    case HueChannel => d.hueMult.Some?
    case SaturationChannel => d.saturationMult.Some?
    case ValueChannel => d.valueMult.Some?
    case RadiusChannel => d.radiusMult.Some?
    case DurationChannel => d.durationMult.Some?
  }

  /** A channel's multiplier, if one is set. */
  function MultOf(d: CustomLightData, ch: Channel): Option<real> {
    match ch
    case HueChannel => d.hueMult
    case SaturationChannel => d.saturationMult
    case ValueChannel => d.valueMult
    case RadiusChannel => d.radiusMult
    case DurationChannel => d.durationMult
  }

  /** A channel's fixed value, if one is set; the whole-number hue and
      radius read as reals. */
  function FixedOf(d: CustomLightData, ch: Channel): Option<real> {
    match ch
    case HueChannel => if d.hue.Some? then Some(d.hue.value as real) else None
    case SaturationChannel => d.saturation
    case ValueChannel => d.value
    case RadiusChannel => if d.radius.Some? then Some(d.radius.value as real) else None
    case DurationChannel => d.duration
  }

  /** No channel has both a fixed value and a multiplier. */
  predicate Exclusive(d: CustomLightData) {
    forall ch: Channel :: !(HasFixed(d, ch) && HasMult(d, ch))
  }

  /** Fixed hue lies in [0, 360], fixed saturation and value in [0, 1]. */
  predicate Clamped(d: CustomLightData) {
    && (d.hue.Some? ==> d.hue.value <= 360)
    && (d.saturation.Some? ==> 0.0 <= d.saturation.value <= 1.0)
    && (d.value.Some? ==> 0.0 <= d.value.value <= 1.0)
  }

  /** `str::parse::<f32>` is library code; the caller supplies it. */
  type FloatParser = string -> Option<real>

  // ---------------------------------------------------------------------
  // LightFlag

  /** `LightFlag::from_str`: the five names, ignoring ASCII case. */
  function ParseLightFlag(s: string): (r: Result<LightFlag, ParseLightError>)
    ensures r.Err? ==> r.error == UnknownVariant(s)
  {
    var l := ToAsciiLower(s);
    if l == "flicker" then Ok(FLICKER)
    else if l == "flickerslow" then Ok(FLICKERSLOW)
    else if l == "pulse" then Ok(PULSE)
    else if l == "pulseslow" then Ok(PULSESLOW)
    else if l == "none" then Ok(NONE)
    else Err(UnknownVariant(s))
  }

  /** The lower-case word each variant is spelled with on the command line. */
  function FlagWord(f: LightFlag): string {
    match f
    case FLICKER => "flicker"
    case FLICKERSLOW => "flickerslow"
    case PULSE => "pulse"
    case PULSESLOW => "pulseslow"
    case NONE => "none"
  }

  /** Parsing ignores ASCII case, and the accepted words are exactly the five
      variant words; each parses to its own variant. */
  lemma ParseLightFlagSpec(s: string)
    ensures ParseLightFlag(ToAsciiLower(s)).Ok? == ParseLightFlag(s).Ok?
    ensures ParseLightFlag(s).Ok? ==> ParseLightFlag(ToAsciiLower(s)).value == ParseLightFlag(s).value
    ensures ParseLightFlag(s).Ok? <==> exists f: LightFlag :: ToAsciiLower(s) == FlagWord(f)
    ensures ParseLightFlag(s).Ok? ==> FlagWord(ParseLightFlag(s).value) == ToAsciiLower(s)
  {
    ToAsciiLowerIdempotent(s);
    if ParseLightFlag(s).Ok? {
      var f := ParseLightFlag(s).value;
      assert ToAsciiLower(s) == FlagWord(f);
    }
  }

  /** `LightFlag::to_esp_flag`: each variant sets its own single bit; NONE
      clears them all. */
  function ToEspFlag(f: LightFlag): (r: set<EspFlag>)
    ensures |r| <= 1
    ensures r == {} <==> f == NONE
    ensures r <= {Flicker, FlickerSlow, Pulse, PulseSlow}
    ensures Flicker in r <==> f == FLICKER
    ensures FlickerSlow in r <==> f == FLICKERSLOW
    ensures Pulse in r <==> f == PULSE
    ensures PulseSlow in r <==> f == PULSESLOW
  {
    match f
    case FLICKER => {Flicker}
    case FLICKERSLOW => {FlickerSlow}
    case PULSE => {Pulse}
    case PULSESLOW => {PulseSlow}
    case NONE => {}
  }

  /** Different variants give different flag sets. */
  lemma ToEspFlagInjective(f: LightFlag, g: LightFlag)
    requires ToEspFlag(f) == ToEspFlag(g)
    ensures f == g
  {
  }

  // ---------------------------------------------------------------------
  // The text syntax

  /** The keys the text syntax knows. */
  datatype Field = Fixed(ch: Channel) | Mult(ch: Channel) | FlagField

  function FieldName(f: Field): string {
    match f
    case Fixed(ch) => FixedKey(ch)
    case Mult(ch) => MultKey(ch)
    case FlagField => "flag"
  }

  /** The field a key names, if any: the arms of the key `match` in
      `CustomLightData::from_str`. */
  function FieldOf(k: string): (r: Option<Field>)
    ensures r.Some? ==> FieldName(r.value) == k
  {
    if k == "radius_mult" then Some(Mult(RadiusChannel))
    else if k == "hue_mult" then Some(Mult(HueChannel))
    else if k == "saturation_mult" then Some(Mult(SaturationChannel))
    else if k == "value_mult" then Some(Mult(ValueChannel))
    else if k == "duration_mult" then Some(Mult(DurationChannel))
    else if k == "duration" then Some(Fixed(DurationChannel))
    else if k == "radius" then Some(Fixed(RadiusChannel))
    else if k == "hue" then Some(Fixed(HueChannel))
    else if k == "saturation" then Some(Fixed(SaturationChannel))
    else if k == "value" then Some(Fixed(ValueChannel))
    else if k == "flag" then Some(FlagField)
    else None
  }

  /** Keys are spelled with lower-case ASCII letters and '_'. */
  predicate IsKeyChar(c: char) {
    'a' <= c <= 'z' || c == '_'
  }

  /** Every key is a non-empty word of key characters, so it holds no '=',
      no ',' and no whitespace. */
  lemma KeyShape(f: Field)
    ensures FieldName(f) != []
    ensures forall i :: 0 <= i < |FieldName(f)| ==> IsKeyChar(FieldName(f)[i])
  {
    match f
    case Fixed(ch) =>
      match ch {
        case HueChannel =>
        case SaturationChannel =>
        case ValueChannel =>
        case RadiusChannel =>
        case DurationChannel =>
      }
    case Mult(ch) =>
      match ch {
        case HueChannel =>
        case SaturationChannel =>
        case ValueChannel =>
        case RadiusChannel =>
        case DurationChannel =>
      }
    case FlagField =>
  }

  /** Every field is reached by its own name, so the eleven names are
      distinct and none of them is an unknown field. */
  lemma FieldOfName(f: Field)
    ensures FieldOf(FieldName(f)) == Some(f)
  {
    match f
    case Fixed(ch) =>
      match ch {
        case HueChannel =>
        case SaturationChannel =>
        case ValueChannel =>
        case RadiusChannel =>
        case DurationChannel =>
      }
    case Mult(ch) =>
    case FlagField =>
  }

  /** The field reported by `BadNumber` when a multiplier does not parse;
      for two of the five it is the name of the fixed field instead. */
  function MultLabel(ch: Channel): string {
    match ch
    case RadiusChannel => "radius"
    case HueChannel => "hue"
    case SaturationChannel => "saturation"
    case ValueChannel => "value_mult"
    case DurationChannel => "duration_mult"
  }

  /** Set a channel's multiplier, leaving every other field alone. */
  function WithMult(d: CustomLightData, ch: Channel, x: real): (r: CustomLightData)
    ensures forall c: Channel :: HasFixed(r, c) == HasFixed(d, c)
    ensures forall c: Channel :: HasMult(r, c) == (c == ch || HasMult(d, c))
    ensures MultOf(r, ch) == Some(x)
    ensures forall c: Channel :: c != ch ==> MultOf(r, c) == MultOf(d, c)
    ensures r.hue == d.hue && r.saturation == d.saturation && r.value == d.value
    ensures r.radius == d.radius && r.duration == d.duration && r.flag == d.flag
  {
    match ch
    case HueChannel => d.(hueMult := Some(x))
    case SaturationChannel => d.(saturationMult := Some(x))
    case ValueChannel => d.(valueMult := Some(x))
    case RadiusChannel => d.(radiusMult := Some(x))
    case DurationChannel => d.(durationMult := Some(x))
  }

  /** Parse and set a channel's fixed value: hue and radius are whole
      numbers, hue clamped to [0, 360]; saturation and value are clamped to
      [0, 1]; the duration is kept as given. */
  function SetFixed(d: CustomLightData, ch: Channel, v: string, parseFloat: FloatParser)
    : (r: Result<CustomLightData, ParseLightError>)
    ensures r.Err? ==> r.error == BadNumber(FixedKey(ch))
    ensures r.Ok? ==> forall c: Channel :: HasMult(r.value, c) == HasMult(d, c)
    ensures r.Ok? ==> forall c: Channel :: HasFixed(r.value, c) == (c == ch || HasFixed(d, c))
    ensures r.Ok? && Clamped(d) ==> Clamped(r.value)
    ensures r.Ok? ==> r.value.flag == d.flag
    ensures r.Ok? ==> forall c: Channel :: MultOf(r.value, c) == MultOf(d, c)
    ensures r.Ok? ==> forall c: Channel :: c != ch ==> FixedOf(r.value, c) == FixedOf(d, c)
    ensures ch == HueChannel ==>
              (r.Ok? <==> ParseU32(v).Some?) && (r.Ok? ==> r.value.hue == Some(ClampU32(ParseU32(v).value, 360)))
    ensures ch == RadiusChannel ==>
              (r.Ok? <==> ParseU32(v).Some?) && (r.Ok? ==> r.value.radius == ParseU32(v))
    ensures ch == SaturationChannel ==>
              (r.Ok? <==> parseFloat(v).Some?) && (r.Ok? ==> r.value.saturation == Some(ClampUnit(parseFloat(v).value)))
    ensures ch == ValueChannel ==>
              (r.Ok? <==> parseFloat(v).Some?) && (r.Ok? ==> r.value.value == Some(ClampUnit(parseFloat(v).value)))
    ensures ch == DurationChannel ==>
              (r.Ok? <==> parseFloat(v).Some?) && (r.Ok? ==> r.value.duration == parseFloat(v))
  {
    match ch
    case HueChannel =>
      (match ParseU32(v)
       case None => Err(BadNumber("hue"))
       case Some(n) => Ok(d.(hue := Some(ClampU32(n, 360)))))
    case RadiusChannel =>
      (match ParseU32(v)
       case None => Err(BadNumber("radius"))
       case Some(n) => Ok(d.(radius := Some(n))))
    case SaturationChannel =>
      (match parseFloat(v)
       case None => Err(BadNumber("saturation"))
       case Some(x) => Ok(d.(saturation := Some(ClampUnit(x)))))
    case ValueChannel =>
      (match parseFloat(v)
       case None => Err(BadNumber("value"))
       case Some(x) => Ok(d.(value := Some(ClampUnit(x)))))
    case DurationChannel =>
      (match parseFloat(v)
       case None => Err(BadNumber("duration"))
       case Some(x) => Ok(d.(duration := Some(x))))
  }

  /** The body of the closure `CustomLightData::from_str` hands to
      `parse_pairs`: set the field named `k` from the text `v`. A fixed value
      and its multiplier refuse each other, whichever comes second, before
      the value is looked at. */
  function SetLightField(data: CustomLightData, k: string, v: string, parseFloat: FloatParser)
    : (r: Result<CustomLightData, ParseLightError>)
    ensures r.Ok? && Exclusive(data) ==> Exclusive(r.value)
    ensures r.Ok? && Clamped(data) ==> Clamped(r.value)
    ensures FieldOf(k).None? ==> r == Err(UnknownField(k))
    ensures FieldOf(k).Some? && FieldOf(k).value.Mult? && !HasFixed(data, FieldOf(k).value.ch) ==>
              && (r.Ok? <==> parseFloat(v).Some?)
              && (r.Err? ==> r.error == BadNumber(MultLabel(FieldOf(k).value.ch)))
              && (r.Ok? ==> r.value == WithMult(data, FieldOf(k).value.ch, parseFloat(v).value))
    ensures FieldOf(k).Some? && FieldOf(k).value.Fixed? && !HasMult(data, FieldOf(k).value.ch) ==>
              r == SetFixed(data, FieldOf(k).value.ch, v, parseFloat)
    ensures FieldOf(k) == Some(FlagField) ==>
              && (r.Ok? <==> ParseLightFlag(v).Ok?)
              && (r.Err? ==> r.error == UnknownVariant(v))
              && (r.Ok? ==> r.value == WithFlag(data, ParseLightFlag(v).value))
  {
    match FieldOf(k)
    case None => Err(UnknownField(k))
    case Some(Mult(ch)) =>
      if HasFixed(data, ch) then Err(ExclusiveFields(FixedKey(ch), MultKey(ch)))
      else (match parseFloat(v)
            case None => Err(BadNumber(MultLabel(ch)))
            case Some(x) => Ok(WithMult(data, ch, x)))
    case Some(Fixed(ch)) =>
      if HasMult(data, ch) then Err(ExclusiveFields(MultKey(ch), FixedKey(ch)))
      else SetFixed(data, ch, v, parseFloat)
    case Some(FlagField) =>
      (match ParseLightFlag(v)
       case Err(e) => Err(e)
       case Ok(f) => Ok(WithFlag(data, f)))
  }

  /** Force a flag, leaving every channel alone. */
  function WithFlag(d: CustomLightData, f: LightFlag): (r: CustomLightData)
    ensures forall c: Channel :: HasFixed(r, c) == HasFixed(d, c) && HasMult(r, c) == HasMult(d, c)
    ensures r.hue == d.hue && r.saturation == d.saturation && r.value == d.value
    ensures r.flag == Some(f)
  {
    d.(flag := Some(f))
  }

  /** How `SetLightField` treats one channel: its fixed key sets the fixed
      value, its multiplier key the multiplier, every accepted key keeps what
      was already set, and the second form of a channel is refused with both
      names, the one already set first. */
  lemma SetLightFieldChannel(d: CustomLightData, k: string, v: string, pf: FloatParser, ch: Channel)
    ensures SetLightField(d, k, v, pf).Ok? && k == FixedKey(ch) ==> HasFixed(SetLightField(d, k, v, pf).value, ch)
    ensures SetLightField(d, k, v, pf).Ok? && k == MultKey(ch) ==> HasMult(SetLightField(d, k, v, pf).value, ch)
    ensures SetLightField(d, k, v, pf).Ok? && HasFixed(d, ch) ==> HasFixed(SetLightField(d, k, v, pf).value, ch)
    ensures SetLightField(d, k, v, pf).Ok? && HasMult(d, ch) ==> HasMult(SetLightField(d, k, v, pf).value, ch)
    ensures HasFixed(d, ch) && k == MultKey(ch) ==> SetLightField(d, k, v, pf) == Err(ExclusiveFields(FixedKey(ch), MultKey(ch)))
    ensures HasMult(d, ch) && k == FixedKey(ch) ==> SetLightField(d, k, v, pf) == Err(ExclusiveFields(MultKey(ch), FixedKey(ch)))
  {
    if k == FixedKey(ch) {
      FieldOfName(Fixed(ch));
    } else if k == MultKey(ch) {
      FieldOfName(Mult(ch));
    }
  }

  /** The setter closure, as a function value. */
  function Setter(pf: FloatParser): (CustomLightData, string, string) -> Result<CustomLightData, ParseLightError> {
    (d: CustomLightData, k: string, v: string) => SetLightField(d, k, v, pf)
  }

  /** What `parse_pairs` does with one comma-separated segment: nothing when
      it is blank, `BadPair` when it has no '=', otherwise the setter applied
      to the trimmed key and value on either side of the first '='. */
  function PairStep<S>(state: S, segment: string, setField: (S, string, string) -> Result<S, ParseLightError>)
    : Result<S, ParseLightError>
  {
    if Trim(segment) == [] then Ok(state)
    else match SplitOnce(segment, '=')
      case None => Err(BadPair(segment))
      case Some(kv) => setField(state, Trim(kv.0), Trim(kv.1))
  }

  /** The segments taken in order, stopping at the first error. */
  function FoldPairs<S>(segments: seq<string>, state: S, setField: (S, string, string) -> Result<S, ParseLightError>)
    : Result<S, ParseLightError>
  {
    if segments == [] then Ok(state)
    else match PairStep(state, segments[0], setField)
      case Err(e) => Err(e)
      case Ok(next) => FoldPairs(segments[1..], next, setField)
  }

  /** `parse_pairs`: split on ',', skip blank segments, split each other one at
      its first '=' and hand the trimmed key and value to the setter. The closure's
      captured state is threaded through explicitly. */
  method ParsePairs<S>(s: string, init: S, setField: (S, string, string) -> Result<S, ParseLightError>)
    returns (r: Result<S, ParseLightError>)
    ensures r == FoldPairs(Split(s, ','), init, setField)
  {
    var segments := Split(s, ',');
    var state := init;
    var i := 0;
    while i < |segments|
      invariant 0 <= i <= |segments|
      invariant FoldPairs(segments, init, setField) == FoldPairs(segments[i..], state, setField)
    {
      var pair := segments[i];
      assert segments[i..][0] == pair && segments[i..][1..] == segments[i + 1..];
      if Trim(pair) != [] {
        var kv := SplitOnce(pair, '=');
        if kv.None? {
          return Err(BadPair(pair));
        }
        var res := setField(state, Trim(kv.value.0), Trim(kv.value.1));
        if res.Err? {
          return Err(res.error);
        }
        state := res.value;
      }
      i := i + 1;
    }
    return Ok(state);
  }

  /** The keys of the well-formed pairs among `segments`. */
  function PairKeys(segments: seq<string>): set<string> {
    if segments == [] then {}
    else
      var rest := PairKeys(segments[1..]);
      if Trim(segments[0]) == [] then rest
      else match SplitOnce(segments[0], '=')
        case None => rest
        case Some(kv) => {Trim(kv.0)} + rest
  }

  /** What `CustomLightData::from_str` computes. */
  function LightDataFromStr(s: string, pf: FloatParser): Result<CustomLightData, ParseLightError> {
    FoldPairs(Split(s, ','), EmptyLightData, Setter(pf))
  }

  /** `CustomLightData::from_str`. */
  method FromStr(s: string, pf: FloatParser) returns (r: Result<CustomLightData, ParseLightError>)
    ensures r == LightDataFromStr(s, pf)
    ensures r.Ok? ==> Exclusive(r.value) && Clamped(r.value)
  {
    r := ParsePairs(s, EmptyLightData, Setter(pf));
    FoldKeepsValid(Split(s, ','), EmptyLightData, pf);
  }

  /** Folding the setter over any segments keeps an override exclusive and
      clamped. */
  lemma {:induction false} FoldKeepsValid(segments: seq<string>, d: CustomLightData, pf: FloatParser)
    requires Exclusive(d) && Clamped(d)
    ensures FoldPairs(segments, d, Setter(pf)).Ok? ==>
              Exclusive(FoldPairs(segments, d, Setter(pf)).value) && Clamped(FoldPairs(segments, d, Setter(pf)).value)
  {
    if segments != [] {
      var step := PairStep(d, segments[0], Setter(pf));
      if step.Ok? {
        FoldKeepsValid(segments[1..], step.value, pf);
      }
    }
  }

  /** Pairs are taken strictly in order: the result over `a + b` is the
      result over `a`, continued over `b`. */
  lemma {:induction false} FoldPairsAppend<S>(a: seq<string>, b: seq<string>, st: S, setField: (S, string, string) -> Result<S, ParseLightError>)
    ensures FoldPairs(a + b, st, setField) == Continue(FoldPairs(a, st, setField), b, setField)
  {
    if a == [] {
      assert a + b == b;
    } else {
      assert (a + b)[0] == a[0] && (a + b)[1..] == a[1..] + b;
      var step := PairStep(st, a[0], setField);
      if step.Ok? {
        FoldPairsAppend(a[1..], b, step.value, setField);
      }
    }
  }

  /** Carry on over `b` from the outcome of an earlier fold. */
  function Continue<S>(prefix: Result<S, ParseLightError>, b: seq<string>, setField: (S, string, string) -> Result<S, ParseLightError>)
    : Result<S, ParseLightError>
  {
    match prefix
    case Err(e) => Err(e)
    case Ok(mid) => FoldPairs(b, mid, setField)
  }

  /** The first segment that fails decides the error, and parsing stops
      there: a segment with no '=' gives `BadPair`, an unknown key gives
      `UnknownField`, a bad number gives `BadNumber`, whatever follows. */
  lemma FirstFailureStops<S>(pre: seq<string>, seg: string, post: seq<string>, st: S, mid: S,
                             setField: (S, string, string) -> Result<S, ParseLightError>)
    requires FoldPairs(pre, st, setField) == Ok(mid)
    requires PairStep(mid, seg, setField).Err?
    ensures FoldPairs(pre + [seg] + post, st, setField) == Err(PairStep(mid, seg, setField).error)
  {
    FoldPairsAppend(pre, [seg] + post, st, setField);
    assert pre + [seg] + post == pre + ([seg] + post);
  }

  /** Parsing the remaining keys is bound to meet both forms of `ch`. */
  predicate Clash(d: CustomLightData, keys: set<string>, ch: Channel) {
    || (HasFixed(d, ch) && MultKey(ch) in keys)
    || (HasMult(d, ch) && FixedKey(ch) in keys)
    || (FixedKey(ch) in keys && MultKey(ch) in keys)
  }

  /** A pair that is accepted leaves the clash pending for the pairs after
      it. */
  lemma StepKeepsClash(d: CustomLightData, k: string, v: string, pf: FloatParser, ch: Channel, rest: set<string>)
    requires Clash(d, {k} + rest, ch)
    requires SetLightField(d, k, v, pf).Ok?
    ensures Clash(SetLightField(d, k, v, pf).value, rest, ch)
  {
    SetLightFieldChannel(d, k, v, pf, ch);
    assert FixedKey(ch) != MultKey(ch);
  }

  /** A fixed value and a multiplier for the same channel are never resolved
      silently: once either is set, a later pair naming the other fails. */
  lemma {:induction false} FoldRejectsBoth(segments: seq<string>, d: CustomLightData, pf: FloatParser, ch: Channel)
    requires Clash(d, PairKeys(segments), ch)
    ensures FoldPairs(segments, d, Setter(pf)).Err?
  {
    var seg := segments[0];
    var rest := segments[1..];
    if Trim(seg) == [] {
      FoldRejectsBoth(rest, d, pf, ch);
    } else if SplitOnce(seg, '=').Some? {
      var kv := SplitOnce(seg, '=').value;
      var k, v := Trim(kv.0), Trim(kv.1);
      assert PairKeys(segments) == {k} + PairKeys(rest);
      var step := SetLightField(d, k, v, pf);
      assert PairStep(d, seg, Setter(pf)) == step;
      if step.Ok? {
        StepKeepsClash(d, k, v, pf, ch, PairKeys(rest));
        FoldRejectsBoth(rest, step.value, pf, ch);
      }
    }
  }

  /** Giving a channel both a fixed value and a multiplier, in either order,
      makes the whole override text fail to parse. */
  lemma FixedAndMultRejected(s: string, pf: FloatParser, ch: Channel)
    requires FixedKey(ch) in PairKeys(Split(s, ','))
    requires MultKey(ch) in PairKeys(Split(s, ','))
    ensures LightDataFromStr(s, pf).Err?
  {
    FoldRejectsBoth(Split(s, ','), EmptyLightData, pf, ch);
  }

  /** A text holding a single `key=value` pair with a known key parses
      exactly as that one field set on the empty override: the value is
      trimmed, and any error is the setter's. */
  lemma SinglePairOverride(k: string, v: string, pf: FloatParser)
    requires FieldOf(k).Some? && ',' !in v
    ensures LightDataFromStr(k + "=" + v, pf) == SetLightField(EmptyLightData, k, Trim(v), pf)
  {
    var s := k + "=" + v;
    SinglePairSegment(k, v);
    assert Split(s, ',') == [s];
    var step := PairStep(EmptyLightData, s, Setter(pf));
    assert Trim(s) != [];
    assert SplitOnce(s, '=') == Some((k, v));
    assert step == SetLightField(EmptyLightData, Trim(k), Trim(v), pf);
    assert step == SetLightField(EmptyLightData, k, Trim(v), pf);
    assert FoldPairs([s], EmptyLightData, Setter(pf)) == step;
  }

  /** The segment `key=value` on its own: one piece, not blank, split at
      the '=' after the key, which trims to itself. */
  lemma SinglePairSegment(k: string, v: string)
    requires FieldOf(k).Some? && ',' !in v
    ensures Split(k + "=" + v, ',') == [k + "=" + v]
    ensures Trim(k + "=" + v) != []
    ensures SplitOnce(k + "=" + v, '=') == Some((k, v))
    ensures Trim(k) == k
  {
    KeyShape(FieldOf(k).value);
    assert '=' !in k && ',' !in k && forall i :: 0 <= i < |k| ==> !IsWhitespace(k[i]) by {
      assert forall i :: 0 <= i < |k| ==> IsKeyChar(k[i]);
    }
    var s := k + "=" + v;
    assert s == k + ['='] + v;
    assert ',' !in s by {
      forall i | 0 <= i < |s| ensures s[i] != ',' {
        if i < |k| { assert s[i] == k[i]; } else if i > |k| { assert s[i] == v[i - |k| - 1]; }
      }
    }
    SplitWithoutSeparator(s, ',');
    assert !IsWhitespace(s[0]) by { assert s[0] == k[0]; }
    TrimSpec(s);
    SplitOnceAt(k, v, '=');
    TrimUnchanged(k);
  }

  /** `parse_light_override`: `id=settings`, split at the first '='. */
  method ParseLightOverride(s: string, pf: FloatParser) returns (r: Result<(string, CustomLightData), ParseLightError>)
    ensures '=' !in s ==> r == Err(BadPair(s))
    ensures '=' in s ==> var kv := SplitOnce(s, '=').value;
              match LightDataFromStr(kv.1, pf)
              case Err(e) => r == Err(e)
              case Ok(d) => r == Ok((kv.0, d))
    ensures r.Ok? ==> s == r.value.0 + "=" + (s[|r.value.0| + 1..]) && '=' !in r.value.0
    ensures r.Ok? ==> Exclusive(r.value.1) && Clamped(r.value.1)
  {
    var kv := SplitOnce(s, '=');
    if kv.None? {
      return Err(BadPair(s));
    }
    var parsed := FromStr(kv.value.1, pf);
    if parsed.Err? {
      return Err(parsed.error);
    }
    r := Ok((kv.value.0, parsed.value));
    assert s[|kv.value.0| + 1..] == kv.value.1;
  }

  // ---------------------------------------------------------------------
  // Reading an override from the configuration file

  /** The fields as the configuration file spells them, before any check. */
  datatype RawCustomLightData = RawCustomLightData(
    hue: Option<u32>, hueMult: Option<real>,
    saturation: Option<real>, saturationMult: Option<real>,
    value: Option<real>, valueMult: Option<real>,
    radius: Option<u32>, radiusMult: Option<real>,
    duration: Option<real>, durationMult: Option<real>,
    flag: Option<LightFlag>)

  datatype DeError = MutuallyExclusive(field: string, mult: string)

  function ClampHue(h: Option<u32>): Option<u32> {
    match h
    case None => None
    case Some(x) => Some(ClampU32(x, 360))
  }

  function ClampUnitOpt(x: Option<real>): Option<real> {
    match x
    case None => None
    case Some(y) => Some(ClampUnit(y))
  }

  /** `Deserialize for CustomLightData`: refuse a channel given both ways
      (checked hue, saturation, value, radius, duration in that order), then
      clamp the fixed colour values. */
  function Deserialize(raw: RawCustomLightData): (r: Result<CustomLightData, DeError>)
    ensures r.Ok? <==> Exclusive(Unchecked(raw))
    ensures r.Ok? ==> Exclusive(r.value) && Clamped(r.value)
    ensures r.Ok? ==> r.value == Unchecked(raw).(hue := ClampHue(raw.hue),
                                                 saturation := ClampUnitOpt(raw.saturation),
                                                 value := ClampUnitOpt(raw.value))
    ensures r.Err? ==> exists ch: Channel :: r.error == MutuallyExclusive(FixedKey(ch), MultKey(ch))
                                            && HasFixed(Unchecked(raw), ch) && HasMult(Unchecked(raw), ch)
  {
    if raw.hue.Some? && raw.hueMult.Some? then
      var r := Err(MutuallyExclusive("hue", "hue_mult"));
      assert r.error == MutuallyExclusive(FixedKey(HueChannel), MultKey(HueChannel));
      assert HasFixed(Unchecked(raw), HueChannel) && HasMult(Unchecked(raw), HueChannel);
      r
    else if raw.saturation.Some? && raw.saturationMult.Some? then
      var r := Err(MutuallyExclusive("saturation", "saturation_mult"));
      assert r.error == MutuallyExclusive(FixedKey(SaturationChannel), MultKey(SaturationChannel));
      assert HasFixed(Unchecked(raw), SaturationChannel) && HasMult(Unchecked(raw), SaturationChannel);
      r
    else if raw.value.Some? && raw.valueMult.Some? then
      var r := Err(MutuallyExclusive("value", "value_mult"));
      assert r.error == MutuallyExclusive(FixedKey(ValueChannel), MultKey(ValueChannel));
      assert HasFixed(Unchecked(raw), ValueChannel) && HasMult(Unchecked(raw), ValueChannel);
      r
    else if raw.radius.Some? && raw.radiusMult.Some? then
      var r := Err(MutuallyExclusive("radius", "radius_mult"));
      assert r.error == MutuallyExclusive(FixedKey(RadiusChannel), MultKey(RadiusChannel));
      assert HasFixed(Unchecked(raw), RadiusChannel) && HasMult(Unchecked(raw), RadiusChannel);
      r
    else if raw.duration.Some? && raw.durationMult.Some? then
      var r := Err(MutuallyExclusive("duration", "duration_mult"));
      assert r.error == MutuallyExclusive(FixedKey(DurationChannel), MultKey(DurationChannel));
      assert HasFixed(Unchecked(raw), DurationChannel) && HasMult(Unchecked(raw), DurationChannel);
      r
    else
      Ok(CustomLightData(
        ClampHue(raw.hue), raw.hueMult,
        ClampUnitOpt(raw.saturation), raw.saturationMult,
        ClampUnitOpt(raw.value), raw.valueMult,
        raw.radius, raw.radiusMult,
        raw.duration, raw.durationMult,
        raw.flag))
  }

  /** The same fields, taken unchecked. */
  function Unchecked(raw: RawCustomLightData): CustomLightData {
    CustomLightData(raw.hue, raw.hueMult, raw.saturation, raw.saturationMult,
                    raw.value, raw.valueMult, raw.radius, raw.radiusMult,
                    raw.duration, raw.durationMult, raw.flag)
  }

  /** The derived `Serialize`: every field written as it is. */
  function Serialize(d: CustomLightData): RawCustomLightData {
    RawCustomLightData(d.hue, d.hueMult, d.saturation, d.saturationMult,
                       d.value, d.valueMult, d.radius, d.radiusMult,
                       d.duration, d.durationMult, d.flag)
  }

  /** An override that is exclusive and clamped survives being written to the
      configuration file and read back unchanged. */
  lemma DeserializeSerialize(d: CustomLightData)
    requires Exclusive(d) && Clamped(d)
    ensures Deserialize(Serialize(d)) == Ok(d)
  {
    assert Unchecked(Serialize(d)) == d;
  }

  /** Every override the command-line syntax accepts also passes the check
      the configuration file applies, and is stored unchanged: saving it and
      reading it back yields the same override. */
  lemma CommandLineOverrideSurvivesSave(s: string, pf: FloatParser)
    requires LightDataFromStr(s, pf).Ok?
    ensures Deserialize(Serialize(LightDataFromStr(s, pf).value)) == Ok(LightDataFromStr(s, pf).value)
  {
    FoldKeepsValid(Split(s, ','), EmptyLightData, pf);
    DeserializeSerialize(LightDataFromStr(s, pf).value);
  }
}
