/** The two record kinds of the `tes3` crate that the fixer reads and writes,
    reduced to the fields it touches. The binary reader and writer are not
    part of this model. */
module Records {
  import opened Wrappers
  import opened Numbers

  /** The bits of `LightFlags`. A flag set is the set of bits that are on. */
  datatype EspFlag =
    | Dynamic | CanCarry | Negative | Flicker | Fire | OffByDefault
    | FlickerSlow | Pulse | PulseSlow

  /** A colour as the plugin stores it: `[u8; 4]`, the last byte unused. */
  datatype Rgba = Rgba(red: u8, green: u8, blue: u8, alpha: u8)

  const Black: Rgba := Rgba(0, 0, 0, 0)

  /** `LightData`: the fields of a light that the fixer changes. */
  datatype LightData = LightData(flags: set<EspFlag>, radius: u32, time: i32, color: Rgba)

  /** A light record: its editor id and its data. */
  datatype LightRecord = LightRecord(id: string, data: LightData)

  /** `AtmosphereData` of an interior cell. */
  datatype AtmosphereData = AtmosphereData(
    ambientColor: Rgba, sunlightColor: Rgba, fogColor: Rgba, fogDensity: real)

  /** An object placed in a cell; only its presence matters here. */
  datatype Reference = Reference(refId: string)

  /** A cell record: its editor id (the cell name), the interior flag, the
      optional atmosphere, the placed references and the optional water height. */
  datatype Cell = Cell(
    id: string, isInterior: bool, atmosphere: Option<AtmosphereData>,
    references: seq<Reference>, waterHeight: Option<real>)
}
