/** The built-in defaults of src/default.rs: the values a configuration field
    takes when neither the configuration file nor the command line sets it. */
module Defaults {

  /** Hue multiplier for standard (orange-ish) lights. */
  function StandardHue(): real { 0.62 }
  function StandardSaturation(): real { 0.8 }
  function StandardValue(): real { 0.57 }
  /** 1.2 since the configurator switched away from the old 2.0. */
  function StandardRadius(): real { 1.2 }

  /** Multipliers for coloured lights. */
  function ColoredHue(): real { 1.0 }
  function ColoredSaturation(): real { 0.9 }
  function ColoredValue(): real { 0.7 }
  function ColoredRadius(): real { 1.1 }

  function DurationMult(): real { 2.5 }

  function DisableFlicker(): bool { true }
  function DisablePulse(): bool { false }
  function SaveLog(): bool { false }
  function AutoEnable(): bool { false }

  /** Plugins known to break the binary parser, excluded out of the box. */
  function ExcludedPlugins(): seq<string> {
    [
      "deleted_groundcover.omwaddon",
      "Clean_Argonian Full Helms Lore Integrated.ESP",
      "Baldurwind.omwaddon",
      "Crassified Navigation.omwaddon",
      "LuaMultiMark.omwaddon",
      "S3maphore.esp",
      "Toolgun.omwaddon"
    ]
  }
}
