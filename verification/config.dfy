/** The persisted settings of the mod (class MelodyConfig). */
module Config {

  /** Current layout version of the settings file. */
  const LatestVersion: int := 1

  /** One settings record; the multiplier is a C# float, modelled as a real. */
  datatype MelodyConfig = MelodyConfig(
    configVersion: int,
    globalCustomTrackVolumeMultiplier: real,
    enableMp3Support: bool,
    enableWavSupport: bool)

  /** The record the parameterless constructor builds. */
  function Default(): MelodyConfig
  {
    MelodyConfig(LatestVersion, 1.0, true, false)
  }

  /** True when the record predates the current layout and must be upgraded. */
  predicate IsOutdated(c: MelodyConfig)
  {
    c.configVersion < LatestVersion
  }
}
