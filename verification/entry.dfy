/** The two sound-group names the mod reacts to (class ModGameInfo). */
module ModGameInfo {

  /** The playlist the host builds for drought (hazardous-weather) music. */
  const DroughtTrackName: string := "Music_Game.DroughtTrack"

  /** The playlist the host builds for ordinary (temperate) music. */
  const StandardMusicGroupKey: string := "Music_Game.StandardTrack"

  /** The two tokens can never be confused with each other. */
  lemma TokensDistinct()
    ensures DroughtTrackName != StandardMusicGroupKey
  {
  }
}

/** The mod's start-up (class ModEntry): loading and upgrading the settings file, and
    starting the loader once. */
module Entry {
  import opened Wrappers
  import opened Config
  import opened Loader

  /** What reading MelodyConfig.json gives: no file; an exception while reading or
      parsing it; a parse that yields null; or a parsed record. */
  datatype ConfigFile = Missing | ReadFailed | ParsedNull | Parsed(parsed: MelodyConfig)

  /** The settings the mod runs with, whether they must be written back, and the record
      handed to the write when one is attempted. */
  datatype LoadedConfig = LoadedConfig(config: MelodyConfig, needsResave: bool, saveAttempt: Option<MelodyConfig>)

  /** Bring an outdated record to the current layout. Records from before version 1
      have MP3 support switched on and WAV support switched off. */
  function Upgrade(c: MelodyConfig): (r: MelodyConfig)
    requires IsOutdated(c)
    ensures r.configVersion == LatestVersion
    ensures r.globalCustomTrackVolumeMultiplier == c.globalCustomTrackVolumeMultiplier
    ensures c.configVersion < 1 ==> r.enableMp3Support && !r.enableWavSupport
    ensures c.configVersion >= 1 ==> r.enableMp3Support == c.enableMp3Support && r.enableWavSupport == c.enableWavSupport
  {
    var migrated := if c.configVersion < 1 then c.(enableMp3Support := true, enableWavSupport := false) else c;
    migrated.(configVersion := LatestVersion)
  }

  /** The file/try/catch block of LoadConfig: the record it leaves in CurrentConfig
      (None for null) and the resave flag. A parsed null is dereferenced by the version
      check inside the try, so it lands in the catch like any other exception. */
  function ReadConfigFile(file: ConfigFile): (r: (Option<MelodyConfig>, bool))
    ensures r.0.Some? && r.0.value.configVersion >= LatestVersion
    ensures r.1 <==> !(file.Parsed? && !IsOutdated(file.parsed))
    ensures !file.Parsed? ==> r.0 == Some(Default())
    ensures file.Parsed? && !IsOutdated(file.parsed) ==> r.0 == Some(file.parsed)
    ensures file.Parsed? ==> r.0.value.globalCustomTrackVolumeMultiplier == file.parsed.globalCustomTrackVolumeMultiplier
  {
    match file
    case Missing => (Some(Default()), true)
    case ReadFailed => (Some(Default()), true)
    case ParsedNull => (Some(Default()), true)
    case Parsed(c) => if IsOutdated(c) then (Some(Upgrade(c)), true) else (Some(c), false)
  }

  /** LoadConfig: fall back to the defaults when there is no usable record, upgrade an
      outdated one, and write the result back exactly when something changed. */
  function LoadConfig(file: ConfigFile): (r: LoadedConfig)
    ensures r.config.configVersion >= LatestVersion
    ensures r.needsResave <==> !(file.Parsed? && !IsOutdated(file.parsed))
    ensures r.saveAttempt.Some? <==> r.needsResave
    ensures r.saveAttempt.Some? ==> r.saveAttempt.value == r.config
    ensures !file.Parsed? ==> r.config == Default()
    ensures file.Parsed? && !IsOutdated(file.parsed) ==> r.config == file.parsed
    ensures file.Parsed? ==> r.config.globalCustomTrackVolumeMultiplier == file.parsed.globalCustomTrackVolumeMultiplier
    ensures file.Parsed? && file.parsed.configVersion < 1 ==>
      r.config.enableMp3Support && !r.config.enableWavSupport && r.config.configVersion == LatestVersion
  {
    var (current, needsResave) := ReadConfigFile(file);
    var (config, resave) := if current.None? then (Default(), true) else (current.value, needsResave);
    LoadedConfig(config, resave, if resave then Some(config) else None)
  }

  /** The null check after the try block never fires: every path of the block leaves a
      record behind. */
  lemma NullGuardIsDead(file: ConfigFile)
    ensures ReadConfigFile(file).0.Some?
  {
  }

  /** Reading back the record LoadConfig wrote gives the same settings and no further
      write: loading is idempotent once the file is current. */
  lemma ReloadAfterSaveIsStable(file: ConfigFile)
    ensures var first := LoadConfig(file);
      LoadConfig(Parsed(first.config)) == LoadedConfig(first.config, false, None)
  {
  }

  /** The defaults: current version, full volume, MP3 on, WAV off; loading them changes
      nothing and writes nothing. */
  lemma DefaultConfig()
    ensures LatestVersion == 1
    ensures Default().configVersion == LatestVersion
    ensures Default().globalCustomTrackVolumeMultiplier == 1.0
    ensures Default().enableMp3Support && !Default().enableWavSupport
    ensures LoadConfig(Parsed(Default())) == LoadedConfig(Default(), false, None)
  {
  }

  // ---------------------------------------------------------------------------
  // StartMod
  // ---------------------------------------------------------------------------

  /** What the host hands to StartMod, and what the disk holds at that moment. */
  datatype ModEnvironment = ModEnvironment(modPath: string, configFile: ConfigFile, customMusic: CustomMusicDir)

  /** The static state StartMod touches: ModInfo, the loader object, the loader's fields
      and the decodes it launched. */
  datatype ModSession = ModSession(
    modDirectoryPath: string,
    currentConfig: Option<MelodyConfig>,
    loaderCreated: bool,
    loader: LoaderState,
    launched: seq<Candidate>,
    scansStarted: nat)

  /** The process before the host has called StartMod. */
  const Boot := ModSession("", None, false, Unloaded, [], 0)

  /** StartMod: record the mod path, (re)load the settings, and create and start the
      loader only if no loader object exists yet. */
  function StartMod(s: ModSession, env: ModEnvironment): (r: ModSession)
    ensures r.modDirectoryPath == env.modPath
    ensures r.currentConfig == Some(LoadConfig(env.configFile).config)
    ensures r.loaderCreated
    ensures s.loaderCreated ==> r.loader == s.loader && r.launched == s.launched && r.scansStarted == s.scansStarted
    ensures !s.loaderCreated ==>
      && r.scansStarted == s.scansStarted + 1
      && (forall c :: r.loader.Tracks(c) == [])
      && r.loader.isLoadingAttempted && !r.loader.isLoadingSuccessful
      && r.launched == ExpectedWorklist(env.customMusic, r.currentConfig)
  {
    var config := Some(LoadConfig(env.configFile).config);
    var s1 := s.(modDirectoryPath := env.modPath, currentConfig := config);
    if s1.loaderCreated then s1
    else
      s1.(loaderCreated := true,
          loader := ScanReset(s1.loader),
          launched := ExpectedWorklist(env.customMusic, config),
          scansStarted := s1.scansStarted + 1)
  }

  /** The state after the host has called StartMod once per environment, in order. */
  function StartModRepeatedly(s: ModSession, envs: seq<ModEnvironment>): ModSession
    decreases |envs|
  {
    if envs == [] then s
    else StartModRepeatedly(StartMod(s, envs[0]), envs[1..])
  }

  /** However often the host calls StartMod, the loader is created and its scan started
      at most once, by the first call, with the worklist of that call's disk contents. */
  lemma {:induction false} LoaderStartsOnce(envs: seq<ModEnvironment>)
    ensures var r := StartModRepeatedly(Boot, envs);
      && r.scansStarted == (if envs == [] then 0 else 1)
      && r.loaderCreated == (envs != [])
      && (envs != [] ==> r.launched == ExpectedWorklist(envs[0].customMusic, Some(LoadConfig(envs[0].configFile).config)))
  {
    if envs != [] {
      LaterStartsChangeNoLoader(StartMod(Boot, envs[0]), envs[1..]);
    }
  }

  lemma {:induction false} LaterStartsChangeNoLoader(s: ModSession, envs: seq<ModEnvironment>)
    requires s.loaderCreated
    ensures var r := StartModRepeatedly(s, envs);
      r.loaderCreated && r.scansStarted == s.scansStarted && r.loader == s.loader && r.launched == s.launched
    decreases |envs|
  {
    if envs != [] {
      LaterStartsChangeNoLoader(StartMod(s, envs[0]), envs[1..]);
    }
  }

  /** The scan StartMod launches always sees the settings just loaded, never a missing
      configuration, so its MP3/WAV switches are the loaded record's. */
  lemma ScanSeesLoadedConfig(s: ModSession, env: ModEnvironment)
    ensures var r := StartMod(s, env);
      && Mp3Support(r.currentConfig) == LoadConfig(env.configFile).config.enableMp3Support
      && WavSupport(r.currentConfig) == LoadConfig(env.configFile).config.enableWavSupport
  {
  }
}
