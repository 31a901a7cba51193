# Melody custom music — a Dafny model

Melody is a Timberborn mod. It lets players add their own music. At start-up it loads
`MelodyConfig.json`, upgrading or recreating it when needed. It then scans
`CustomMusic/{ForTemperate,ForHazardous,ForBoth}` for `.ogg` files, plus `.mp3` and `.wav`
files when those formats are enabled. One asynchronous decode is launched per file, and each
successful decode adds a clip to the list of its category. Later the host builds the audio
sources of a sound group. The mod then appends its clips to two groups:

- the standard music group (`Music_Game.StandardTrack`) gets temperate-only and both-weather
  clips;
- the drought group (`Music_Game.DroughtTrack`) first gets a copy of the host's standard
  music, then hazardous-only and both-weather clips.

The model has seven modules:

- `Config` (`config.dfy`) holds the settings record, its defaults and `LatestVersion`.
- `Entry` and `ModGameInfo` (`entry.dfy`; two modules in one file) hold `LoadConfig` as a total function from what
  reading the file gave (missing, exception, null, record) to the settings plus the resave
  decision. They also hold `StartMod` with its start-once guard, and the two tokens.
- `Paths` (`paths.dfy`) holds `Path.GetExtension`, `ToLowerInvariant` and the
  `Directory.GetFiles(dir, "*.ext")` filter, on file basenames.
- `Loader` (`loader.dfy`) holds the scan as a method with loops, proved equal to a reference
  worklist. Each decode completion is a transition of the loader state. The completions are
  an arbitrary sequence folded over that state, so the ordering of asynchronous decodes
  becomes a question about sequences.
- `Playlist` (`playlist.dfy`) holds the postfix and `AddCustomTracksToPlaylist` as pure
  functions over the host's `Sounds` fields, the loader state and the settings.
- `Wrappers` (`wrappers.dfy`) holds `Option`, which stands for C# `null`.

The inputs the model takes as parameters are:

- the disk below `CustomMusic`, as `None` or a map from subfolder name to file basenames;
- what reading the settings file gave;
- the outcome of each web request;
- the factory's, clip service's and mixer lookup's answers, as maps.

## Model

| member | source | states |
|---|---|---|
| `Loader.ScanReset` | Scripts/Melody_CustomMusicLoader.cs:20-25 | whatever the prior state, a scan starts with all three lists empty, attempted set and successful cleared |
| `Loader.StartLoadingAllTracksFromFolder` | Scripts/Melody_CustomMusicLoader.cs:18-109 | resets lists and flags; a missing base folder gives no decodes; otherwise the decodes launched are exactly the reference worklist (categories in fixed order, per folder .ogg then enabled .mp3 then enabled .wav); `totalFilesFound` equals the number launched; no launch has an unknown type; the skipped-.ogg warning is never issued |
| `Loader.ScanCategories` | Scripts/Melody_CustomMusicLoader.cs:44-103 | the category loop launches, category by category in scan order, exactly the reference decodes; the files-found total equals the number launched; none has an unknown type; no .ogg warning |
| `Loader.ScanCategory` | Scripts/Melody_CustomMusicLoader.cs:48-66 | a missing category subfolder contributes no decode; an existing one contributes one decode per collected file, counted in the files-found total |
| `Loader.Mp3Support` | Scripts/Melody_CustomMusicLoader.cs:35 | MP3 decoding is off without a configuration and follows the configuration's MP3 switch otherwise |
| `Loader.WavSupport` | Scripts/Melody_CustomMusicLoader.cs:36 | WAV decoding is off without a configuration and follows the configuration's WAV switch otherwise |
| `Loader.AudioTypeForSpec` | Scripts/Melody_CustomMusicLoader.cs:70-90 | a lower-cased extension selects OGGVORBIS exactly when it is .ogg, MPEG exactly when it is .mp3 and MP3 is enabled, WAV exactly when it is .wav and WAV is enabled, and UNKNOWN in every other case |
| `Loader.ClassifyFile` | Scripts/Melody_CustomMusicLoader.cs:68-99 | one file gets a decode exactly when its extension selects a known type, and that decode carries the file, the type and the current category; the skipped-.ogg warning is never issued |
| `Loader.CollectAudioFiles` | Scripts/Melody_CustomMusicLoader.cs:51-61 | the collected list is the .ogg files, then the .mp3 files if enabled, then the .wav files if enabled; a file is collected iff it is in the folder and its extension selects a known type |
| `Loader.DecodableLaunchesTargets` | Scripts/Melody_CustomMusicLoader.cs:92-95 | every decode the inner loop launches has a known type and feeds the list of the category being scanned |
| `Loader.DecodableLaunchesAll` | Scripts/Melody_CustomMusicLoader.cs:68-95 | when every collected file has a known type, the inner loop skips nothing and launches one decode per file in order |
| `Loader.LaunchDecodes` | Scripts/Melody_CustomMusicLoader.cs:68-100 | the loop launches exactly the decodes of the files with a known type, in order; each has a known type and targets the current category; when all collected files are decodable, one decode per file; the .ogg warning branch never fires |
| `Loader.AudioFilesAreDecodable` | Scripts/Melody_CustomMusicLoader.cs:52-90 | the `GetFiles` extension filter and the extension chain agree: every collected file maps to OGGVORBIS, MPEG or WAV, and .ogg always to OGGVORBIS |
| `Loader.OggIsNeverSkipped` | Scripts/Melody_CustomMusicLoader.cs:73-75 | an `.ogg` extension yields OGGVORBIS whatever the MP3/WAV flags are |
| `Loader.AllCategoriesScanned` | Scripts/Melody_CustomMusicLoader.cs:38-103 | the category loop visits ForTemperate, ForHazardous and ForBoth in that order, and its three iterations together launch exactly the reference worklist |
| `Loader.WorklistMembership` | Scripts/Melody_CustomMusicLoader.cs:38-94 | a decode is in the worklist iff its file lies in the existing subfolder of its category, its extension is enabled, and its type is the one its extension selects: each decode targets its own subfolder's list |
| `Loader.OggOnlyWithoutOptionalFormats` | Scripts/Melody_CustomMusicLoader.cs:52-61 | with MP3 and WAV off, the worklist holds only .ogg files decoded as OGGVORBIS, and every .ogg file of an existing subfolder is in it |
| `Loader.NoConfigMeansOggOnly` | Scripts/Melody_CustomMusicLoader.cs:35-36 | without a configuration MP3 and WAV support are both off, so only OGGVORBIS decodes are launched |
| `Loader.Complete` | Scripts/Melody_CustomMusicLoader.cs:111-151 | an empty mod path, a request error or a null clip leaves the state unchanged; a decoded clip is appended, named by the file's basename, to its own category's list only, and sets successful without touching attempted |
| `Loader.RunAppendsContributions` | Scripts/Melody_CustomMusicLoader.cs:137-143 | after any sequence of completions each list is its old contents followed by exactly the clips of the successful completions for that category, in completion order |
| `Loader.RunFlags` | Scripts/Melody_CustomMusicLoader.cs:129-148 | completions never change attempted; successful ends true iff it was true or some completion delivered a clip |
| `Loader.SuccessIsMonotonic` | Scripts/Melody_CustomMusicLoader.cs:142 | once successful is true, no completion makes it false |
| `Loader.ContributionsPermutation` | Scripts/Melody_CustomMusicLoader.cs:94 | the clips delivered to a list depend only on which completions happen, not on their order (as multisets) |
| `Loader.RunOrderIndependent` | Scripts/Melody_CustomMusicLoader.cs:125-143 | two runs of the same completions in different orders leave equal flags and lists that are permutations of each other |
| `Loader.ContributionsPartition` | Scripts/Melody_CustomMusicLoader.cs:137-142 | every delivering completion lands in exactly one of the three lists, and no more clips exist than completions |
| `Loader.ScanThenRun` | Scripts/Melody_CustomMusicLoader.cs:20-143 | after a scan and any completions, each list holds exactly the clips delivered for its category; successful holds iff at least one clip arrived; attempted is true, so successful implies attempted |
| `Loader.MixedSuccessScenario` | Scripts/Melody_CustomMusicLoader.cs:129-143 | two .ogg decodes for ForBoth, one decoded and one failed, leave exactly the good clip in the both-weather list and successful set |
| `Paths.GetExtensionSpec` | Scripts/Melody_CustomMusicLoader.cs:70 | the extension is empty or a suffix of the name that starts with its last '.' and has at least one more character; it is empty exactly when there is no '.' or the name ends in '.' |
| `Paths.ExtensionExamples` | Scripts/Melody_CustomMusicLoader.cs:70 | `Song.OGG` gives `.ogg` once lower-cased, `archive.tar.mp3` gives `.mp3`, and `noext` and `trailing.` give the empty extension |
| `Paths.GetFiles` | Scripts/Melody_CustomMusicLoader.cs:52-60 | a file is listed iff it is in the folder and its lower-cased extension is the requested one |
| `Playlist.CustomTrackVolume` | Scripts/Melody_SoundsPatches.cs:131-138 | the volume is the multiplier clamped to [0, 1] when a configuration exists and 1.0 otherwise; it always lies in [0, 1] |
| `Playlist.VolumeExamples` | Scripts/Melody_SoundsPatches.cs:131-138 | multipliers -1, 0, 0.5, 1 and 5 give volumes 0, 0, 0.5, 1 and 1 |
| `Playlist.CustomMixerGroup` | Scripts/Melody_SoundsPatches.cs:140-147 | a custom entry gets a mixer group exactly when the factory and its mixer lookup exist and the lookup knows the token, and then it is the lookup's group for the token |
| `Playlist.NewCustomSource` | Scripts/Melody_SoundsPatches.cs:125-147 | the entry for a custom clip plays that clip, does not loop or play on awake, is not spatial, has the clamped volume and the token's mixer group |
| `Playlist.AppendClips` | Scripts/Melody_SoundsPatches.cs:117-151 | the loop appends exactly the reference entries of the non-null clips, in order, after the existing entries |
| `Playlist.AddCustomTracksToPlaylist` | Scripts/Melody_SoundsPatches.cs:109-151 | a null list adds nothing; otherwise one entry per non-null clip in list order, each playing that clip with loop and playOnAwake false, spatialBlend 0, the clamped volume and the token's mixer group; existing entries are kept as a prefix |
| `Playlist.AddLoaderTracks` | Scripts/Melody_SoundsPatches.cs:75-78 | passing a loader list appends exactly one reference entry per clip of that list |
| `Playlist.PrepareNative` | Scripts/Melody_SoundsPatches.cs:59-64 | a copied standard source keeps its clip, volume and playOnAwake, stops looping and is not spatial; it keeps the mixer group the factory gave it, and only when it has none takes the lookup's group for the drought token |
| `Playlist.NativeCopies` | Scripts/Melody_SoundsPatches.cs:49-73 | at most one copied entry per standard clip name, each non-looping and non-spatial |
| `Playlist.NativeCopiesMembership` | Scripts/Melody_SoundsPatches.cs:53-69 | an entry is copied iff it comes from a non-empty standard clip name for which the factory returns a source |
| `Playlist.DroughtList` | Scripts/Melody_SoundsPatches.cs:45-84 | the drought branch keeps the old list and the native copies as a prefix, and adds nothing more unless loading was attempted and succeeded |
| `Playlist.StandardList` | Scripts/Melody_SoundsPatches.cs:85-98 | the standard branch keeps the old list as a prefix, and leaves it as it is unless loading was attempted and succeeded |
| `Playlist.DroughtListContents` | Scripts/Melody_SoundsPatches.cs:45-84 | the drought branch leaves the old list, the native copies, then the hazardous-only and both-weather entries when loading has succeeded |
| `Playlist.StandardListContents` | Scripts/Melody_SoundsPatches.cs:85-98 | the standard branch leaves the old list, then the temperate-only and both-weather entries when loading has succeeded |
| `Playlist.AugmentedList` | Scripts/Melody_SoundsPatches.cs:38-98 | the token's list (a fresh empty one if missing) is only ever extended |
| `Playlist.CreateAudioSourcesPostfix` | Scripts/Melody_SoundsPatches.cs:14-99 | any other token, or any essential component null, leaves everything unchanged; otherwise only the token's list changes, it is registered if it was missing, and the old entries stay as a prefix |
| `Playlist.StandardGetsTemperateAndBoth` | Scripts/Melody_SoundsPatches.cs:85-98 | the standard list gains exactly the temperate-only then both-weather entries when attempted and successful, nothing otherwise, and never a clip outside those two lists |
| `Playlist.DroughtGetsNativesHazardousAndBoth` | Scripts/Melody_SoundsPatches.cs:45-84 | the drought list gains the native standard copies first, whether or not loading succeeded, then the hazardous-only and both-weather entries only when attempted and successful |
| `Playlist.DroughtReadyList` | Scripts/Melody_SoundsPatches.cs:45-78 | once loading has succeeded, the drought token's list is the old list, the native copies, the hazardous-only entries and the both-weather entries, in that order |
| `Playlist.DroughtNeverGetsTemperateOnly` | Scripts/Melody_SoundsPatches.cs:75-78 | every custom entry the drought list gains plays a hazardous-only or both-weather clip |
| `Playlist.DroughtGetsEveryBothTrack` | Scripts/Melody_SoundsPatches.cs:75-78 | once loading has succeeded, the drought list plays every both-weather clip |
| `Playlist.ColdRaceDrought` | Scripts/Melody_SoundsPatches.cs:75-83 | attempted but not yet successful: the drought list is the old list plus the native copies, with no custom entry |
| `Entry.Upgrade` | Scripts/Melody_Entry.cs:65-76 | an outdated record is brought to the latest version with its volume multiplier unchanged; below version 1, MP3 is switched on and WAV off |
| `Entry.ReadConfigFile` | Scripts/Melody_Entry.cs:57-90 | the file/try/catch block always leaves a record of at least the latest version; it asks for a resave iff the file was not a current parsed record; a missing, unreadable or null file gives the defaults; a current record is kept; a parsed record keeps its multiplier |
| `Entry.LoadConfig` | Scripts/Melody_Entry.cs:55-110 | the result always has version at least the latest; resave iff the file was not a current parsed record; a write is attempted iff resave, with the final record; missing, unreadable or null gives the defaults; a current record is kept as it is; the multiplier of a parsed record is kept |
| `Entry.NullGuardIsDead` | Scripts/Melody_Entry.cs:59-96 | every path of the try block leaves a record behind, so the null check after it never fires |
| `Entry.ReloadAfterSaveIsStable` | Scripts/Melody_Entry.cs:57-110 | reading back what was written gives the same settings and no further write |
| `Entry.DefaultConfig` | Scripts/MelodyConfig.cs:8-20 | `LATEST_VERSION` is 1; defaults are the latest version, multiplier 1.0, MP3 on, WAV off; loading the defaults changes nothing and writes nothing |
| `Entry.StartMod` | Scripts/Melody_Entry.cs:23-48 | records the mod path, reloads the settings, and only when no loader object exists creates one and starts its scan with the just-loaded settings |
| `Entry.LoaderStartsOnce` | Scripts/Melody_Entry.cs:40-47 | however often StartMod is called, the loader is created and started exactly once, by the first call, with that call's worklist |
| `Entry.LaterStartsChangeNoLoader` | Scripts/Melody_Entry.cs:40-47 | once the loader object exists, further StartMod calls leave the loader, its worklist and the scan count alone |
| `Entry.ScanSeesLoadedConfig` | Scripts/Melody_Entry.cs:27-46 | the scan started by StartMod reads the MP3/WAV switches of the record just loaded |
| `ModGameInfo.TokensDistinct` | Scripts/Melody_Entry.cs:118-119 | the drought and standard tokens are different strings |

## Notes on the code

- A new scan clears the success flag (`Melody_CustomMusicLoader.cs:25`), so the flag is
  monotonic only between scans (`Loader.SuccessIsMonotonic`).
- The warning for skipped `.ogg` files is dead code: `.ogg` always maps to OGGVORBIS
  (`Loader.OggIsNeverSkipped`, and the `skippedOggWarnings == 0` postcondition).
- The postfix returns before adding anything when the mixer lookup is missing
  (`Melody_SoundsPatches.cs:30-35`). `AddCustomTracksToPlaylist` on its own still handles a
  missing lookup by leaving the entry without a mixer group (`Playlist.CustomMixerGroup`).
- A configuration that parses to null is dereferenced inside the `try`
  (`Melody_Entry.cs:65`), so it reaches the `catch` branch. The null check after the block is
  dead (`Entry.NullGuardIsDead`). The outcome is still the defaults with a resave.
- The loader treats a missing configuration as "MP3 and WAV off". `StartMod` always loads a
  configuration before the scan, so that case never arises on start-up
  (`Entry.ScanSeesLoadedConfig`).

## Left out

- Unity coroutines, `UnityWebRequest` and `DownloadHandlerAudioClip` are not modelled. Each
  decode is an outcome event (request error, null content, decoded clip). Completions may
  come in any order.
- Filesystem calls (`Directory.Exists`, `Directory.GetFiles`, `File.ReadAllText`,
  `File.WriteAllText`), path combining and URI building are not modelled. The disk is an
  input. A write is the `saveAttempt` field, and a failing write changes nothing the model
  tracks.
- `Loader.StartLoadingAllTracksFromFolder`: always returns the whole reference worklist. In
  the source `Directory.GetFiles` (`Melody_CustomMusicLoader.cs:52,56,60`) sits outside any
  `try`. An unreadable or vanished subfolder throws: the earlier categories have already
  launched their decodes, the later ones are never scanned, and the exception leaves
  `StartMod` (`Melody_Entry.cs:46`) after `_modInstanceObject` was set (`:42`), so no later
  call rescans. The disk is a map that is always readable, so this failure is not modelled.
- `Loader.StartLoadingAllTracksFromFolder`: a subfolder is found by exact name
  (`SubfolderName(c) in dir`). `Directory.Exists` (`Melody_CustomMusicLoader.cs:49`) ignores
  case on Windows and macOS, so `forboth` would also be scanned there; that is not modelled.
- `Paths.GetFiles`: matches extensions case-insensitively and exactly. The
  .NET Framework rule where `*.ogg` also matches longer extensions such as `.oggx` is not
  modelled. File names are basenames without directory separators.
- `Paths.ToLowerInvariant`: lower-cases ASCII letters only, not full Unicode case mapping.
- JSON parsing and serialisation (`JsonUtility`) are opaque. What a read gives is an input,
  and the file read back after a write is assumed to be the record written.
- Harmony patching, the empty `GetRandomSound` postfix and `Scripts/Melody_Harmony_Patch.cs`
  are not modelled. That file only toggles a weather flag nothing here reads.
- `AudioSource`/`GameObject` creation (`AddComponent`, the `audioSourceRoot` argument) and
  the mixer-group lookup are opaque handles and maps.
- Logging and timestamps are not modelled. That includes `LogCustomMusicLoadingStatus`,
  which only logs.
- `Playlist.CustomTrackVolume`: floats are reals, so NaN and rounding of
  `1.0f * multiplier` are not modelled.
- A null `ModDirectoryPath` is not modelled. `Path.Combine` would throw in `LoadConfig`; only
  the empty path is modelled.
- The model does not cover a rescan while decodes are still in flight. The source keeps the
  same list objects, so late completions land in the cleared lists; in the model they are
  simply further completions on the current state. Real concurrency does not arise: all of
  this runs on Unity's main thread.
- Calling the postfix twice on the same destination list appends twice. This is modelled as
  written, and nothing makes it idempotent.
