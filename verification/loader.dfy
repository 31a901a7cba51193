/** The custom-music loader (class CustomMusicLoader): the scan that resets the three
    category lists and builds the decode worklist, and the completion of each decode
    as a transition of the loader state. Decodes finish in an order nobody controls,
    so their completions are an arbitrary sequence folded over the state. */
module Loader {
  import opened Wrappers
  import opened Config
  import opened Paths

  /** The applicability category of a track; one subfolder and one list each. */
  datatype Category = TemperateOnly | HazardousOnly | Both

  /** The order in which the scan visits the categories. */
  const CategoryOrder: seq<Category> := [TemperateOnly, HazardousOnly, Both]

  function SubfolderName(c: Category): string
  {
    match c
    case TemperateOnly => "ForTemperate"
    case HazardousOnly => "ForHazardous"
    case Both => "ForBoth"
  }

  /** The decode type handed to the web request; Unknown means "do not decode". */
  datatype AudioType = Unknown | OggVorbis | Mpeg | Wav

  /** Opaque handle of a decoded AudioClip. */
  type Asset = nat

  /** A decoded clip, named after the basename of its file. */
  datatype Clip = Clip(name: string, asset: Asset)

  /** The static fields of the loader: three clip lists and two session flags. */
  datatype LoaderState = LoaderState(
    loadedTemperateOnlyTracks: seq<Clip>,
    loadedHazardousOnlyTracks: seq<Clip>,
    loadedBothTracks: seq<Clip>,
    isLoadingAttempted: bool,
    isLoadingSuccessful: bool)
  {
    /** The list a category's decodes append to. */
    function Tracks(c: Category): seq<Clip>
    {
      match c
      case TemperateOnly => loadedTemperateOnlyTracks
      case HazardousOnly => loadedHazardousOnlyTracks
      case Both => loadedBothTracks
    }

    function WithTracks(c: Category, tracks: seq<Clip>): (s: LoaderState)
      ensures s.Tracks(c) == tracks
      ensures forall d :: d != c ==> s.Tracks(d) == Tracks(d)
      ensures s.isLoadingAttempted == isLoadingAttempted
      ensures s.isLoadingSuccessful == isLoadingSuccessful
    {
      match c
      case TemperateOnly => this.(loadedTemperateOnlyTracks := tracks)
      case HazardousOnly => this.(loadedHazardousOnlyTracks := tracks)
      case Both => this.(loadedBothTracks := tracks)
    }
  }

  /** The loader before any scan: the static initialisers. */
  const Unloaded := LoaderState([], [], [], false, false)

  /** The contents of the CustomMusic folder: None when it does not exist, otherwise
      each existing subfolder's name mapped to its file basenames in enumeration order. */
  type CustomMusicDir = Option<map<string, seq<string>>>

  /** One launched decode: the file, the type it is decoded as, and the list it feeds. */
  datatype Candidate = Candidate(fileName: string, audioType: AudioType, category: Category)

  /** MP3 and WAV decoding are off unless a configuration says otherwise. */
  function Mp3Support(config: Option<MelodyConfig>): (r: bool)
    ensures config.None? ==> !r
    ensures config.Some? ==> (r <==> config.value.enableMp3Support)
  {
    config.Some? && config.value.enableMp3Support
  }

  function WavSupport(config: Option<MelodyConfig>): (r: bool)
    ensures config.None? ==> !r
    ensures config.Some? ==> (r <==> config.value.enableWavSupport)
  {
    config.Some? && config.value.enableWavSupport
  }

  /** The extension-to-decode-type chain of the scan, on a lower-cased extension. */
  function AudioTypeFor(extension: string, mp3Support: bool, wavSupport: bool): (r: AudioType)
  {
    if extension == ".ogg" then OggVorbis
    else if extension == ".mp3" then (if mp3Support then Mpeg else Unknown)
    else if extension == ".wav" then (if wavSupport then Wav else Unknown)
    else Unknown
  }

  /** Which decode type each extension selects: OGGVORBIS for .ogg, MPEG for .mp3 and WAV
      for .wav when those formats are enabled, and nothing else. */
  lemma AudioTypeForSpec(extension: string, mp3Support: bool, wavSupport: bool)
    ensures AudioTypeFor(extension, mp3Support, wavSupport) == OggVorbis <==> extension == ".ogg"
    ensures AudioTypeFor(extension, mp3Support, wavSupport) == Mpeg <==> extension == ".mp3" && mp3Support
    ensures AudioTypeFor(extension, mp3Support, wavSupport) == Wav <==> extension == ".wav" && wavSupport
  {
  }

  /** The files of one subfolder the scan collects: every .ogg, then the .mp3 files if
      enabled, then the .wav files if enabled. */
  function AudioFiles(files: seq<string>, mp3Support: bool, wavSupport: bool): seq<string>
  {
    GetFiles(files, ".ogg")
    + (if mp3Support then GetFiles(files, ".mp3") else [])
    + (if wavSupport then GetFiles(files, ".wav") else [])
  }

  /** The files collected for one category; a missing subfolder contributes none. */
  function CategoryFiles(dir: map<string, seq<string>>, c: Category, mp3Support: bool, wavSupport: bool): seq<string>
  {
    if SubfolderName(c) in dir then AudioFiles(dir[SubfolderName(c)], mp3Support, wavSupport) else []
  }

  function Launch(file: string, c: Category, mp3Support: bool, wavSupport: bool): Candidate
  {
    Candidate(file, AudioTypeFor(LowerExtension(file), mp3Support, wavSupport), c)
  }

  /** Reference worklist of one category: one decode per collected file, in order. */
  function Launches(files: seq<string>, c: Category, mp3Support: bool, wavSupport: bool): (r: seq<Candidate>)
    ensures |r| == |files|
  {
    seq(|files|, i requires 0 <= i < |files| => Launch(files[i], c, mp3Support, wavSupport))
  }

  /** The decodes of the first `k` categories in scan order. */
  function LaunchesUpTo(dir: map<string, seq<string>>, k: nat, mp3Support: bool, wavSupport: bool): seq<Candidate>
    requires k <= |CategoryOrder|
  {
    if k == 0 then []
    else
      var c := CategoryOrder[k - 1];
      LaunchesUpTo(dir, k - 1, mp3Support, wavSupport) + Launches(CategoryFiles(dir, c, mp3Support, wavSupport), c, mp3Support, wavSupport)
  }

  /** Reference definition of the whole worklist of a scan. */
  function ExpectedWorklist(dir: CustomMusicDir, config: Option<MelodyConfig>): seq<Candidate>
  {
    if dir.None? then []
    else
      var mp3 := Mp3Support(config);
      var wav := WavSupport(config);
      Launches(CategoryFiles(dir.value, TemperateOnly, mp3, wav), TemperateOnly, mp3, wav)
      + Launches(CategoryFiles(dir.value, HazardousOnly, mp3, wav), HazardousOnly, mp3, wav)
      + Launches(CategoryFiles(dir.value, Both, mp3, wav), Both, mp3, wav)
  }

  /** The state right after a scan has begun. */
  function ScanReset(prior: LoaderState): (s: LoaderState)
    ensures forall c :: s.Tracks(c) == []
    ensures s.isLoadingAttempted && !s.isLoadingSuccessful
  {
    LoaderState([], [], [], true, false)
  }

  /** Every file the scan collects is given a real decode type: the extension filter of
      Directory.GetFiles and the extension chain agree. */
  lemma AudioFilesAreDecodable(files: seq<string>, mp3Support: bool, wavSupport: bool, f: string)
    requires f in AudioFiles(files, mp3Support, wavSupport)
    ensures AudioTypeFor(LowerExtension(f), mp3Support, wavSupport) != Unknown
    ensures LowerExtension(f) == ".ogg" ==> AudioTypeFor(LowerExtension(f), mp3Support, wavSupport) == OggVorbis
  {
    if f in GetFiles(files, ".ogg") {
    } else if mp3Support && f in GetFiles(files, ".mp3") {
    } else {
      assert wavSupport && f in GetFiles(files, ".wav");
    }
  }

  lemma LaunchesSnoc(files: seq<string>, j: nat, c: Category, mp3Support: bool, wavSupport: bool)
    requires j < |files|
    ensures Launches(files[..j + 1], c, mp3Support, wavSupport)
         == Launches(files[..j], c, mp3Support, wavSupport) + [Launch(files[j], c, mp3Support, wavSupport)]
  {
    assert files[..j + 1] == files[..j] + [files[j]];
  }

  /** An .ogg file always has a decode type, so the scan's warning for a skipped .ogg
      file can never be issued. */
  lemma OggIsNeverSkipped(extension: string, mp3Support: bool, wavSupport: bool)
    ensures extension == ".ogg" ==> AudioTypeFor(extension, mp3Support, wavSupport) == OggVorbis
  {
  }

  /** Every collected file of a category has a decode type. */
  predicate AllDecodable(files: seq<string>, mp3Support: bool, wavSupport: bool)
  {
    forall i :: 0 <= i < |files| ==> AudioTypeFor(LowerExtension(files[i]), mp3Support, wavSupport) != Unknown
  }

  /** The body of the scan's inner loop for one collected file: classify its extension,
      and launch a decode when it has a decode type; otherwise warn if it is an .ogg
      file. That warning is never issued. */
  method ClassifyFile(fullFilePath: string, category: Category, mp3Support: bool, wavSupport: bool)
    returns (launch: Option<Candidate>, warned: bool)
    ensures launch.Some? <==> AudioTypeFor(LowerExtension(fullFilePath), mp3Support, wavSupport) != Unknown
    ensures launch.Some? ==> launch.value == Launch(fullFilePath, category, mp3Support, wavSupport)
    ensures !warned
  {
    var extension := LowerExtension(fullFilePath);
    var audioTypeToLoad := AudioTypeFor(extension, mp3Support, wavSupport);
    OggIsNeverSkipped(extension, mp3Support, wavSupport);
    launch, warned := None, false;
    if audioTypeToLoad != Unknown {
      launch := Some(Candidate(fullFilePath, audioTypeToLoad, category));
    } else if extension == ".ogg" {
      warned := true;
    }
  }

  /** Reference definition of the inner loop: one decode per file that has a decode
      type, in order; files without one are skipped. */
  function DecodableLaunches(files: seq<string>, c: Category, mp3Support: bool, wavSupport: bool): (r: seq<Candidate>)
    ensures |r| <= |files|
    decreases |files|
  {
    if files == [] then []
    else
      var last := Launch(files[|files| - 1], c, mp3Support, wavSupport);
      DecodableLaunches(files[..|files| - 1], c, mp3Support, wavSupport) + (if last.audioType != Unknown then [last] else [])
  }

  /** Every decode of the reference has a real type and targets the category. */
  lemma {:induction false} DecodableLaunchesTargets(files: seq<string>, c: Category, mp3Support: bool, wavSupport: bool)
    ensures forall i :: 0 <= i < |DecodableLaunches(files, c, mp3Support, wavSupport)| ==>
      && DecodableLaunches(files, c, mp3Support, wavSupport)[i].audioType != Unknown
      && DecodableLaunches(files, c, mp3Support, wavSupport)[i].category == c
    decreases |files|
  {
    if files != [] {
      var prev := DecodableLaunches(files[..|files| - 1], c, mp3Support, wavSupport);
      var last := Launch(files[|files| - 1], c, mp3Support, wavSupport);
      var r := DecodableLaunches(files, c, mp3Support, wavSupport);
      assert r == prev + (if last.audioType != Unknown then [last] else []);
      DecodableLaunchesTargets(files[..|files| - 1], c, mp3Support, wavSupport);
      forall i | 0 <= i < |r|
        ensures r[i].audioType != Unknown && r[i].category == c
      {
        if i < |prev| {
          assert r[i] == prev[i];
        } else {
          assert last.audioType != Unknown && r == prev + [last];
          assert r[i] == last;
        }
      }
    }
  }

  /** One more file extends the reference by that file's decode, if it has a type. */
  lemma DecodableLaunchesSnoc(files: seq<string>, j: nat, c: Category, mp3Support: bool, wavSupport: bool)
    requires j < |files|
    ensures var last := Launch(files[j], c, mp3Support, wavSupport);
      DecodableLaunches(files[..j + 1], c, mp3Support, wavSupport)
      == DecodableLaunches(files[..j], c, mp3Support, wavSupport) + (if last.audioType != Unknown then [last] else [])
  {
    assert files[..j + 1][..j] == files[..j];
    assert files[..j + 1][j] == files[j];
  }

  /** When every file has a decode type, nothing is skipped: one decode per file. */
  lemma {:induction false} DecodableLaunchesAll(files: seq<string>, c: Category, mp3Support: bool, wavSupport: bool)
    requires AllDecodable(files, mp3Support, wavSupport)
    ensures DecodableLaunches(files, c, mp3Support, wavSupport) == Launches(files, c, mp3Support, wavSupport)
    decreases |files|
  {
    if files != [] {
      var n := |files| - 1;
      assert forall i :: 0 <= i < n ==> files[..n][i] == files[i];
      DecodableLaunchesAll(files[..n], c, mp3Support, wavSupport);
      LaunchesSnoc(files, n, c, mp3Support, wavSupport);
      assert files[..n + 1] == files;
    }
  }

  /** The inner loop of the scan over one category's collected files: one decode per
      file with a decode type, in order, and never the .ogg warning. */
  method LaunchDecodes(audioFilePaths: seq<string>, category: Category, mp3Support: bool, wavSupport: bool)
    returns (launched: seq<Candidate>, skippedOggWarnings: int)
    ensures launched == DecodableLaunches(audioFilePaths, category, mp3Support, wavSupport)
    ensures AllDecodable(audioFilePaths, mp3Support, wavSupport) ==> launched == Launches(audioFilePaths, category, mp3Support, wavSupport)
    ensures |launched| <= |audioFilePaths|
    ensures forall i :: 0 <= i < |launched| ==> launched[i].audioType != Unknown && launched[i].category == category
    ensures skippedOggWarnings == 0
  {
    launched := [];
    skippedOggWarnings := 0;
    var j := 0;
    while j < |audioFilePaths|
      invariant 0 <= j <= |audioFilePaths|
      invariant launched == DecodableLaunches(audioFilePaths[..j], category, mp3Support, wavSupport)
      invariant skippedOggWarnings == 0
    {
      var file := audioFilePaths[j];
      var launch, warned := ClassifyFile(file, category, mp3Support, wavSupport);
      if launch.Some? {
        launched := launched + [launch.value];
      }
      if warned {
        skippedOggWarnings := skippedOggWarnings + 1;
      }
      DecodableLaunchesSnoc(audioFilePaths, j, category, mp3Support, wavSupport);
      j := j + 1;
    }
    assert audioFilePaths[..j] == audioFilePaths;
    DecodableLaunchesTargets(audioFilePaths, category, mp3Support, wavSupport);
    if AllDecodable(audioFilePaths, mp3Support, wavSupport) {
      DecodableLaunchesAll(audioFilePaths, category, mp3Support, wavSupport);
    }
  }

  /** One iteration of the scan's category loop: collect the subfolder's files (none if
      it is missing) and launch their decodes. */
  method ScanCategory(folders: map<string, seq<string>>, category: Category, mp3Support: bool, wavSupport: bool)
    returns (launched: seq<Candidate>, filesFound: nat, skippedOggWarnings: int)
    ensures launched == Launches(CategoryFiles(folders, category, mp3Support, wavSupport), category, mp3Support, wavSupport)
    ensures SubfolderName(category) !in folders ==> launched == []
    ensures filesFound == |launched|
    ensures forall i :: 0 <= i < |launched| ==> launched[i].audioType != Unknown
    ensures skippedOggWarnings == 0
  {
    launched, filesFound, skippedOggWarnings := [], 0, 0;
    var subfolder := SubfolderName(category);
    if subfolder in folders {
      var audioFilePaths := CollectAudioFiles(folders[subfolder], mp3Support, wavSupport);
      if |audioFilePaths| > 0 {
        filesFound := |audioFilePaths|;
        CollectedFilesAreDecodable(folders[subfolder], mp3Support, wavSupport);
        launched, skippedOggWarnings := LaunchDecodes(audioFilePaths, category, mp3Support, wavSupport);
      }
    }
  }

  /** The file collection of one existing subfolder: every .ogg file, then the .mp3
      files if enabled, then the .wav files if enabled. */
  method CollectAudioFiles(files: seq<string>, mp3Support: bool, wavSupport: bool) returns (audioFilePaths: seq<string>)
    ensures audioFilePaths == AudioFiles(files, mp3Support, wavSupport)
    ensures forall f :: f in audioFilePaths <==> f in files && AudioTypeFor(LowerExtension(f), mp3Support, wavSupport) != Unknown
  {
    audioFilePaths := GetFiles(files, ".ogg");
    if mp3Support {
      audioFilePaths := audioFilePaths + GetFiles(files, ".mp3");
    }
    if wavSupport {
      audioFilePaths := audioFilePaths + GetFiles(files, ".wav");
    }
    forall f
      ensures f in audioFilePaths <==> f in files && AudioTypeFor(LowerExtension(f), mp3Support, wavSupport) != Unknown
    {
      AudioFilesMembership(files, mp3Support, wavSupport, f);
    }
  }

  /** Every file collected from a subfolder has a decode type. */
  lemma CollectedFilesAreDecodable(files: seq<string>, mp3Support: bool, wavSupport: bool)
    ensures AllDecodable(AudioFiles(files, mp3Support, wavSupport), mp3Support, wavSupport)
  {
    var collected := AudioFiles(files, mp3Support, wavSupport);
    forall i | 0 <= i < |collected|
      ensures AudioTypeFor(LowerExtension(collected[i]), mp3Support, wavSupport) != Unknown
    {
      AudioFilesAreDecodable(files, mp3Support, wavSupport, collected[i]);
    }
  }

  /** StartLoadingAllTracksFromFolder: reset the lists and flags, then walk the three
      subfolders in order and launch one decode per collected file. `totalFilesFound` is
      the running count of collected files, and `skippedOggWarnings` counts the warnings
      for a skipped .ogg file. */
  method StartLoadingAllTracksFromFolder(prior: LoaderState, dir: CustomMusicDir, config: Option<MelodyConfig>)
    returns (state: LoaderState, worklist: seq<Candidate>, totalFilesFound: nat, skippedOggWarnings: int)
    ensures forall c :: state.Tracks(c) == []
    ensures state.isLoadingAttempted && !state.isLoadingSuccessful
    ensures dir.None? ==> worklist == [] && totalFilesFound == 0
    ensures worklist == ExpectedWorklist(dir, config)
    ensures totalFilesFound == |worklist|
    ensures forall i :: 0 <= i < |worklist| ==> worklist[i].audioType != Unknown
    ensures skippedOggWarnings == 0
  {
    state := ScanReset(prior);
    worklist := [];
    totalFilesFound := 0;
    skippedOggWarnings := 0;
    if dir.None? {
      return;
    }
    var folders := dir.value;
    worklist, totalFilesFound, skippedOggWarnings := ScanCategories(folders, Mp3Support(config), WavSupport(config));
    AllCategoriesScanned(folders, config);
  }

  /** The category loop of the scan: visit the subfolders in scan order and launch the
      decodes of each in turn. */
  method ScanCategories(folders: map<string, seq<string>>, mp3Support: bool, wavSupport: bool)
    returns (worklist: seq<Candidate>, totalFilesFound: nat, skippedOggWarnings: int)
    ensures worklist == LaunchesUpTo(folders, |CategoryOrder|, mp3Support, wavSupport)
    ensures totalFilesFound == |worklist|
    ensures AllTyped(worklist)
    ensures skippedOggWarnings == 0
  {
    worklist, totalFilesFound, skippedOggWarnings := [], 0, 0;
    var k := 0;
    while k < |CategoryOrder|
      invariant 0 <= k <= |CategoryOrder|
      invariant worklist == LaunchesUpTo(folders, k, mp3Support, wavSupport)
      invariant totalFilesFound == |worklist|
      invariant AllTyped(worklist)
      invariant skippedOggWarnings == 0
    {
      var launched, found, warnings := ScanCategory(folders, CategoryOrder[k], mp3Support, wavSupport);
      TypedAppend(worklist, launched);
      worklist := worklist + launched;
      totalFilesFound := totalFilesFound + found;
      skippedOggWarnings := skippedOggWarnings + warnings;
      k := k + 1;
    }
  }

  /** No decode in the list has the Unknown type. */
  predicate AllTyped(cands: seq<Candidate>)
  {
    forall i :: 0 <= i < |cands| ==> cands[i].audioType != Unknown
  }

  lemma TypedAppend(a: seq<Candidate>, b: seq<Candidate>)
    requires AllTyped(a) && AllTyped(b)
    ensures AllTyped(a + b)
  {
    forall i | 0 <= i < |a + b|
      ensures (a + b)[i].audioType != Unknown
    {
      if i < |a| {
        assert (a + b)[i] == a[i];
      } else {
        assert (a + b)[i] == b[i - |a|];
      }
    }
  }

  /** Walking all three categories in scan order yields the reference worklist. */
  lemma AllCategoriesScanned(folders: map<string, seq<string>>, config: Option<MelodyConfig>)
    ensures LaunchesUpTo(folders, |CategoryOrder|, Mp3Support(config), WavSupport(config)) == ExpectedWorklist(Some(folders), config)
  {
    var mp3, wav := Mp3Support(config), WavSupport(config);
    assert CategoryOrder[0] == TemperateOnly && CategoryOrder[1] == HazardousOnly && CategoryOrder[2] == Both;
    assert LaunchesUpTo(folders, 1, mp3, wav) == Launches(CategoryFiles(folders, TemperateOnly, mp3, wav), TemperateOnly, mp3, wav);
  }

  /** A file is collected exactly when it lies in the subfolder and its extension has a
      decode type under the current flags. */
  lemma AudioFilesMembership(files: seq<string>, mp3Support: bool, wavSupport: bool, f: string)
    ensures f in AudioFiles(files, mp3Support, wavSupport)
        <==> f in files && AudioTypeFor(LowerExtension(f), mp3Support, wavSupport) != Unknown
  {
    if f in AudioFiles(files, mp3Support, wavSupport) {
      AudioFilesAreDecodable(files, mp3Support, wavSupport, f);
    }
  }

  lemma LaunchesMembership(files: seq<string>, c: Category, mp3Support: bool, wavSupport: bool, cand: Candidate)
    ensures cand in Launches(files, c, mp3Support, wavSupport)
        <==> cand.category == c && cand.fileName in files
             && cand.audioType == AudioTypeFor(LowerExtension(cand.fileName), mp3Support, wavSupport)
  {
    var launches := Launches(files, c, mp3Support, wavSupport);
    if cand.category == c && cand.fileName in files
       && cand.audioType == AudioTypeFor(LowerExtension(cand.fileName), mp3Support, wavSupport) {
      var i :| 0 <= i < |files| && files[i] == cand.fileName;
      assert launches[i] == cand;
    }
  }

  /** The worklist holds exactly one decode per file of an existing category subfolder
      whose extension is enabled, aimed at that subfolder's own list and decoded with the
      type its extension selects. */
  lemma WorklistMembership(dir: map<string, seq<string>>, config: Option<MelodyConfig>, cand: Candidate)
    ensures cand in ExpectedWorklist(Some(dir), config)
        <==> && SubfolderName(cand.category) in dir
             && cand.fileName in dir[SubfolderName(cand.category)]
             && cand.audioType == AudioTypeFor(LowerExtension(cand.fileName), Mp3Support(config), WavSupport(config))
             && cand.audioType != Unknown
  {
    var mp3, wav := Mp3Support(config), WavSupport(config);
    var t := Launches(CategoryFiles(dir, TemperateOnly, mp3, wav), TemperateOnly, mp3, wav);
    var h := Launches(CategoryFiles(dir, HazardousOnly, mp3, wav), HazardousOnly, mp3, wav);
    var b := Launches(CategoryFiles(dir, Both, mp3, wav), Both, mp3, wav);
    assert ExpectedWorklist(Some(dir), config) == t + h + b;
    assert cand in t + h + b <==> cand in t || cand in h || cand in b;
    LaunchesMembership(CategoryFiles(dir, TemperateOnly, mp3, wav), TemperateOnly, mp3, wav, cand);
    LaunchesMembership(CategoryFiles(dir, HazardousOnly, mp3, wav), HazardousOnly, mp3, wav, cand);
    LaunchesMembership(CategoryFiles(dir, Both, mp3, wav), Both, mp3, wav, cand);
    if SubfolderName(cand.category) in dir {
      AudioFilesMembership(dir[SubfolderName(cand.category)], mp3, wav, cand.fileName);
    }
  }

  /** Without MP3 and WAV support (in particular without any configuration) the worklist
      holds only .ogg files, and every .ogg file of an existing subfolder is in it. */
  lemma OggOnlyWithoutOptionalFormats(dir: map<string, seq<string>>, config: Option<MelodyConfig>)
    requires !Mp3Support(config) && !WavSupport(config)
    ensures forall cand :: cand in ExpectedWorklist(Some(dir), config) ==>
      cand.audioType == OggVorbis && LowerExtension(cand.fileName) == ".ogg"
    ensures forall c, f :: SubfolderName(c) in dir && f in dir[SubfolderName(c)] && LowerExtension(f) == ".ogg" ==>
      Candidate(f, OggVorbis, c) in ExpectedWorklist(Some(dir), config)
  {
    forall cand | cand in ExpectedWorklist(Some(dir), config)
      ensures cand.audioType == OggVorbis && LowerExtension(cand.fileName) == ".ogg"
    {
      WorklistMembership(dir, config, cand);
    }
    forall c, f | SubfolderName(c) in dir && f in dir[SubfolderName(c)] && LowerExtension(f) == ".ogg"
      ensures Candidate(f, OggVorbis, c) in ExpectedWorklist(Some(dir), config)
    {
      WorklistMembership(dir, config, Candidate(f, OggVorbis, c));
    }
  }

  /** A missing configuration disables both optional formats. */
  lemma NoConfigMeansOggOnly(dir: map<string, seq<string>>)
    ensures !Mp3Support(None) && !WavSupport(None)
    ensures forall cand :: cand in ExpectedWorklist(Some(dir), None) ==> cand.audioType == OggVorbis
  {
    OggOnlyWithoutOptionalFormats(dir, None);
  }

  // ---------------------------------------------------------------------------
  // Decode completions
  // ---------------------------------------------------------------------------

  /** What the web request for one candidate yields: a transport, protocol or
      data-processing error, a null clip, or a decoded clip. */
  datatype DecodeOutcome = RequestError | NullContent | Decoded(asset: Asset)

  /** The end of one decode coroutine. */
  datatype Completion = Completion(candidate: Candidate, outcome: DecodeOutcome)

  /** A completion adds a clip only when the mod directory is known and a clip came back. */
  predicate Succeeds(modDirectoryPath: string, e: Completion)
  {
    modDirectoryPath != "" && e.outcome.Decoded?
  }

  function ClipOf(e: Completion): Clip
    requires e.outcome.Decoded?
  {
    Clip(e.candidate.fileName, e.outcome.asset)
  }

  /** LoadTrackCoroutine, as a transition of the loader state. */
  function Complete(s: LoaderState, modDirectoryPath: string, e: Completion): (r: LoaderState)
    ensures !Succeeds(modDirectoryPath, e) ==> r == s
    ensures Succeeds(modDirectoryPath, e) ==>
      && r.Tracks(e.candidate.category) == s.Tracks(e.candidate.category) + [Clip(e.candidate.fileName, e.outcome.asset)]
      && (forall c :: c != e.candidate.category ==> r.Tracks(c) == s.Tracks(c))
      && r.isLoadingSuccessful
      && r.isLoadingAttempted == s.isLoadingAttempted
  {
    if modDirectoryPath == "" then s
    else
      match e.outcome
      case RequestError => s
      case NullContent => s
      case Decoded(asset) =>
        var c := e.candidate.category;
        s.WithTracks(c, s.Tracks(c) + [Clip(e.candidate.fileName, asset)]).(isLoadingSuccessful := true)
  }

  /** The loader state after the completions, in the order they happened. */
  function Run(s: LoaderState, modDirectoryPath: string, events: seq<Completion>): LoaderState
    decreases |events|
  {
    if events == [] then s
    else Run(Complete(s, modDirectoryPath, events[0]), modDirectoryPath, events[1..])
  }

  /** Reference definition: the clips the successful completions for `c` deliver, in order. */
  function Contributions(modDirectoryPath: string, events: seq<Completion>, c: Category): seq<Clip>
    decreases |events|
  {
    if events == [] then []
    else
      var e := events[0];
      (if Succeeds(modDirectoryPath, e) && e.candidate.category == c then [ClipOf(e)] else [])
      + Contributions(modDirectoryPath, events[1..], c)
  }

  /** Number of completions that deliver a clip. */
  function SuccessCount(modDirectoryPath: string, events: seq<Completion>): nat
    decreases |events|
  {
    if events == [] then 0
    else (if Succeeds(modDirectoryPath, events[0]) then 1 else 0) + SuccessCount(modDirectoryPath, events[1..])
  }

  /** Each list grows by exactly the clips of the successful completions for its
      category, in completion order, and by nothing else. */
  lemma {:induction false} RunAppendsContributions(s: LoaderState, modDirectoryPath: string, events: seq<Completion>, c: Category)
    ensures Run(s, modDirectoryPath, events).Tracks(c) == s.Tracks(c) + Contributions(modDirectoryPath, events, c)
    decreases |events|
  {
    if events != [] {
      var s1 := Complete(s, modDirectoryPath, events[0]);
      RunAppendsContributions(s1, modDirectoryPath, events[1..], c);
    }
  }

  /** The success flag ends true exactly when it started true or some completion
      delivered a clip; the attempted flag is never touched by a completion. */
  lemma {:induction false} RunFlags(s: LoaderState, modDirectoryPath: string, events: seq<Completion>)
    ensures Run(s, modDirectoryPath, events).isLoadingAttempted == s.isLoadingAttempted
    ensures Run(s, modDirectoryPath, events).isLoadingSuccessful
        <==> s.isLoadingSuccessful || exists i :: 0 <= i < |events| && Succeeds(modDirectoryPath, events[i])
    decreases |events|
  {
    if events != [] {
      var s1 := Complete(s, modDirectoryPath, events[0]);
      RunFlags(s1, modDirectoryPath, events[1..]);
      if exists i :: 0 <= i < |events| && Succeeds(modDirectoryPath, events[i]) {
        var i :| 0 <= i < |events| && Succeeds(modDirectoryPath, events[i]);
        if i > 0 {
          assert Succeeds(modDirectoryPath, events[1..][i - 1]);
        }
      }
      if exists i :: 0 <= i < |events| - 1 && Succeeds(modDirectoryPath, events[1..][i]) {
        var i :| 0 <= i < |events| - 1 && Succeeds(modDirectoryPath, events[1..][i]);
        assert Succeeds(modDirectoryPath, events[i + 1]);
      }
    }
  }

  /** Once a clip has been loaded, no later completion clears the success flag. */
  lemma SuccessIsMonotonic(s: LoaderState, modDirectoryPath: string, events: seq<Completion>)
    requires s.isLoadingSuccessful
    ensures Run(s, modDirectoryPath, events).isLoadingSuccessful
  {
    RunFlags(s, modDirectoryPath, events);
  }

  lemma {:induction false} ContributionsConcat(modDirectoryPath: string, a: seq<Completion>, b: seq<Completion>, c: Category)
    ensures Contributions(modDirectoryPath, a + b, c) == Contributions(modDirectoryPath, a, c) + Contributions(modDirectoryPath, b, c)
    decreases |a|
  {
    if a != [] {
      var e := a[0];
      var head := if Succeeds(modDirectoryPath, e) && e.candidate.category == c then [ClipOf(e)] else [];
      assert (a + b)[0] == e;
      assert (a + b)[1..] == a[1..] + b;
      ContributionsConcat(modDirectoryPath, a[1..], b, c);
      SeqAppendAssoc(head, Contributions(modDirectoryPath, a[1..], c), Contributions(modDirectoryPath, b, c));
    } else {
      assert a + b == b;
    }
  }

  /** Concatenation regrouped; stated once so larger proofs need not rediscover it. */
  lemma SeqAppendAssoc<T>(a: seq<T>, b: seq<T>, c: seq<T>)
    ensures a + (b + c) == (a + b) + c
  {
  }

  /** Removing the first element of `a` and a matching element of `b` keeps two equal
      multisets equal. */
  lemma RemoveMatching<T>(a: seq<T>, b: seq<T>, i: nat)
    requires multiset(a) == multiset(b) && a != [] && i < |b| && b[i] == a[0]
    ensures multiset(a[1..]) == multiset(b[..i] + b[i + 1..])
  {
    var e := a[0];
    var rest := b[..i] + b[i + 1..];
    assert b == b[..i] + [e] + b[i + 1..];
    assert a == [e] + a[1..];
    assert multiset(b) == multiset(b[..i]) + multiset{e} + multiset(b[i + 1..]);
    assert multiset(a) == multiset{e} + multiset(a[1..]);
    assert multiset(rest) == multiset(b[..i]) + multiset(b[i + 1..]);
    forall x
      ensures multiset(a[1..])[x] == multiset(rest)[x]
    {
      assert multiset(a)[x] == multiset(b)[x];
    }
  }

  /** The clips of a sequence of completions are, as a multiset, those of its i-th
      completion together with those of the rest. */
  lemma ContributionsAround(modDirectoryPath: string, b: seq<Completion>, i: nat, c: Category)
    requires i < |b|
    ensures multiset(Contributions(modDirectoryPath, b, c))
         == multiset(Contributions(modDirectoryPath, [b[i]], c)) + multiset(Contributions(modDirectoryPath, b[..i] + b[i + 1..], c))
  {
    var cl := Contributions(modDirectoryPath, b[..i], c);
    var ce := Contributions(modDirectoryPath, [b[i]], c);
    var cr := Contributions(modDirectoryPath, b[i + 1..], c);
    ContributionsConcat(modDirectoryPath, b[..i], b[i + 1..], c);
    assert b == (b[..i] + [b[i]]) + b[i + 1..];
    ContributionsConcat(modDirectoryPath, b[..i] + [b[i]], b[i + 1..], c);
    ContributionsConcat(modDirectoryPath, b[..i], [b[i]], c);
    assert Contributions(modDirectoryPath, b, c) == cl + ce + cr;
  }

  /** The clips a set of completions delivers to a list do not depend on the order in
      which the completions happen, only on which ones happen. */
  lemma {:induction false} ContributionsPermutation(modDirectoryPath: string, a: seq<Completion>, b: seq<Completion>, c: Category)
    requires multiset(a) == multiset(b)
    ensures multiset(Contributions(modDirectoryPath, a, c)) == multiset(Contributions(modDirectoryPath, b, c))
    decreases |a|
  {
    if a == [] {
      assert |b| == |multiset(b)| == 0;
    } else {
      var e := a[0];
      assert e in multiset(b);
      var i :| 0 <= i < |b| && b[i] == e;
      var rest := b[..i] + b[i + 1..];
      var ce := Contributions(modDirectoryPath, [e], c);
      RemoveMatching(a, b, i);
      ContributionsPermutation(modDirectoryPath, a[1..], rest, c);
      assert a == [e] + a[1..];
      ContributionsConcat(modDirectoryPath, [e], a[1..], c);
      assert multiset(Contributions(modDirectoryPath, a, c)) == multiset(ce) + multiset(Contributions(modDirectoryPath, a[1..], c));
      ContributionsAround(modDirectoryPath, b, i, c);
      assert [b[i]] == [e];
    }
  }

  /** Interleaving: two runs of the same completions in different orders leave both
      flags equal and each list a permutation of the other. */
  lemma RunOrderIndependent(s: LoaderState, modDirectoryPath: string, a: seq<Completion>, b: seq<Completion>, c: Category)
    requires multiset(a) == multiset(b)
    ensures multiset(Run(s, modDirectoryPath, a).Tracks(c)) == multiset(Run(s, modDirectoryPath, b).Tracks(c))
    ensures Run(s, modDirectoryPath, a).isLoadingSuccessful == Run(s, modDirectoryPath, b).isLoadingSuccessful
    ensures Run(s, modDirectoryPath, a).isLoadingAttempted == Run(s, modDirectoryPath, b).isLoadingAttempted
  {
    RunAppendsContributions(s, modDirectoryPath, a, c);
    RunAppendsContributions(s, modDirectoryPath, b, c);
    ContributionsPermutation(modDirectoryPath, a, b, c);
    RunFlags(s, modDirectoryPath, a);
    RunFlags(s, modDirectoryPath, b);
    if exists i :: 0 <= i < |a| && Succeeds(modDirectoryPath, a[i]) {
      var i :| 0 <= i < |a| && Succeeds(modDirectoryPath, a[i]);
      assert a[i] in multiset(b);
    }
    if exists i :: 0 <= i < |b| && Succeeds(modDirectoryPath, b[i]) {
      var i :| 0 <= i < |b| && Succeeds(modDirectoryPath, b[i]);
      assert b[i] in multiset(a);
    }
  }

  /** Every delivering completion lands in exactly one of the three lists. */
  lemma {:induction false} ContributionsPartition(modDirectoryPath: string, events: seq<Completion>)
    ensures |Contributions(modDirectoryPath, events, TemperateOnly)|
          + |Contributions(modDirectoryPath, events, HazardousOnly)|
          + |Contributions(modDirectoryPath, events, Both)|
         == SuccessCount(modDirectoryPath, events)
    ensures SuccessCount(modDirectoryPath, events) <= |events|
    decreases |events|
  {
    if events != [] {
      ContributionsPartition(modDirectoryPath, events[1..]);
    }
  }

  /** A scan followed by any completions: the lists hold exactly the delivered clips of
      their own category, no more clips than completions exist, and success implies an
      attempt. */
  lemma ScanThenRun(prior: LoaderState, modDirectoryPath: string, events: seq<Completion>)
    ensures var s := Run(ScanReset(prior), modDirectoryPath, events);
      && (forall c :: s.Tracks(c) == Contributions(modDirectoryPath, events, c))
      && |s.loadedTemperateOnlyTracks| + |s.loadedHazardousOnlyTracks| + |s.loadedBothTracks| == SuccessCount(modDirectoryPath, events)
      && SuccessCount(modDirectoryPath, events) <= |events|
      && s.isLoadingAttempted
      && (s.isLoadingSuccessful <==> SuccessCount(modDirectoryPath, events) > 0)
  {
    var s0 := ScanReset(prior);
    var s := Run(s0, modDirectoryPath, events);
    forall c
      ensures s.Tracks(c) == Contributions(modDirectoryPath, events, c)
    {
      RunAppendsContributions(s0, modDirectoryPath, events, c);
    }
    assert s.loadedTemperateOnlyTracks == s.Tracks(TemperateOnly);
    assert s.loadedHazardousOnlyTracks == s.Tracks(HazardousOnly);
    assert s.loadedBothTracks == s.Tracks(Both);
    ContributionsPartition(modDirectoryPath, events);
    RunFlags(s0, modDirectoryPath, events);
    SuccessCountPositive(modDirectoryPath, events);
  }

  lemma {:induction false} SuccessCountPositive(modDirectoryPath: string, events: seq<Completion>)
    ensures SuccessCount(modDirectoryPath, events) > 0 <==> exists i :: 0 <= i < |events| && Succeeds(modDirectoryPath, events[i])
    decreases |events|
  {
    if events != [] {
      SuccessCountPositive(modDirectoryPath, events[1..]);
      if exists i :: 0 <= i < |events| - 1 && Succeeds(modDirectoryPath, events[1..][i]) {
        var i :| 0 <= i < |events| - 1 && Succeeds(modDirectoryPath, events[1..][i]);
        assert Succeeds(modDirectoryPath, events[i + 1]);
      }
      if exists i :: 0 <= i < |events| && Succeeds(modDirectoryPath, events[i]) {
        var i :| 0 <= i < |events| && Succeeds(modDirectoryPath, events[i]);
        if i > 0 {
          assert Succeeds(modDirectoryPath, events[1..][i - 1]);
        }
      }
    }
  }

  /** Two .ogg files in ForBoth, one decodes and one is corrupt: the Both list ends
      with exactly the good clip and the session counts as successful. */
  lemma MixedSuccessScenario(prior: LoaderState)
    ensures var good := Completion(Candidate("good.ogg", OggVorbis, Both), Decoded(7));
      var bad := Completion(Candidate("bad.ogg", OggVorbis, Both), RequestError);
      var s := Run(ScanReset(prior), "Mods/Melody", [good, bad]);
      && s.loadedBothTracks == [Clip("good.ogg", 7)]
      && s.loadedTemperateOnlyTracks == [] && s.loadedHazardousOnlyTracks == []
      && s.isLoadingAttempted && s.isLoadingSuccessful
  {
    var good := Completion(Candidate("good.ogg", OggVorbis, Both), Decoded(7));
    var bad := Completion(Candidate("bad.ogg", OggVorbis, Both), RequestError);
    var s0 := ScanReset(prior);
    var s1 := Complete(s0, "Mods/Melody", good);
    assert [good, bad][1..] == [bad];
    assert Run(s0, "Mods/Melody", [good, bad]) == Run(s1, "Mods/Melody", [bad]);
    assert Run(s1, "Mods/Melody", [bad]) == Complete(s1, "Mods/Melody", bad) == s1;
    assert s1.Tracks(Both) == [Clip("good.ogg", 7)];
  }
}
