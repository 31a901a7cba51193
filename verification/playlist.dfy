/** The playlist injector (class Sounds_CreateAudioSources_Patch): after the host has
    built the audio sources of a sound group, append the custom tracks of the matching
    categories, and for the drought group also the host's own standard music. */
module Playlist {
  import opened Wrappers
  import opened Config
  import opened Loader
  import opened ModGameInfo

  /** Opaque handle of a mixer group. */
  type MixerGroup = nat

  /** What an audio source plays: a host clip, by name, or a decoded custom clip. */
  datatype ClipRef = NativeClip(clipName: string) | CustomClip(clip: Clip)

  /** The AudioSource fields the mod reads or writes. */
  datatype AudioSource = AudioSource(
    clip: ClipRef,
    loop: bool,
    playOnAwake: bool,
    spatialBlend: real,
    volume: real,
    outputAudioMixerGroup: Option<MixerGroup>)

  /** The host's sound-name to mixer-group lookup. */
  datatype AudioMixerGroupRetriever = AudioMixerGroupRetriever(groups: map<string, MixerGroup>)
  {
    function GetAudioMixerGroupFromSoundName(soundName: string): Option<MixerGroup>
    {
      if soundName in groups then Some(groups[soundName]) else None
    }
  }

  /** The host's audio-source factory: the source it builds for a clip name, if any. */
  datatype AudioSourceFactory = AudioSourceFactory(
    sources: map<string, AudioSource>,
    audioMixerGroupRetriever: Option<AudioMixerGroupRetriever>)
  {
    function Create(clipName: string): Option<AudioSource>
    {
      if clipName in sources then Some(sources[clipName]) else None
    }
  }

  /** The host's catalogue of clip names per sound group. */
  datatype AudioClipService = AudioClipService(clipNames: map<string, seq<string>>)
  {
    function GetAudioClipNames(key: string): Option<seq<string>>
    {
      if key in clipNames then Some(clipNames[key]) else None
    }
  }

  /** The private fields of the host's Sounds instance that the patch reads. */
  datatype Sounds = Sounds(
    audioClipService: Option<AudioClipService>,
    audioSourceFactory: Option<AudioSourceFactory>,
    sounds: Option<map<string, seq<AudioSource>>>)

  // ---------------------------------------------------------------------------
  // Entry construction
  // ---------------------------------------------------------------------------

  /** Mathf.Clamp. */
  function Clamp(value: real, min: real, max: real): real
  {
    if value < min then min else if value > max then max else value
  }

  /** The volume of every custom entry: the configured multiplier clamped to [0, 1], or
      full volume when there is no configuration. */
  function CustomTrackVolume(config: Option<MelodyConfig>): (v: real)
    ensures 0.0 <= v <= 1.0
    ensures config.None? ==> v == 1.0
    ensures config.Some? ==>
      var m := config.value.globalCustomTrackVolumeMultiplier;
      && (m <= 0.0 ==> v == 0.0)
      && (m >= 1.0 ==> v == 1.0)
      && (0.0 <= m <= 1.0 ==> v == m)
  {
    if config.Some? then Clamp(1.0 * config.value.globalCustomTrackVolumeMultiplier, 0.0, 1.0) else 1.0
  }

  /** The mixer group of a custom entry; none when the factory or its lookup is missing. */
  function CustomMixerGroup(factory: Option<AudioSourceFactory>, soundName: string): (g: Option<MixerGroup>)
    ensures g.Some? <==>
      factory.Some? && factory.value.audioMixerGroupRetriever.Some? && soundName in factory.value.audioMixerGroupRetriever.value.groups
    ensures g.Some? ==> g.value == factory.value.audioMixerGroupRetriever.value.groups[soundName]
  {
    if factory.Some? && factory.value.audioMixerGroupRetriever.Some?
    then factory.value.audioMixerGroupRetriever.value.GetAudioMixerGroupFromSoundName(soundName)
    else None
  }

  /** The AudioSource added for one custom clip. */
  function NewCustomSource(clip: Clip, soundName: string, config: Option<MelodyConfig>, factory: Option<AudioSourceFactory>): (e: AudioSource)
    ensures IsCustomEntry(e, clip, soundName, config, factory)
  {
    AudioSource(CustomClip(clip), false, false, 0.0, CustomTrackVolume(config), CustomMixerGroup(factory, soundName))
  }

  /** The non-null clips of a list, in order. */
  function NonNull(tracks: seq<Option<Clip>>): seq<Clip>
    decreases |tracks|
  {
    if tracks == [] then []
    else (if tracks[0].Some? then [tracks[0].value] else []) + NonNull(tracks[1..])
  }

  /** True when entry `e` is the one built for custom clip `clip`. */
  predicate IsCustomEntry(e: AudioSource, clip: Clip, soundName: string, config: Option<MelodyConfig>, factory: Option<AudioSourceFactory>)
  {
    && e.clip == CustomClip(clip)
    && !e.loop && !e.playOnAwake && e.spatialBlend == 0.0
    && e.volume == CustomTrackVolume(config)
    && e.outputAudioMixerGroup == CustomMixerGroup(factory, soundName)
  }

  /** Reference definition: the entries for a list of clips, one per clip. */
  function CustomEntries(tracks: seq<Clip>, soundName: string, config: Option<MelodyConfig>, factory: Option<AudioSourceFactory>): (r: seq<AudioSource>)
    ensures |r| == |tracks|
  {
    seq(|tracks|, i requires 0 <= i < |tracks| => NewCustomSource(tracks[i], soundName, config, factory))
  }

  lemma CustomEntriesConcat(a: seq<Clip>, b: seq<Clip>, soundName: string, config: Option<MelodyConfig>, factory: Option<AudioSourceFactory>)
    ensures CustomEntries(a + b, soundName, config, factory)
         == CustomEntries(a, soundName, config, factory) + CustomEntries(b, soundName, config, factory)
  {
  }

  /** The foreach loop of AddCustomTracksToPlaylist: skip null clips, append one entry
      per other clip. It appends exactly the reference entries of the non-null clips. */
  function AppendClips(tracks: seq<Option<Clip>>, playlist: seq<AudioSource>, soundName: string,
                       config: Option<MelodyConfig>, factory: Option<AudioSourceFactory>): (r: seq<AudioSource>)
    ensures r == playlist + CustomEntries(NonNull(tracks), soundName, config, factory)
    decreases |tracks|
  {
    if tracks == [] then playlist
    else if tracks[0].None? then
      assert NonNull(tracks) == NonNull(tracks[1..]);
      AppendClips(tracks[1..], playlist, soundName, config, factory)
    else
      var entry := NewCustomSource(tracks[0].value, soundName, config, factory);
      var rest := NonNull(tracks[1..]);
      CustomEntriesConcat([tracks[0].value], rest, soundName, config, factory);
      assert NonNull(tracks) == [tracks[0].value] + rest;
      assert CustomEntries([tracks[0].value], soundName, config, factory) == [entry];
      SeqAppendAssoc(playlist, [entry], CustomEntries(rest, soundName, config, factory));
      AppendClips(tracks[1..], playlist + [entry], soundName, config, factory)
  }

  /** AddCustomTracksToPlaylist: append one non-looping, non-spatial, not-play-on-awake
      entry per non-null clip, in list order, after the existing entries, with the
      clamped volume; a null or empty list adds nothing. */
  function AddCustomTracksToPlaylist(tracksToAdd: Option<seq<Option<Clip>>>, existingPlaylist: seq<AudioSource>, soundEventName: string,
                                     config: Option<MelodyConfig>, factory: Option<AudioSourceFactory>): (r: seq<AudioSource>)
    ensures tracksToAdd.None? ==> r == existingPlaylist
    ensures tracksToAdd.Some? ==> |r| == |existingPlaylist| + |NonNull(tracksToAdd.value)|
    ensures r[..|existingPlaylist|] == existingPlaylist
    ensures tracksToAdd.Some? ==> forall i :: 0 <= i < |NonNull(tracksToAdd.value)| ==>
      IsCustomEntry(r[|existingPlaylist| + i], NonNull(tracksToAdd.value)[i], soundEventName, config, factory)
  {
    if tracksToAdd.None? || |tracksToAdd.value| == 0 then existingPlaylist
    else AppendClips(tracksToAdd.value, existingPlaylist, soundEventName, config, factory)
  }

  /** The loader's lists are passed as lists of (non-null) references. */
  function AsNullable(tracks: seq<Clip>): (r: seq<Option<Clip>>)
    ensures |r| == |tracks|
  {
    seq(|tracks|, i requires 0 <= i < |tracks| => Some(tracks[i]))
  }

  lemma {:induction false} NonNullOfAsNullable(tracks: seq<Clip>)
    ensures NonNull(AsNullable(tracks)) == tracks
    decreases |tracks|
  {
    if tracks != [] {
      assert AsNullable(tracks)[1..] == AsNullable(tracks[1..]);
      NonNullOfAsNullable(tracks[1..]);
    }
  }

  /** Adding a loader list appends exactly the reference entries of its clips. */
  lemma AddLoaderTracks(tracks: seq<Clip>, existing: seq<AudioSource>, soundName: string,
                        config: Option<MelodyConfig>, factory: Option<AudioSourceFactory>)
    ensures AddCustomTracksToPlaylist(Some(AsNullable(tracks)), existing, soundName, config, factory)
         == existing + CustomEntries(tracks, soundName, config, factory)
  {
    NonNullOfAsNullable(tracks);
  }

  // ---------------------------------------------------------------------------
  // Native standard music for the drought playlist
  // ---------------------------------------------------------------------------

  /** A host-built standard source, adjusted for the drought playlist: no looping, not
      spatial, and routed to the drought group's mixer when it has no mixer yet. */
  function PrepareNative(source: AudioSource, factory: AudioSourceFactory, soundName: string): (r: AudioSource)
    ensures r.clip == source.clip && r.playOnAwake == source.playOnAwake && r.volume == source.volume
    ensures !r.loop && r.spatialBlend == 0.0
    ensures source.outputAudioMixerGroup.Some? ==> r.outputAudioMixerGroup == source.outputAudioMixerGroup
    ensures source.outputAudioMixerGroup.None? ==> r.outputAudioMixerGroup == CustomMixerGroup(Some(factory), soundName)
  {
    var mixer :=
      if source.outputAudioMixerGroup.None? && factory.audioMixerGroupRetriever.Some?
      then factory.audioMixerGroupRetriever.value.GetAudioMixerGroupFromSoundName(soundName)
      else source.outputAudioMixerGroup;
    source.(loop := false, spatialBlend := 0.0, outputAudioMixerGroup := mixer)
  }

  /** True when the factory builds a source for this standard clip name. */
  predicate Copyable(name: string, factory: AudioSourceFactory)
  {
    name != "" && factory.Create(name).Some?
  }

  /** The entry built for one copyable standard clip name. */
  function NativeCopy(name: string, factory: AudioSourceFactory, soundName: string): AudioSource
    requires Copyable(name, factory)
  {
    PrepareNative(factory.Create(name).value, factory, soundName)
  }

  /** The entries copied from the standard group's clip names, in order: empty names and
      names the factory returns null for are skipped. */
  function NativeCopies(names: seq<string>, factory: AudioSourceFactory, soundName: string): (r: seq<AudioSource>)
    ensures |r| <= |names|
    ensures forall k :: 0 <= k < |r| ==> !r[k].loop && r[k].spatialBlend == 0.0
    decreases |names|
  {
    if names == [] then []
    else
      (if Copyable(names[0], factory) then [NativeCopy(names[0], factory, soundName)] else [])
      + NativeCopies(names[1..], factory, soundName)
  }

  /** Every copyable standard clip name yields an entry, and every entry comes from a
      copyable standard clip name. */
  lemma {:induction false} NativeCopiesMembership(names: seq<string>, factory: AudioSourceFactory, soundName: string, e: AudioSource)
    ensures e in NativeCopies(names, factory, soundName)
        <==> exists name :: name in names && Copyable(name, factory) && e == NativeCopy(name, factory, soundName)
    decreases |names|
  {
    if names != [] {
      NativeCopiesMembership(names[1..], factory, soundName, e);
      if exists name :: name in names && Copyable(name, factory) && e == NativeCopy(name, factory, soundName) {
        var name :| name in names && Copyable(name, factory) && e == NativeCopy(name, factory, soundName);
        if name != names[0] {
          assert name in names[1..];
        }
      }
      if exists name :: name in names[1..] && Copyable(name, factory) && e == NativeCopy(name, factory, soundName) {
        var name :| name in names[1..] && Copyable(name, factory) && e == NativeCopy(name, factory, soundName);
        assert name in names;
      }
    }
  }

  // ---------------------------------------------------------------------------
  // The postfix
  // ---------------------------------------------------------------------------

  /** The two sound groups the patch acts on. */
  predicate IsMusicToken(soundName: string)
  {
    soundName == DroughtTrackName || soundName == StandardMusicGroupKey
  }

  /** None of the components the patch needs is null. */
  predicate EssentialsPresent(inst: Sounds)
  {
    && inst.audioClipService.Some?
    && inst.audioSourceFactory.Some?
    && inst.sounds.Some?
    && inst.audioSourceFactory.value.audioMixerGroupRetriever.Some?
  }

  /** The list registered under the sound name, or a fresh empty one. */
  function ExistingList(allSounds: map<string, seq<AudioSource>>, soundName: string): seq<AudioSource>
  {
    if soundName in allSounds then allSounds[soundName] else []
  }

  /** Custom tracks are added only once loading was attempted and some clip loaded. */
  predicate CustomTracksReady(loader: LoaderState)
  {
    loader.isLoadingAttempted && loader.isLoadingSuccessful
  }

  /** The standard clip names the drought playlist copies (none when the host returns null). */
  function StandardClipNames(service: AudioClipService): seq<string>
  {
    match service.GetAudioClipNames(StandardMusicGroupKey)
    case None => []
    case Some(names) => names
  }

  /** The drought branch: copy the standard group's native clips, then, once loading
      has succeeded, the hazardous-only and the both-weather clips. */
  function DroughtList(existing: seq<AudioSource>, service: AudioClipService, factory: AudioSourceFactory,
                       loader: LoaderState, config: Option<MelodyConfig>): (r: seq<AudioSource>)
    ensures existing + NativeCopies(StandardClipNames(service), factory, DroughtTrackName) <= r
    ensures !CustomTracksReady(loader) ==> r == existing + NativeCopies(StandardClipNames(service), factory, DroughtTrackName)
  {
    var withNatives := existing + NativeCopies(StandardClipNames(service), factory, DroughtTrackName);
    if CustomTracksReady(loader) then
      var withHazardous := AddCustomTracksToPlaylist(Some(AsNullable(loader.loadedHazardousOnlyTracks)), withNatives, DroughtTrackName, config, Some(factory));
      AddCustomTracksToPlaylist(Some(AsNullable(loader.loadedBothTracks)), withHazardous, DroughtTrackName, config, Some(factory))
    else withNatives
  }

  /** The standard branch: once loading has succeeded, the temperate-only and the
      both-weather clips. */
  function StandardList(existing: seq<AudioSource>, factory: AudioSourceFactory, loader: LoaderState, config: Option<MelodyConfig>): (r: seq<AudioSource>)
    ensures existing <= r
    ensures !CustomTracksReady(loader) ==> r == existing
  {
    if CustomTracksReady(loader) then
      var withTemperate := AddCustomTracksToPlaylist(Some(AsNullable(loader.loadedTemperateOnlyTracks)), existing, StandardMusicGroupKey, config, Some(factory));
      AddCustomTracksToPlaylist(Some(AsNullable(loader.loadedBothTracks)), withTemperate, StandardMusicGroupKey, config, Some(factory))
    else existing
  }

  /** Reference definition of what the drought list gains. */
  function DroughtAdditions(service: AudioClipService, factory: AudioSourceFactory, loader: LoaderState, config: Option<MelodyConfig>): seq<AudioSource>
  {
    NativeCopies(StandardClipNames(service), factory, DroughtTrackName)
    + if CustomTracksReady(loader)
      then CustomEntries(loader.loadedHazardousOnlyTracks, DroughtTrackName, config, Some(factory))
           + CustomEntries(loader.loadedBothTracks, DroughtTrackName, config, Some(factory))
      else []
  }

  /** Reference definition of what the standard list gains. */
  function StandardAdditions(factory: AudioSourceFactory, loader: LoaderState, config: Option<MelodyConfig>): seq<AudioSource>
  {
    if CustomTracksReady(loader)
    then CustomEntries(loader.loadedTemperateOnlyTracks, StandardMusicGroupKey, config, Some(factory))
         + CustomEntries(loader.loadedBothTracks, StandardMusicGroupKey, config, Some(factory))
    else []
  }

  lemma DroughtListContents(existing: seq<AudioSource>, service: AudioClipService, factory: AudioSourceFactory,
                            loader: LoaderState, config: Option<MelodyConfig>)
    ensures DroughtList(existing, service, factory, loader, config) == existing + DroughtAdditions(service, factory, loader, config)
  {
    if CustomTracksReady(loader) {
      var withNatives := existing + NativeCopies(StandardClipNames(service), factory, DroughtTrackName);
      var h := CustomEntries(loader.loadedHazardousOnlyTracks, DroughtTrackName, config, Some(factory));
      var b := CustomEntries(loader.loadedBothTracks, DroughtTrackName, config, Some(factory));
      AddLoaderTracks(loader.loadedHazardousOnlyTracks, withNatives, DroughtTrackName, config, Some(factory));
      AddLoaderTracks(loader.loadedBothTracks, withNatives + h, DroughtTrackName, config, Some(factory));
      var natives := NativeCopies(StandardClipNames(service), factory, DroughtTrackName);
      assert DroughtList(existing, service, factory, loader, config) == (withNatives + h) + b;
      assert DroughtAdditions(service, factory, loader, config) == natives + (h + b);
      SeqAppendAssoc(withNatives, h, b);
      SeqAppendAssoc(existing, natives, h + b);
    }
  }

  lemma StandardListContents(existing: seq<AudioSource>, factory: AudioSourceFactory, loader: LoaderState, config: Option<MelodyConfig>)
    ensures StandardList(existing, factory, loader, config) == existing + StandardAdditions(factory, loader, config)
  {
    if CustomTracksReady(loader) {
      var t := CustomEntries(loader.loadedTemperateOnlyTracks, StandardMusicGroupKey, config, Some(factory));
      var b := CustomEntries(loader.loadedBothTracks, StandardMusicGroupKey, config, Some(factory));
      AddLoaderTracks(loader.loadedTemperateOnlyTracks, existing, StandardMusicGroupKey, config, Some(factory));
      AddLoaderTracks(loader.loadedBothTracks, existing + t, StandardMusicGroupKey, config, Some(factory));
      assert StandardList(existing, factory, loader, config) == (existing + t) + b;
      assert StandardAdditions(factory, loader, config) == t + b;
      SeqAppendAssoc(existing, t, b);
    }
  }

  /** The list the patch leaves under a music token. */
  function AugmentedList(inst: Sounds, soundName: string, loader: LoaderState, config: Option<MelodyConfig>): (r: seq<AudioSource>)
    requires EssentialsPresent(inst)
    ensures ExistingList(inst.sounds.value, soundName) <= r
  {
    var existing := ExistingList(inst.sounds.value, soundName);
    var factory := inst.audioSourceFactory.value;
    if soundName == DroughtTrackName then
      DroughtListContents(existing, inst.audioClipService.value, factory, loader, config);
      DroughtList(existing, inst.audioClipService.value, factory, loader, config)
    else
      StandardListContents(existing, factory, loader, config);
      StandardList(existing, factory, loader, config)
  }

  /** CreateAudioSources_Postfix: for a music token with all components present, extend
      (or create and register) the token's list; otherwise leave everything as it is.
      Only the token's own list ever changes, and only by appending. */
  function CreateAudioSourcesPostfix(inst: Sounds, soundName: string, loader: LoaderState, config: Option<MelodyConfig>): (r: Sounds)
    ensures r.audioClipService == inst.audioClipService && r.audioSourceFactory == inst.audioSourceFactory
    ensures !IsMusicToken(soundName) ==> r == inst
    ensures !EssentialsPresent(inst) ==> r == inst
    ensures IsMusicToken(soundName) && EssentialsPresent(inst) ==>
      && r.sounds.Some?
      && r.sounds.value.Keys == inst.sounds.value.Keys + {soundName}
      && (forall k :: k in inst.sounds.value && k != soundName ==> r.sounds.value[k] == inst.sounds.value[k])
      && ExistingList(inst.sounds.value, soundName) <= r.sounds.value[soundName]
  {
    if !IsMusicToken(soundName) then inst
    else if !EssentialsPresent(inst) then inst
    else inst.(sounds := Some(inst.sounds.value[soundName := AugmentedList(inst, soundName, loader, config)]))
  }

  /** The list the postfix leaves under the token. */
  function ResultList(r: Sounds, soundName: string): seq<AudioSource>
  {
    if r.sounds.Some? && soundName in r.sounds.value then r.sounds.value[soundName] else []
  }

  /** Every entry built from two clip lists plays a clip of one of them. */
  lemma CustomEntriesFrom(a: seq<Clip>, b: seq<Clip>, soundName: string, config: Option<MelodyConfig>, factory: Option<AudioSourceFactory>, k: nat)
    requires k < |a| + |b|
    ensures var entries := CustomEntries(a, soundName, config, factory) + CustomEntries(b, soundName, config, factory);
      entries[k].clip.CustomClip? && (entries[k].clip.clip in a || entries[k].clip.clip in b)
  {
    if k < |a| {
      assert a[k] in a;
    } else {
      assert b[k - |a|] in b;
    }
  }

  /** The standard playlist is the old list followed, once loading has succeeded, by the
      temperate-only and both-weather entries; it never gains any other clip. */
  lemma StandardGetsTemperateAndBoth(inst: Sounds, loader: LoaderState, config: Option<MelodyConfig>)
    requires EssentialsPresent(inst)
    ensures var list := ResultList(CreateAudioSourcesPostfix(inst, StandardMusicGroupKey, loader, config), StandardMusicGroupKey);
      var existing := ExistingList(inst.sounds.value, StandardMusicGroupKey);
      && list == existing + StandardAdditions(inst.audioSourceFactory.value, loader, config)
      && (!CustomTracksReady(loader) ==> list == existing)
      && forall k :: |existing| <= k < |list| ==>
           && list[k].clip.CustomClip?
           && (list[k].clip.clip in loader.loadedTemperateOnlyTracks || list[k].clip.clip in loader.loadedBothTracks)
  {
    TokensDistinct();
    var existing := ExistingList(inst.sounds.value, StandardMusicGroupKey);
    var factory := inst.audioSourceFactory.value;
    StandardListContents(existing, factory, loader, config);
    var list := ResultList(CreateAudioSourcesPostfix(inst, StandardMusicGroupKey, loader, config), StandardMusicGroupKey);
    assert list == existing + StandardAdditions(factory, loader, config);
    forall k | |existing| <= k < |list|
      ensures list[k].clip.CustomClip?
      ensures list[k].clip.clip in loader.loadedTemperateOnlyTracks || list[k].clip.clip in loader.loadedBothTracks
    {
      assert list[k] == StandardAdditions(factory, loader, config)[k - |existing|];
      CustomEntriesFrom(loader.loadedTemperateOnlyTracks, loader.loadedBothTracks, StandardMusicGroupKey, config, Some(factory), k - |existing|);
    }
  }

  /** Every clip of the second list has an entry in `pre` followed by the entries of both lists. */
  lemma CustomEntriesCover(pre: seq<AudioSource>, a: seq<Clip>, b: seq<Clip>, soundName: string,
                           config: Option<MelodyConfig>, factory: Option<AudioSourceFactory>, c: Clip)
    requires c in b
    ensures var list := pre + (CustomEntries(a, soundName, config, factory) + CustomEntries(b, soundName, config, factory));
      exists k :: 0 <= k < |list| && list[k].clip == CustomClip(c)
  {
    var list := pre + (CustomEntries(a, soundName, config, factory) + CustomEntries(b, soundName, config, factory));
    var i :| 0 <= i < |b| && b[i] == c;
    assert list[|pre| + |a| + i].clip == CustomClip(c);
  }

  /** The drought playlist is the old list, then the native standard copies, then, once
      loading has succeeded, the hazardous-only and both-weather entries. */
  lemma DroughtGetsNativesHazardousAndBoth(inst: Sounds, loader: LoaderState, config: Option<MelodyConfig>)
    requires EssentialsPresent(inst)
    ensures var list := ResultList(CreateAudioSourcesPostfix(inst, DroughtTrackName, loader, config), DroughtTrackName);
      var existing := ExistingList(inst.sounds.value, DroughtTrackName);
      var natives := NativeCopies(StandardClipNames(inst.audioClipService.value), inst.audioSourceFactory.value, DroughtTrackName);
      && list == existing + DroughtAdditions(inst.audioClipService.value, inst.audioSourceFactory.value, loader, config)
      && existing + natives <= list
      && (!CustomTracksReady(loader) ==> list == existing + natives)
  {
    var existing := ExistingList(inst.sounds.value, DroughtTrackName);
    var service := inst.audioClipService.value;
    var factory := inst.audioSourceFactory.value;
    DroughtListContents(existing, service, factory, loader, config);
  }

  /** After the native copies, the drought playlist gains only hazardous-only and
      both-weather clips: never a temperate-only one. */
  lemma DroughtNeverGetsTemperateOnly(inst: Sounds, loader: LoaderState, config: Option<MelodyConfig>, k: nat)
    requires EssentialsPresent(inst)
    requires var list := ResultList(CreateAudioSourcesPostfix(inst, DroughtTrackName, loader, config), DroughtTrackName);
      var existing := ExistingList(inst.sounds.value, DroughtTrackName);
      var natives := NativeCopies(StandardClipNames(inst.audioClipService.value), inst.audioSourceFactory.value, DroughtTrackName);
      |existing| + |natives| <= k < |list|
    ensures var list := ResultList(CreateAudioSourcesPostfix(inst, DroughtTrackName, loader, config), DroughtTrackName);
      && list[k].clip.CustomClip?
      && (list[k].clip.clip in loader.loadedHazardousOnlyTracks || list[k].clip.clip in loader.loadedBothTracks)
  {
    var existing := ExistingList(inst.sounds.value, DroughtTrackName);
    var service := inst.audioClipService.value;
    var factory := inst.audioSourceFactory.value;
    var natives := NativeCopies(StandardClipNames(service), factory, DroughtTrackName);
    DroughtListContents(existing, service, factory, loader, config);
    var list := ResultList(CreateAudioSourcesPostfix(inst, DroughtTrackName, loader, config), DroughtTrackName);
    var h := CustomEntries(loader.loadedHazardousOnlyTracks, DroughtTrackName, config, Some(factory));
    var b := CustomEntries(loader.loadedBothTracks, DroughtTrackName, config, Some(factory));
    if CustomTracksReady(loader) {
      DroughtReadyList(inst, loader, config);
      assert list[k] == (h + b)[k - (|existing| + |natives|)];
      CustomEntriesFrom(loader.loadedHazardousOnlyTracks, loader.loadedBothTracks, DroughtTrackName, config, Some(factory), k - (|existing| + |natives|));
    }
  }

  /** With all components present, the postfix leaves the drought branch's list under
      the drought token. */
  lemma DroughtPostfixList(inst: Sounds, loader: LoaderState, config: Option<MelodyConfig>)
    requires EssentialsPresent(inst)
    ensures ResultList(CreateAudioSourcesPostfix(inst, DroughtTrackName, loader, config), DroughtTrackName)
         == DroughtList(ExistingList(inst.sounds.value, DroughtTrackName), inst.audioClipService.value,
                        inst.audioSourceFactory.value, loader, config)
  {
    TokensDistinct();
  }

  /** Once loading has succeeded, the drought list splits into the old entries and the
      native copies, then the hazardous-only and both-weather entries. */
  lemma DroughtReadyList(inst: Sounds, loader: LoaderState, config: Option<MelodyConfig>)
    requires EssentialsPresent(inst) && CustomTracksReady(loader)
    ensures ResultList(CreateAudioSourcesPostfix(inst, DroughtTrackName, loader, config), DroughtTrackName)
         == (ExistingList(inst.sounds.value, DroughtTrackName)
             + NativeCopies(StandardClipNames(inst.audioClipService.value), inst.audioSourceFactory.value, DroughtTrackName))
            + (CustomEntries(loader.loadedHazardousOnlyTracks, DroughtTrackName, config, inst.audioSourceFactory)
               + CustomEntries(loader.loadedBothTracks, DroughtTrackName, config, inst.audioSourceFactory))
  {
    var existing := ExistingList(inst.sounds.value, DroughtTrackName);
    var service := inst.audioClipService.value;
    var factory := inst.audioSourceFactory.value;
    var natives := NativeCopies(StandardClipNames(service), factory, DroughtTrackName);
    var h := CustomEntries(loader.loadedHazardousOnlyTracks, DroughtTrackName, config, Some(factory));
    var b := CustomEntries(loader.loadedBothTracks, DroughtTrackName, config, Some(factory));
    DroughtPostfixList(inst, loader, config);
    DroughtListContents(existing, service, factory, loader, config);
    assert DroughtAdditions(service, factory, loader, config) == natives + (h + b);
    SeqAppendAssoc(existing, natives, h + b);
  }

  /** Once loading has succeeded, the drought playlist plays every both-weather clip. */
  lemma DroughtGetsEveryBothTrack(inst: Sounds, loader: LoaderState, config: Option<MelodyConfig>, c: Clip)
    requires EssentialsPresent(inst)
    requires CustomTracksReady(loader) && c in loader.loadedBothTracks
    ensures var list := ResultList(CreateAudioSourcesPostfix(inst, DroughtTrackName, loader, config), DroughtTrackName);
      exists k :: 0 <= k < |list| && list[k].clip == CustomClip(c)
  {
    DroughtReadyList(inst, loader, config);
    CustomEntriesCover(ExistingList(inst.sounds.value, DroughtTrackName)
                         + NativeCopies(StandardClipNames(inst.audioClipService.value), inst.audioSourceFactory.value, DroughtTrackName),
                       loader.loadedHazardousOnlyTracks, loader.loadedBothTracks, DroughtTrackName, config, inst.audioSourceFactory, c);
  }

  /** Cold race: a drought playlist built after the scan started but before any decode
      finished holds the old entries and the native standard copies, and no custom entry. */
  lemma ColdRaceDrought(inst: Sounds, loader: LoaderState, config: Option<MelodyConfig>)
    requires EssentialsPresent(inst)
    requires loader.isLoadingAttempted && !loader.isLoadingSuccessful
    ensures ResultList(CreateAudioSourcesPostfix(inst, DroughtTrackName, loader, config), DroughtTrackName)
         == ExistingList(inst.sounds.value, DroughtTrackName)
            + NativeCopies(StandardClipNames(inst.audioClipService.value), inst.audioSourceFactory.value, DroughtTrackName)
  {
    DroughtGetsNativesHazardousAndBoth(inst, loader, config);
  }

  /** The volume clamp on the sample multipliers -1, 0, 0.5, 1 and 5. */
  lemma VolumeExamples()
    ensures CustomTrackVolume(Some(MelodyConfig(1, -1.0, true, false))) == 0.0
    ensures CustomTrackVolume(Some(MelodyConfig(1, 0.0, true, false))) == 0.0
    ensures CustomTrackVolume(Some(MelodyConfig(1, 0.5, true, false))) == 0.5
    ensures CustomTrackVolume(Some(MelodyConfig(1, 1.0, true, false))) == 1.0
    ensures CustomTrackVolume(Some(MelodyConfig(1, 5.0, true, false))) == 1.0
    ensures CustomTrackVolume(None) == 1.0
  {
  }
}
