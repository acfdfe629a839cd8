/** The file-backed guild of guild.py: per-guild settings and data records under a guilds
    directory, loaded at construction (stored records win over defaults), channel ids
    updated in memory, and records written back only by the explicit write methods. */
module FileGuild {
  import opened Common
  import opened Decimal

  const GUILD_ID_KEY := "Guild ID"
  const MAIN_CHANNEL_KEY := "Main channel ID"
  const VOICE_CHANNEL_KEY := "Voice channel ID"
  const DEFAULT_GUILDS_DIR := "guilds"

  /** `{guilds_dir}/{id}_settings.json` */
  function SettingsPath(dir: string, id: int): string {
    Join(dir, IntToString(id) + "_settings.json")
  }

  /** `{guilds_dir}/{id}_data.json` */
  function DataPath(dir: string, id: int): string {
    Join(dir, IntToString(id) + "_data.json")
  }

  /** The settings record of a guild with the given channel ids. */
  function SettingsRecord(id: int, main: int, voice: int): Record {
    map[GUILD_ID_KEY := Int(id), MAIN_CHANNEL_KEY := Int(main), VOICE_CHANNEL_KEY := Int(voice)]
  }

  /** A settings record from which both channel ids can be read. */
  predicate HasChannelIds(r: Record) {
    MAIN_CHANNEL_KEY in r && r[MAIN_CHANNEL_KEY].Int? && VOICE_CHANNEL_KEY in r && r[VOICE_CHANNEL_KEY].Int?
  }

  /** The settings `load_settings` adopts: the stored record, or the defaults when there is no file. */
  function LoadedSettings(files: Files, dir: string, id: int): Record {
    if SettingsPath(dir, id) in files then files[SettingsPath(dir, id)] else SettingsRecord(id, 0, 0)
  }

  /** The data `load_data` adopts: the stored record, or the caller's default when there is no file. */
  function LoadedData(files: Files, dir: string, id: int, defaultData: Record): Record {
    if DataPath(dir, id) in files then files[DataPath(dir, id)] else defaultData
  }

  /** Two strings whose endings differ at the same distance from the end are different. */
  lemma DifferentEndings(x: string, y: string, s: string, d: string, k: nat)
    requires |x| >= |s| && x[|x| - |s|..] == s && |y| >= |d| && y[|y| - |d|..] == d
    requires 0 < k <= |s| && k <= |d| && s[|s| - k] != d[|d| - k]
    ensures x != y
  {
    assert x[|x| - k] == x[|x| - |s|..][|s| - k];
    assert y[|y| - k] == y[|y| - |d|..][|d| - k];
  }

  /** A settings file and a data file never share a path, whatever the two guild ids:
      ten characters from the end, one has 't' and the other '_'. */
  lemma SettingsAndDataPathsDistinct(dir: string, a: int, b: int)
    ensures SettingsPath(dir, a) != DataPath(dir, b)
  {
    var s, d := IntToString(a) + "_settings.json", IntToString(b) + "_data.json";
    assert s[|s| - 10] == "_settings.json"[4] == 't';
    assert d[|d| - 10] == "_data.json"[0] == '_';
    DifferentEndings(SettingsPath(dir, a), DataPath(dir, b), s, d, 10);
  }

  /** Different guilds have different settings files, and different data files. */
  lemma PathsInjective(dir: string, a: int, b: int)
    ensures SettingsPath(dir, a) == SettingsPath(dir, b) <==> a == b
    ensures DataPath(dir, a) == DataPath(dir, b) <==> a == b
  {
    IntToStringRelative(a, "_settings.json");
    IntToStringRelative(b, "_settings.json");
    IntToStringRelative(a, "_data.json");
    IntToStringRelative(b, "_data.json");
    JoinInjective(dir, IntToString(a) + "_settings.json", IntToString(b) + "_settings.json");
    JoinInjective(dir, IntToString(a) + "_data.json", IntToString(b) + "_data.json");
    SuffixCancel(IntToString(a), IntToString(b), "_settings.json");
    SuffixCancel(IntToString(a), IntToString(b), "_data.json");
    IntToStringInjective(a, b);
  }

  /** Writing the settings record of guild `a` changes neither what guild `b != a` loads
      as settings nor what any guild loads as data. */
  lemma SettingsWriteIsolated(files: Files, dir: string, a: int, rec: Record, b: int, defaultData: Record)
    ensures a != b ==> LoadedSettings(files[SettingsPath(dir, a) := rec], dir, b) == LoadedSettings(files, dir, b)
    ensures LoadedData(files[SettingsPath(dir, a) := rec], dir, b, defaultData) == LoadedData(files, dir, b, defaultData)
  {
    PathsInjective(dir, a, b);
    SettingsAndDataPathsDistinct(dir, a, b);
  }

  /** Writing the data record of guild `a` changes no guild's settings and no other guild's data. */
  lemma DataWriteIsolated(files: Files, dir: string, a: int, rec: Record, b: int, defaultData: Record)
    ensures LoadedSettings(files[DataPath(dir, a) := rec], dir, b) == LoadedSettings(files, dir, b)
    ensures a != b ==> LoadedData(files[DataPath(dir, a) := rec], dir, b, defaultData) == LoadedData(files, dir, b, defaultData)
  {
    PathsInjective(dir, a, b);
    SettingsAndDataPathsDistinct(dir, b, a);
  }

  /** A written settings record is read back with the same channel ids. */
  lemma SettingsRoundTrip(files: Files, dir: string, id: int, main: int, voice: int)
    ensures HasChannelIds(LoadedSettings(files[SettingsPath(dir, id) := SettingsRecord(id, main, voice)], dir, id))
    ensures LoadedSettings(files[SettingsPath(dir, id) := SettingsRecord(id, main, voice)], dir, id)[MAIN_CHANNEL_KEY] == Int(main)
    ensures LoadedSettings(files[SettingsPath(dir, id) := SettingsRecord(id, main, voice)], dir, id)[VOICE_CHANNEL_KEY] == Int(voice)
  {
  }

  /** Without a settings file the defaults are the guild id and two zero channel ids;
      without a data file the caller's default is used; a stored record always wins. */
  lemma LoadDefaults(files: Files, dir: string, id: int, defaultData: Record)
    ensures SettingsPath(dir, id) !in files ==> LoadedSettings(files, dir, id) == map[GUILD_ID_KEY := Int(id), MAIN_CHANNEL_KEY := Int(0), VOICE_CHANNEL_KEY := Int(0)]
    ensures SettingsPath(dir, id) in files ==> LoadedSettings(files, dir, id) == files[SettingsPath(dir, id)]
    ensures DataPath(dir, id) !in files ==> LoadedData(files, dir, id, defaultData) == defaultData
    ensures DataPath(dir, id) in files ==> LoadedData(files, dir, id, defaultData) == files[DataPath(dir, id)]
  {
  }

  /** A written data record is read back from the same directory. */
  lemma DataRoundTrip(files: Files, dir: string, id: int, rec: Record, defaultData: Record)
    ensures LoadedData(files[DataPath(dir, id) := rec], dir, id, defaultData) == rec
  {
  }

  /** The data file of guild 1 stored under a directory `custom` is not what construction
      with `guilds_dir = custom` adopts: it reads `guilds/1_data.json`, which is missing, and
      falls back to the default. */
  lemma ConstructorDataDirCounterexample()
    ensures var files := map[DataPath("custom", 1) := map["Meetings" := Int(1)]];
      LoadedData(files, DEFAULT_GUILDS_DIR, 1, map[]) == map[] &&
      LoadedData(files, "custom", 1, map[]) == map["Meetings" := Int(1)]
  {
    assert IntToString(1) == "1";
    assert "custom"[5] != '/' && "guilds"[5] != '/';
    assert DataPath("custom", 1) == "custom/1_data.json";
    assert DataPath(DEFAULT_GUILDS_DIR, 1) == "guilds/1_data.json";
  }

  class Guild {
    const identification: int
    /** `bot.get_guild(id)`, captured at construction. */
    const guild: Option<GuildView>
    var settings: Record
    var storedData: Record
    var mainChannelId: int
    var voiceChannelId: int
    var mainChannel: Option<Channel>
    var voiceChannel: Option<Channel>
    /** The records handed to the abstract `set_loaded_data` hook, in order. */
    var loadedDataHooks: seq<Record>

    /** The in-memory settings record carries both channel ids. */
    ghost predicate Valid()
      reads this
    {
      HasChannelIds(settings)
    }

    /** `Guild(identification, default_data, bot, guilds_dir)`: loads the settings from
        `guildsDir`, then the data. As written, the data is loaded without passing
        `guilds_dir`, so it always comes from the default directory. Construction raises
        when a stored settings record lacks a channel id; one that holds a non-integer id
        is excluded too, although the source would carry it along. */
    constructor (identification: int, defaultData: Record, p: Platform, guildsDir: string, files: Files)
      requires HasChannelIds(LoadedSettings(files, guildsDir, identification))
      ensures this.identification == identification && guild == GetGuild(p, identification)
      ensures settings == LoadedSettings(files, guildsDir, identification) && Valid()
      ensures mainChannelId == settings[MAIN_CHANNEL_KEY].n
      ensures voiceChannelId == settings[VOICE_CHANNEL_KEY].n
      ensures mainChannel == GetChannel(p, mainChannelId)
      ensures voiceChannel == GetChannel(p, voiceChannelId)
      ensures storedData == LoadedData(files, DEFAULT_GUILDS_DIR, identification, defaultData)
      ensures loadedDataHooks == [storedData]
    {
      this.identification := identification;
      guild := GetGuild(p, identification);
      settings := map[];
      storedData := map[];
      mainChannelId := 0;
      voiceChannelId := 0;
      mainChannel := None;
      voiceChannel := None;
      loadedDataHooks := [];
      new;
      var ok := LoadSettings(guildsDir, files, p);
      LoadData(defaultData, DEFAULT_GUILDS_DIR, files);
    }

    /** The constructor as evidently intended: settings and data both come from `guildsDir`. */
    constructor WithDataDir(identification: int, defaultData: Record, p: Platform, guildsDir: string, files: Files)
      requires HasChannelIds(LoadedSettings(files, guildsDir, identification))
      ensures this.identification == identification && guild == GetGuild(p, identification)
      ensures settings == LoadedSettings(files, guildsDir, identification) && Valid()
      ensures mainChannelId == settings[MAIN_CHANNEL_KEY].n
      ensures voiceChannelId == settings[VOICE_CHANNEL_KEY].n
      ensures mainChannel == GetChannel(p, mainChannelId)
      ensures voiceChannel == GetChannel(p, voiceChannelId)
      ensures storedData == LoadedData(files, guildsDir, identification, defaultData)
      ensures loadedDataHooks == [storedData]
    {
      this.identification := identification;
      guild := GetGuild(p, identification);
      settings := map[];
      storedData := map[];
      mainChannelId := 0;
      voiceChannelId := 0;
      mainChannel := None;
      voiceChannel := None;
      loadedDataHooks := [];
      new;
      var ok := LoadSettings(guildsDir, files, p);
      LoadData(defaultData, guildsDir, files);
    }

    /** `prepare_settings`: the record built from the current id and channel ids. */
    function PrepareSettings(): (r: Record)
      reads this
      ensures HasChannelIds(r)
      ensures r[MAIN_CHANNEL_KEY] == Int(mainChannelId) && r[VOICE_CHANNEL_KEY] == Int(voiceChannelId)
      ensures GUILD_ID_KEY in r && r[GUILD_ID_KEY] == Int(identification) && |r.Keys| == 3
    {
      SettingsRecord(identification, mainChannelId, voiceChannelId)
    }

    /** `set_loaded_settings`: adopts the ids of `s` and resolves both handles. `ok` is false
        where the source raises: the main id is read (and assigned) before the voice id. */
    method SetLoadedSettings(s: Record, p: Platform) returns (ok: bool)
      modifies this`mainChannelId, this`voiceChannelId, this`mainChannel, this`voiceChannel
      ensures ok <==> HasChannelIds(s)
      ensures settings == old(settings) && storedData == old(storedData)
      ensures ok ==> mainChannelId == s[MAIN_CHANNEL_KEY].n && voiceChannelId == s[VOICE_CHANNEL_KEY].n
      ensures ok ==> mainChannel == GetChannel(p, mainChannelId) && voiceChannel == GetChannel(p, voiceChannelId)
      ensures !ok ==> voiceChannelId == old(voiceChannelId) && mainChannel == old(mainChannel) && voiceChannel == old(voiceChannel)
      ensures !ok && MAIN_CHANNEL_KEY in s && s[MAIN_CHANNEL_KEY].Int? ==> mainChannelId == s[MAIN_CHANNEL_KEY].n
      ensures !ok && !(MAIN_CHANNEL_KEY in s && s[MAIN_CHANNEL_KEY].Int?) ==> mainChannelId == old(mainChannelId)
    {
      if !(MAIN_CHANNEL_KEY in s && s[MAIN_CHANNEL_KEY].Int?) {
        return false;
      }
      mainChannelId := s[MAIN_CHANNEL_KEY].n;
      if !(VOICE_CHANNEL_KEY in s && s[VOICE_CHANNEL_KEY].Int?) {
        return false;
      }
      voiceChannelId := s[VOICE_CHANNEL_KEY].n;
      mainChannel := GetChannel(p, mainChannelId);
      voiceChannel := GetChannel(p, voiceChannelId);
      ok := true;
    }

    /** `write_settings`: rebuilds `settings` from the current ids and stores it in this
        guild's settings file; nothing else in the file system changes. */
    method WriteSettings(guildsDir: string, files: Files) returns (files': Files)
      modifies this`settings
      ensures settings == PrepareSettings() && Valid()
      ensures files' == files[SettingsPath(guildsDir, identification) := settings]
    {
      settings := PrepareSettings();
      files' := files[SettingsPath(guildsDir, identification) := settings];
    }

    /** `load_settings`: adopts the stored record when the file exists, otherwise the
        defaults (the defaults are not written back), then applies it. */
    method LoadSettings(guildsDir: string, files: Files, p: Platform) returns (ok: bool)
      modifies this`settings, this`mainChannelId, this`voiceChannelId, this`mainChannel, this`voiceChannel
      ensures settings == LoadedSettings(files, guildsDir, identification)
      ensures ok <==> Valid()
      ensures storedData == old(storedData)
      ensures ok ==> mainChannelId == settings[MAIN_CHANNEL_KEY].n && voiceChannelId == settings[VOICE_CHANNEL_KEY].n
      ensures ok ==> mainChannel == GetChannel(p, mainChannelId) && voiceChannel == GetChannel(p, voiceChannelId)
    {
      var path := SettingsPath(guildsDir, identification);
      if path in files {
        settings := files[path];
      } else {
        settings := map[GUILD_ID_KEY := Int(identification), MAIN_CHANNEL_KEY := Int(0), VOICE_CHANNEL_KEY := Int(0)];
      }
      ok := SetLoadedSettings(settings, p);
    }

    /** `write_data`: stores the record produced by the `prepare_data` hook in this
        guild's data file and keeps it as the stored data. */
    method WriteData(prepared: Record, guildsDir: string, files: Files) returns (files': Files)
      modifies this`storedData
      ensures storedData == prepared
      ensures files' == files[DataPath(guildsDir, identification) := prepared]
    {
      storedData := prepared;
      files' := files[DataPath(guildsDir, identification) := storedData];
    }

    /** `load_data`: the stored record when the file exists, otherwise `defaultData`; the
        adopted record is then handed to the `set_loaded_data` hook. */
    method LoadData(defaultData: Record, guildsDir: string, files: Files)
      modifies this`storedData, this`loadedDataHooks
      ensures storedData == LoadedData(files, guildsDir, identification, defaultData)
      ensures loadedDataHooks == old(loadedDataHooks) + [storedData]
    {
      var path := DataPath(guildsDir, identification);
      if path in files {
        storedData := files[path];
      } else {
        storedData := defaultData;
      }
      loadedDataHooks := loadedDataHooks + [storedData];
    }

    /** `get_main_channel`: when the stored main id no longer resolves, falls back to the
        guild's first text channel (the source raises if there is none). */
    method GetMainChannel(p: Platform) returns (r: Option<Channel>)
      requires GetChannel(p, mainChannelId).None? ==> guild.Some? && |guild.value.textChannels| > 0
      modifies this`mainChannel
      ensures GetChannel(p, mainChannelId).None? ==> r == Some(guild.value.textChannels[0])
      ensures GetChannel(p, mainChannelId).Some? ==> r == old(mainChannel)
      ensures mainChannel == r
    {
      if GetChannel(p, mainChannelId).None? {
        mainChannel := Some(guild.value.textChannels[0]);
      }
      r := mainChannel;
    }

    /** `update_main_channel`: sets the main id; the handle is resolved from the id still
        held in `settings`, not from the new one. Nothing is written. */
    method UpdateMainChannel(mainId: int, p: Platform)
      requires MAIN_CHANNEL_KEY in settings
      modifies this`mainChannelId, this`mainChannel
      ensures mainChannelId == mainId
      ensures mainChannel == GetChannelByValue(p, settings[MAIN_CHANNEL_KEY])
    {
      mainChannelId := mainId;
      mainChannel := GetChannelByValue(p, settings[MAIN_CHANNEL_KEY]);
    }

    /** `get_voice_channel`: as written, replaces the handle by the guild's first voice
        channel when the stored voice id DOES resolve (the source raises if there is none). */
    method GetVoiceChannel(p: Platform) returns (r: Option<Channel>)
      requires GetChannel(p, voiceChannelId).Some? ==> guild.Some? && |guild.value.voiceChannels| > 0
      modifies this`voiceChannel
      ensures GetChannel(p, voiceChannelId).Some? ==> r == Some(guild.value.voiceChannels[0])
      ensures GetChannel(p, voiceChannelId).None? ==> r == old(voiceChannel)
      ensures voiceChannel == r
    {
      if GetChannel(p, voiceChannelId).Some? {
        voiceChannel := Some(guild.value.voiceChannels[0]);
      }
      r := voiceChannel;
    }

    /** `update_voice_channel`: sets the voice id; the handle comes from the stale id in
        `settings`. Nothing is written. */
    method UpdateVoiceChannel(voiceId: int, p: Platform)
      requires VOICE_CHANNEL_KEY in settings
      modifies this`voiceChannelId, this`voiceChannel
      ensures voiceChannelId == voiceId
      ensures voiceChannel == GetChannelByValue(p, settings[VOICE_CHANNEL_KEY])
    {
      voiceChannelId := voiceId;
      voiceChannel := GetChannelByValue(p, settings[VOICE_CHANNEL_KEY]);
    }
  }

  /** Writing a guild's settings and constructing a fresh guild for the same id from the
      resulting files restores both channel ids. */
  method WriteThenReload(g: Guild, defaultData: Record, p: Platform, guildsDir: string, files: Files)
    returns (reloaded: Guild)
    modifies g`settings
    ensures reloaded.identification == g.identification
    ensures reloaded.mainChannelId == g.mainChannelId && reloaded.voiceChannelId == g.voiceChannelId
    ensures reloaded.mainChannelId == old(g.mainChannelId) && reloaded.voiceChannelId == old(g.voiceChannelId)
  {
    var written := g.WriteSettings(guildsDir, files);
    SettingsRoundTrip(files, guildsDir, g.identification, g.mainChannelId, g.voiceChannelId);
    reloaded := new Guild(g.identification, defaultData, p, guildsDir, written);
  }

  /** An update is not persisted: after `update_main_channel`, a fresh guild loaded from the
      unchanged files still sees the previously stored main id. */
  method UpdateIsNotPersisted(g: Guild, mainId: int, defaultData: Record, p: Platform, guildsDir: string, files: Files)
    returns (reloaded: Guild)
    requires MAIN_CHANNEL_KEY in g.settings
    requires HasChannelIds(LoadedSettings(files, guildsDir, g.identification))
    modifies g`mainChannelId, g`mainChannel
    ensures g.mainChannelId == mainId
    ensures reloaded.mainChannelId == LoadedSettings(files, guildsDir, g.identification)[MAIN_CHANNEL_KEY].n
  {
    g.UpdateMainChannel(mainId, p);
    reloaded := new Guild(g.identification, defaultData, p, guildsDir, files);
  }

  /** With the corrected constructor, data written by `write_data` under a guilds directory
      is what a guild built for that directory adopts. */
  method WriteDataThenReload(g: Guild, prepared: Record, defaultData: Record, p: Platform, guildsDir: string, files: Files)
    returns (reloaded: Guild)
    requires HasChannelIds(LoadedSettings(files, guildsDir, g.identification))
    modifies g`storedData
    ensures reloaded.identification == g.identification
    ensures reloaded.storedData == prepared
  {
    var written := g.WriteData(prepared, guildsDir, files);
    SettingsAndDataPathsDistinct(guildsDir, g.identification, g.identification);
    assert LoadedSettings(written, guildsDir, g.identification) == LoadedSettings(files, guildsDir, g.identification);
    reloaded := new Guild.WithDataDir(g.identification, defaultData, p, guildsDir, written);
  }
}
