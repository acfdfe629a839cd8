/** The earlier bot of source/bot.py: the internal settings come from the `System`
    directory and are mandatory, one activity is chosen once at start-up, and each guild
    keeps a single settings record `Guilds/{id}.json` that `update_*` change in memory and
    `write_settings*` persist. */
module CustomBotSystem {
  import opened Common
  import opened Decimal
  import opened Config

  const SYSTEM_DIR := "System"
  const GUILDS_DIR := "Guilds"
  const ADMINS_KEY := "ADM_ID"
  const TOKEN_KEY := "TOKEN"
  const ACTIVITIES_KEY := "Activities"
  const GUILD_ID_KEY := "Guild ID"
  const MAIN_CHANNEL_KEY := "Main channel ID"
  const VOICE_CHANNEL_KEY := "Voice channel ID"
  const MEETINGS_KEY := "Meetings"

  /** `join("System", file_name)` */
  function SystemPath(fileName: string): string {
    Join(SYSTEM_DIR, fileName)
  }

  /** `load_internal_settings(file_name)`: nothing for the empty name or a missing file,
      otherwise the decoded file under the system directory. */
  function LoadSystemSettings(fileName: string, files: Files): (r: Option<Record>)
    ensures fileName == "" ==> r.None?
    ensures fileName != "" ==> (r.Some? <==> SystemPath(fileName) in files)
    ensures r.Some? ==> r.value == files[SystemPath(fileName)]
  {
    if fileName == "" then None
    else if SystemPath(fileName) in files then Some(files[SystemPath(fileName)])
    else None
  }

  /** The loader is the shared settings loader applied to `join("System", file_name)`,
      which is never empty: a relative name is read under the system directory, an
      absolute one as given. */
  lemma SystemLoaderIsSharedLoader(fileName: string, files: Files)
    requires fileName != ""
    ensures SystemPath(fileName) != ""
    ensures Relative(fileName) ==> SystemPath(fileName) == "System/" + fileName
    ensures !Relative(fileName) ==> SystemPath(fileName) == fileName
    ensures LoadSystemSettings(fileName, files) == LoadInternalSettings(SystemPath(fileName), files)
  {
  }

  /** A record from which `set_internal_settings` reads every field without raising: the
      admin ids convert, the token is text and `choice` has a non-empty list to pick from. */
  predicate SettingsUsable(r: Record) {
    AdminIds(r, ADMINS_KEY).Some? && TextField(r, TOKEN_KEY).Some? &&
    TextListField(r, ACTIVITIES_KEY).Some? && |TextListField(r, ACTIVITIES_KEY).value| > 0
  }

  /** `os.path.join("Guilds", f"{id}.json")` */
  function GuildPath(id: int): string {
    Join(GUILDS_DIR, IntToString(id) + ".json")
  }

  /** The settings a guild without a file starts from. */
  function DefaultSettings(id: int): Record {
    map[GUILD_ID_KEY := Int(id), MAIN_CHANNEL_KEY := Int(0), VOICE_CHANNEL_KEY := Int(0), MEETINGS_KEY := Dict(map[])]
  }

  /** The settings the constructor adopts: the stored record wins over the defaults. */
  function LoadedSettings(files: Files, id: int): Record {
    if GuildPath(id) in files then files[GuildPath(id)] else DefaultSettings(id)
  }

  /** A settings record from which both channel ids can be looked up. */
  predicate HasChannelKeys(r: Record) {
    MAIN_CHANNEL_KEY in r && VOICE_CHANNEL_KEY in r
  }

  /** Different guilds never share a settings file. */
  lemma GuildPathsInjective(a: int, b: int)
    ensures GuildPath(a) == GuildPath(b) <==> a == b
  {
    IntToStringRelative(a, ".json");
    IntToStringRelative(b, ".json");
    JoinInjective(GUILDS_DIR, IntToString(a) + ".json", IntToString(b) + ".json");
    SuffixCancel(IntToString(a), IntToString(b), ".json");
    IntToStringInjective(a, b);
  }

  /** A stored record is loaded back unchanged, and storing it changes what no other guild loads. */
  lemma SettingsRoundTrip(files: Files, id: int, s: Record, other: int)
    ensures LoadedSettings(files[GuildPath(id) := s], id) == s
    ensures other != id ==> LoadedSettings(files[GuildPath(id) := s], other) == LoadedSettings(files, other)
  {
    GuildPathsInjective(id, other);
  }

  /** Without a file a guild starts from its id, two zero channel ids and no meetings; the
      defaults always carry both channel keys. */
  lemma DefaultsWhenMissing(files: Files, id: int)
    ensures GuildPath(id) !in files ==> LoadedSettings(files, id)[GUILD_ID_KEY] == Int(id)
    ensures GuildPath(id) !in files ==>
      LoadedSettings(files, id)[MAIN_CHANNEL_KEY] == Int(0) && LoadedSettings(files, id)[VOICE_CHANNEL_KEY] == Int(0)
    ensures GuildPath(id) !in files ==> LoadedSettings(files, id)[MEETINGS_KEY] == Dict(map[])
    ensures GuildPath(id) !in files ==> HasChannelKeys(LoadedSettings(files, id))
    ensures GuildPath(id) in files ==> LoadedSettings(files, id) == files[GuildPath(id)]
  {
  }

  class CustomGuild {
    const identification: int
    /** `bot.get_guild(id)`, captured at construction. */
    const guild: Option<GuildView>
    var settings: Record
    var mainChannel: Option<Channel>
    var voiceChannel: Option<Channel>

    /** Both channel keys are present, so every getter can look them up. */
    ghost predicate Valid()
      reads this
    {
      HasChannelKeys(settings)
    }

    /** `CustomGuild(identification, bot)`: loads the stored settings or the defaults and
        resolves both handles. Construction raises when a stored record lacks a channel key. */
    constructor (identification: int, p: Platform, files: Files)
      requires HasChannelKeys(LoadedSettings(files, identification))
      ensures this.identification == identification && guild == GetGuild(p, identification)
      ensures settings == LoadedSettings(files, identification) && Valid()
      ensures mainChannel == GetChannelByValue(p, settings[MAIN_CHANNEL_KEY])
      ensures voiceChannel == GetChannelByValue(p, settings[VOICE_CHANNEL_KEY])
    {
      this.identification := identification;
      var path := GuildPath(identification);
      if path in files {
        settings := files[path];
      } else {
        settings := DefaultSettings(identification);
      }
      guild := GetGuild(p, identification);
      new;
      mainChannel := GetChannelByValue(p, settings[MAIN_CHANNEL_KEY]);
      voiceChannel := GetChannelByValue(p, settings[VOICE_CHANNEL_KEY]);
    }

    /** `write_settings`: the in-memory record is stored as this guild's file; nothing else
        in the file system changes. */
    method WriteSettings(files: Files) returns (files': Files)
      ensures LoadedSettings(files', identification) == settings
      ensures forall id :: id != identification ==> LoadedSettings(files', id) == LoadedSettings(files, id)
      ensures files'.Keys == files.Keys + {GuildPath(identification)} && files'[GuildPath(identification)] == settings
      ensures forall path :: path in files && path != GuildPath(identification) ==> files'[path] == files[path]
    {
      files' := files[GuildPath(identification) := settings];
      forall id | id != identification
        ensures LoadedSettings(files', id) == LoadedSettings(files, id)
      {
        SettingsRoundTrip(files, identification, settings, id);
      }
    }

    /** `get_main_channel`: when the stored main id does not resolve, falls back to the
        guild's first text channel (the source raises if there is none). */
    method GetMainChannel(p: Platform) returns (r: Option<Channel>)
      requires Valid()
      requires GetChannelByValue(p, settings[MAIN_CHANNEL_KEY]).None? ==> guild.Some? && |guild.value.textChannels| > 0
      modifies this`mainChannel
      ensures GetChannelByValue(p, settings[MAIN_CHANNEL_KEY]).None? ==> r == Some(guild.value.textChannels[0])
      ensures GetChannelByValue(p, settings[MAIN_CHANNEL_KEY]).Some? ==> r == old(mainChannel)
      ensures mainChannel == r
    {
      if GetChannelByValue(p, settings[MAIN_CHANNEL_KEY]).None? {
        mainChannel := Some(guild.value.textChannels[0]);
      }
      r := mainChannel;
    }

    /** `update_main_channel(id)`: stores the new id in the settings record, keeping every
        other entry, and resolves the handle from it. Nothing is written. */
    method UpdateMainChannel(mainId: int, p: Platform)
      modifies this`settings, this`mainChannel
      ensures settings == old(settings)[MAIN_CHANNEL_KEY := Int(mainId)]
      ensures old(Valid()) ==> Valid()
      ensures mainChannel == GetChannel(p, mainId)
    {
      settings := settings[MAIN_CHANNEL_KEY := Int(mainId)];
      mainChannel := GetChannelByValue(p, settings[MAIN_CHANNEL_KEY]);
    }

    /** `get_voice_channel`: as written, replaces the handle by the guild's first voice
        channel when the stored voice id DOES resolve (the source raises if there is none). */
    method GetVoiceChannel(p: Platform) returns (r: Option<Channel>)
      requires Valid()
      requires GetChannelByValue(p, settings[VOICE_CHANNEL_KEY]).Some? ==> guild.Some? && |guild.value.voiceChannels| > 0
      modifies this`voiceChannel
      ensures GetChannelByValue(p, settings[VOICE_CHANNEL_KEY]).Some? ==> r == Some(guild.value.voiceChannels[0])
      ensures GetChannelByValue(p, settings[VOICE_CHANNEL_KEY]).None? ==> r == old(voiceChannel)
      ensures voiceChannel == r
    {
      if GetChannelByValue(p, settings[VOICE_CHANNEL_KEY]).Some? {
        voiceChannel := Some(guild.value.voiceChannels[0]);
      }
      r := voiceChannel;
    }

    /** `update_voice_channel(id)`: stores the new id and resolves the handle from it. */
    method UpdateVoiceChannel(voiceId: int, p: Platform)
      modifies this`settings, this`voiceChannel
      ensures settings == old(settings)[VOICE_CHANNEL_KEY := Int(voiceId)]
      ensures old(Valid()) ==> Valid()
      ensures voiceChannel == GetChannel(p, voiceId)
    {
      settings := settings[VOICE_CHANNEL_KEY := Int(voiceId)];
      voiceChannel := GetChannelByValue(p, settings[VOICE_CHANNEL_KEY]);
    }
  }

  /** The files `write_settings_for_all` writes: one per registered guild in `keys`. */
  function WrittenPaths(guilds: map<string, CustomGuild>, keys: set<string>): set<string>
    requires keys <= guilds.Keys
  {
    set k | k in keys :: GuildPath(guilds[k].identification)
  }

  lemma WrittenPathsStep(guilds: map<string, CustomGuild>, keys: set<string>, k: string)
    requires keys <= guilds.Keys && k in guilds
    ensures WrittenPaths(guilds, keys + {k}) == WrittenPaths(guilds, keys) + {GuildPath(guilds[k].identification)}
  {
  }

  /** The registry keys `str(id)` of a list of guild ids. */
  function IdKeys(ids: seq<int>): set<string> {
    set j | 0 <= j < |ids| :: IntToString(ids[j])
  }

  lemma IdKeysStep(ids: seq<int>, i: nat)
    requires i < |ids|
    ensures IdKeys(ids[..i + 1]) == IdKeys(ids[..i]) + {IntToString(ids[i])}
  {
    var a, b := ids[..i + 1], ids[..i];
    assert forall j :: 0 <= j < i ==> a[j] == b[j];
    assert a[i] == ids[i];
  }

  class CustomBot {
    const name: string
    const version: string
    var token: string
    var adminsId: seq<int>
    /** The guild registry, keyed by `str(guild_id)`. */
    var guilds: map<string, CustomGuild>
    /** The activity chosen once by `set_internal_settings`. */
    var activityStr: string
    var ready: bool

    /** Every registry key is the decimal text of its guild's id. */
    predicate KeysMatchIds()
      reads this
    {
      forall k :: k in guilds ==> k == IntToString(guilds[k].identification)
    }

    /** The registry is keyed by id and every registered guild carries both channel keys. */
    ghost predicate Valid()
      reads this, guilds.Values
    {
      KeysMatchIds() && forall k :: k in guilds ==> guilds[k].Valid()
    }

    /** `CustomBot(command_prefix, help_command, name, settings_file, version)`. The source
        indexes the loaded settings unconditionally, so a usable settings file must exist;
        `pick` stands for the index `choice` draws. */
    constructor (name: string, settingsFile: string, version: string, files: Files, pick: nat)
      requires LoadSystemSettings(settingsFile, files).Some?
      requires SettingsUsable(LoadSystemSettings(settingsFile, files).value)
      ensures this.name == name && this.version == version
      ensures guilds == map[] && !ready && Valid()
      ensures var r := LoadSystemSettings(settingsFile, files).value;
        adminsId == AdminIds(r, ADMINS_KEY).value && token == TextField(r, TOKEN_KEY).value &&
        activityStr in TextListField(r, ACTIVITIES_KEY).value
    {
      this.name := name;
      this.version := version;
      guilds := map[];
      adminsId := [];
      token := "";
      activityStr := "";
      ready := false;
      new;
      SetInternalSettings(settingsFile, files, pick);
    }

    /** `set_internal_settings(settings_file)`: the converted admin ids, the token and one of
        the listed activities, the one at index `pick` modulo the list length. */
    method SetInternalSettings(settingsFile: string, files: Files, pick: nat)
      requires LoadSystemSettings(settingsFile, files).Some?
      requires SettingsUsable(LoadSystemSettings(settingsFile, files).value)
      modifies this`adminsId, this`token, this`activityStr
      ensures var r := LoadSystemSettings(settingsFile, files).value;
        var acts := TextListField(r, ACTIVITIES_KEY).value;
        adminsId == AdminIds(r, ADMINS_KEY).value && token == TextField(r, TOKEN_KEY).value &&
        activityStr == acts[pick % |acts|] && activityStr in acts
    {
      var internalSettings := LoadSystemSettings(settingsFile, files).value;
      adminsId := AdminIds(internalSettings, ADMINS_KEY).value;
      token := TextField(internalSettings, TOKEN_KEY).value;
      var acts := TextListField(internalSettings, ACTIVITIES_KEY).value;
      activityStr := acts[pick % |acts|];
    }

    /** The guilds registered under `keys` hold the settings loaded for their own ids. */
    ghost predicate FreshlyLoaded(keys: set<string>, files: Files)
      reads this, guilds.Values
    {
      keys <= guilds.Keys && forall k :: k in keys ==> guilds[k].settings == LoadedSettings(files, guilds[k].identification)
    }

    /** Registers a freshly constructed guild object under `str(id)`, replacing any object
        registered under that key. */
    method AddCustomGuild(id: int, p: Platform, files: Files, ghost keys: set<string>)
      requires HasChannelKeys(LoadedSettings(files, id))
      requires Valid() && FreshlyLoaded(keys, files)
      modifies this`guilds
      ensures Valid() && FreshlyLoaded(keys + {IntToString(id)}, files)
      ensures guilds.Keys == old(guilds).Keys + {IntToString(id)}
      ensures forall k :: k in old(guilds) && k != IntToString(id) ==> guilds[k] == old(guilds)[k]
      ensures fresh(guilds[IntToString(id)])
      ensures guilds[IntToString(id)].identification == id
      ensures guilds[IntToString(id)].settings == LoadedSettings(files, id)
    {
      var g := new CustomGuild(id, p, files);
      guilds := guilds[IntToString(id) := g];
    }

    /** The guild scan of `prepare_data`: one freshly loaded guild object per id, in order;
        a repeated id keeps the last object. */
    method LoadGuildDefinitions(guildIds: seq<int>, p: Platform, files: Files)
      requires forall i :: 0 <= i < |guildIds| ==> HasChannelKeys(LoadedSettings(files, guildIds[i]))
      requires Valid()
      modifies this`guilds
      ensures Valid() && FreshlyLoaded(IdKeys(guildIds), files)
      ensures guilds.Keys == old(guilds).Keys + IdKeys(guildIds)
      ensures forall k :: k in old(guilds) && k !in IdKeys(guildIds) ==> guilds[k] == old(guilds)[k]
    {
      for i := 0 to |guildIds|
        invariant Valid() && FreshlyLoaded(IdKeys(guildIds[..i]), files)
        invariant guilds.Keys == old(guilds).Keys + IdKeys(guildIds[..i])
        invariant forall k :: k in old(guilds) && k !in IdKeys(guildIds[..i]) ==> guilds[k] == old(guilds)[k]
      {
        IdKeysStep(guildIds, i);
        AddCustomGuild(guildIds[i], p, files, IdKeys(guildIds[..i]));
      }
      assert guildIds[..|guildIds|] == guildIds;
    }

    /** `prepare_data`: the first call marks the bot ready, registers a guild object under
        `str(id)` for every current guild (loading its stored settings) and returns the
        presence it sets; every later call returns at once and sets none. */
    method PrepareData(guildIds: seq<int>, p: Platform, files: Files) returns (presence: Option<string>)
      requires !ready ==> forall i :: 0 <= i < |guildIds| ==> HasChannelKeys(LoadedSettings(files, guildIds[i]))
      requires Valid()
      modifies this`ready, this`guilds
      ensures ready && Valid()
      ensures old(ready) ==> guilds == old(guilds) && presence == None
      ensures !old(ready) ==> presence == Some(activityStr)
      ensures !old(ready) ==> guilds.Keys == old(guilds).Keys + IdKeys(guildIds)
      ensures !old(ready) ==> forall i :: 0 <= i < |guildIds| ==>
        guilds[IntToString(guildIds[i])].identification == guildIds[i] &&
        guilds[IntToString(guildIds[i])].settings == LoadedSettings(files, guildIds[i])
      ensures !old(ready) ==> forall k :: k in old(guilds) && k !in IdKeys(guildIds) ==> guilds[k] == old(guilds)[k]
    {
      if !ready {
        ready := true;
      } else {
        return None;
      }
      LoadGuildDefinitions(guildIds, p, files);
      forall i | 0 <= i < |guildIds|
        ensures guilds[IntToString(guildIds[i])].identification == guildIds[i]
        ensures guilds[IntToString(guildIds[i])].settings == LoadedSettings(files, guildIds[i])
      {
        assert IntToString(guildIds[i]) in IdKeys(guildIds);
        IntToStringInjective(guilds[IntToString(guildIds[i])].identification, guildIds[i]);
      }
      var shown := SetActivity(None);
      presence := Some(shown);
    }

    /** `set_activity(activity)`: the game name requested from the platform, the chosen
        activity when none is given. */
    method SetActivity(activity: Option<string>) returns (shown: string)
      ensures activity.Some? ==> shown == activity.value
      ensures activity.None? ==> shown == activityStr
    {
      if activity.Some? {
        shown := activity.value;
      } else {
        shown := activityStr;
      }
    }

    /** `run(*args)`: the positional arguments handed to the platform, with the token last. */
    method Run(args: seq<string>) returns (runArgs: seq<string>)
      ensures |runArgs| == |args| + 1 && runArgs[..|args|] == args && runArgs[|args|] == token
    {
      runArgs := args + [token];
    }

    /** `write_settings_for_guild(guild_id)`: stores that guild's in-memory settings as its
        file and changes no other file; the source raises KeyError for an unregistered id. */
    method WriteSettingsForGuild(guildId: int, files: Files) returns (files': Files)
      requires KeysMatchIds() && IntToString(guildId) in guilds
      ensures files' == files[GuildPath(guildId) := guilds[IntToString(guildId)].settings]
      ensures LoadedSettings(files', guildId) == guilds[IntToString(guildId)].settings
      ensures forall id :: id != guildId ==> LoadedSettings(files', id) == LoadedSettings(files, id)
    {
      var g := guilds[IntToString(guildId)];
      IntToStringInjective(g.identification, guildId);
      files' := g.WriteSettings(files);
    }

    /** `write_settings_for_all`: stores every registered guild's settings as its file and
        leaves every other file as it was. */
    method WriteSettingsForAll(files: Files) returns (files': Files)
      requires KeysMatchIds()
      ensures files'.Keys == files.Keys + WrittenPaths(guilds, guilds.Keys)
      ensures forall k :: k in guilds ==> files'[GuildPath(guilds[k].identification)] == guilds[k].settings
      ensures forall path :: path in files && path !in WrittenPaths(guilds, guilds.Keys) ==> files'[path] == files[path]
    {
      var gs := guilds;
      files' := files;
      var remaining := gs.Keys;
      ghost var done: set<string> := {};
      while remaining != {}
        invariant done + remaining == gs.Keys && done !! remaining
        invariant files'.Keys == files.Keys + WrittenPaths(gs, done)
        invariant forall k :: k in done ==> files'[GuildPath(gs[k].identification)] == gs[k].settings
        invariant forall path :: path in files && path !in WrittenPaths(gs, done) ==> files'[path] == files[path]
        decreases remaining
      {
        var k :| k in remaining;
        var g := gs[k];
        forall k' | k' in done
          ensures GuildPath(gs[k'].identification) != GuildPath(g.identification)
        {
          GuildPathsInjective(gs[k'].identification, g.identification);
        }
        WrittenPathsStep(gs, done, k);
        files' := g.WriteSettings(files');
        remaining := remaining - {k};
        done := done + {k};
      }
    }

    /** `is_admin(author_id)`. */
    predicate IsAdmin(authorId: int)
      reads this
    {
      authorId in adminsId
    }

    /** `get_custom_guild(guild_id)`: the guild registered under `str(guild_id)`; None where
        the source raises KeyError. */
    function GetCustomGuild(guildId: int): (r: Option<CustomGuild>)
      reads this
      ensures r.Some? <==> IntToString(guildId) in guilds
      ensures r.Some? && KeysMatchIds() ==> r.value.identification == guildId
    {
      var key := IntToString(guildId);
      if key in guilds then
        IntToStringInjective(guilds[key].identification, guildId);
        Some(guilds[key])
      else None
    }
  }

  /** Unlike guild.py, an update followed by `write_settings` is persisted: a guild built
      afterwards from the written files sees the new main channel id and the other entries. */
  method UpdateWriteReload(g: CustomGuild, mainId: int, p: Platform, files: Files)
    returns (reloaded: CustomGuild)
    requires g.Valid()
    modifies g`settings, g`mainChannel
    ensures reloaded.identification == g.identification
    ensures reloaded.settings == old(g.settings)[MAIN_CHANNEL_KEY := Int(mainId)]
    ensures reloaded.mainChannel == GetChannel(p, mainId)
  {
    g.UpdateMainChannel(mainId, p);
    var written := g.WriteSettings(files);
    reloaded := new CustomGuild(g.identification, p, written);
  }
}
