/** The bot of discord/bot.py: constructor defaults, a database controller only when a
    database path is given, the token chosen by the environment profile, a one-shot
    `prepare_data`, and guild join/leave events dispatched to the `add_guild` and
    `remove_guild` hooks. */
module DiscordBot {
  import opened Common
  import opened Decimal
  import opened Config
  import GuildTable
  import DiscordGuild

  const ADMINS_KEY := "adm_id"
  const TOKEN_KEY := "token"
  const DEVENV_TOKEN_KEY := "devenv_token"
  const ACTIVITIES_KEY := "activities"
  const DEFAULT_ACTIVITIES := ["Error"]

  /** The token key the profile reads: the development token in the development profile. */
  function TokenKey(devEnv: bool): (k: string)
    ensures devEnv ==> k == "devenv_token"
    ensures !devEnv ==> k == "token"
  {
    if devEnv then DEVENV_TOKEN_KEY else TOKEN_KEY
  }

  /** A settings record from which `set_internal_settings` reads every field it needs for
      the profile without raising. Only the profile's own token key is read. */
  predicate SettingsUsable(r: Record, devEnv: bool) {
    AdminIds(r, ADMINS_KEY).Some? && TextField(r, TokenKey(devEnv)).Some? && TextListField(r, ACTIVITIES_KEY).Some?
  }

  /** A call of the abstract registry hooks. */
  datatype GuildHook = AddGuild(id: int) | RemoveGuild(id: int)

  function AddGuildCalls(ids: seq<int>): (r: seq<GuildHook>)
    ensures |r| == |ids| && forall i :: 0 <= i < |ids| ==> r[i] == AddGuild(ids[i])
  {
    if ids == [] then [] else [AddGuild(ids[0])] + AddGuildCalls(ids[1..])
  }

  class Bot {
    const name: string
    const version: string
    var token: string
    var adminsId: seq<int>
    /** Filled by the subclass's `add_guild`; keyed by `str(guild_id)`. */
    var customGuilds: map<string, DiscordGuild.Guild>
    var activities: seq<string>
    var customReady: bool
    const databaseController: GuildTable.Database?
    /** The calls made to the abstract `add_guild` / `remove_guild` hooks, in order. */
    var guildHooks: seq<GuildHook>

    /** `Bot(command_prefix, help_command, name, settings_file, intents, version,
        database_path, dev_env)`. The database there has a `Guild` table holding `databaseRows`. */
    constructor (name: string, settingsFile: string, version: string, files: Files,
                 databasePath: string, databaseRows: set<int>, devEnv: bool)
      requires LoadInternalSettings(settingsFile, files).Some? ==>
        SettingsUsable(LoadInternalSettings(settingsFile, files).value, devEnv)
      ensures this.name == name && this.version == version
      ensures customGuilds == map[] && !customReady && guildHooks == []
      ensures databaseController != null <==> databasePath != ""
      ensures databaseController != null ==> fresh(databaseController) && databaseController.guildIds == databaseRows
      ensures LoadInternalSettings(settingsFile, files).None? ==>
        adminsId == [] && token == "" && activities == DEFAULT_ACTIVITIES
      ensures LoadInternalSettings(settingsFile, files).Some? ==>
        var r := LoadInternalSettings(settingsFile, files).value;
        adminsId == AdminIds(r, ADMINS_KEY).value && token == TextField(r, TokenKey(devEnv)).value &&
        activities == TextListField(r, ACTIVITIES_KEY).value
    {
      this.name := name;
      this.version := version;
      customGuilds := map[];
      adminsId := [];
      token := "";
      activities := DEFAULT_ACTIVITIES;
      customReady := false;
      guildHooks := [];
      if databasePath != "" {
        databaseController := new GuildTable.Database.Open(databaseRows);
      } else {
        databaseController := null;
      }
      new;
      SetInternalSettings(settingsFile, devEnv, files);
    }

    /** `on_guild_join(guild)`. */
    method OnGuildJoin(guildId: int)
      modifies this`guildHooks
      ensures guildHooks == old(guildHooks) + [AddGuild(guildId)]
    {
      guildHooks := guildHooks + [AddGuild(guildId)];
    }

    /** `on_guild_remove(guild)`. */
    method OnGuildRemove(guildId: int)
      modifies this`guildHooks
      ensures guildHooks == old(guildHooks) + [RemoveGuild(guildId)]
    {
      guildHooks := guildHooks + [RemoveGuild(guildId)];
    }

    /** `load_guilds`: calls `add_guild` once per current guild, in platform order. */
    method LoadGuilds(guildIds: seq<int>)
      modifies this`guildHooks
      ensures guildHooks == old(guildHooks) + AddGuildCalls(guildIds)
    {
      for i := 0 to |guildIds|
        invariant guildHooks == old(guildHooks) + AddGuildCalls(guildIds[..i])
      {
        assert AddGuildCalls(guildIds[..i + 1]) == AddGuildCalls(guildIds[..i]) + [AddGuild(guildIds[i])];
        guildHooks := guildHooks + [AddGuild(guildIds[i])];
      }
      assert guildIds[..|guildIds|] == guildIds;
    }

    /** `prepare_data`: the first call marks the bot ready and loads the guilds; every later
        call returns at once. */
    method PrepareData(guildIds: seq<int>)
      modifies this`customReady, this`guildHooks
      ensures customReady
      ensures old(customReady) ==> guildHooks == old(guildHooks)
      ensures !old(customReady) ==> guildHooks == old(guildHooks) + AddGuildCalls(guildIds)
    {
      if !customReady {
        customReady := true;
      } else {
        return;
      }
      LoadGuilds(guildIds);
    }

    /** `set_activity(activity)`: the game name requested from the platform. A non-empty
        argument is used as it is; otherwise `choice(_activities)` picks the element at the
        caller-supplied index `pick` (reduced modulo the list length), and raises (None) on
        an empty list. */
    method SetActivity(activity: string, pick: nat) returns (shown: Option<string>)
      ensures activity != "" ==> shown == Some(activity)
      ensures activity == "" ==> (shown.Some? <==> |activities| > 0)
      ensures activity == "" && shown.Some? ==> shown.value in activities
    {
      if activity != "" {
        shown := Some(activity);
      } else if |activities| > 0 {
        shown := Some(activities[pick % |activities|]);
      } else {
        shown := None;
      }
    }

    /** `set_internal_settings(path, dev_env)`: a loaded record sets the converted admin
        ids, the profile's token and the activities; without one every field keeps its value. */
    method SetInternalSettings(path: string, devEnv: bool, files: Files)
      requires LoadInternalSettings(path, files).Some? ==> SettingsUsable(LoadInternalSettings(path, files).value, devEnv)
      modifies this`adminsId, this`token, this`activities
      ensures LoadInternalSettings(path, files).None? ==>
        adminsId == old(adminsId) && token == old(token) && activities == old(activities)
      ensures LoadInternalSettings(path, files).Some? ==>
        var r := LoadInternalSettings(path, files).value;
        adminsId == AdminIds(r, ADMINS_KEY).value && token == TextField(r, TokenKey(devEnv)).value &&
        activities == TextListField(r, ACTIVITIES_KEY).value
    {
      var internalSettings := LoadInternalSettings(path, files);
      if internalSettings.Some? {
        adminsId := AdminIds(internalSettings.value, ADMINS_KEY).value;
        if devEnv {
          token := TextField(internalSettings.value, DEVENV_TOKEN_KEY).value;
        } else {
          token := TextField(internalSettings.value, TOKEN_KEY).value;
        }
        activities := TextListField(internalSettings.value, ACTIVITIES_KEY).value;
      }
    }

    /** `run(*args)`: the positional arguments handed to the platform, with the stored
        token appended last. */
    method Run(args: seq<string>) returns (runArgs: seq<string>)
      ensures |runArgs| == |args| + 1 && runArgs[..|args|] == args && runArgs[|args|] == token
    {
      runArgs := args + [token];
    }

    /** `is_admin(author_id)`. */
    predicate IsAdmin(authorId: int)
      reads this
    {
      authorId in adminsId
    }

    /** Every registered guild sits under the key `str` of its own id, as the `add_guild`
        of a subclass registers it. */
    predicate KeysMatchIds()
      reads this
    {
      forall k :: k in customGuilds ==> k == IntToString(customGuilds[k].identification)
    }

    /** `get_custom_guild(guild_id)`: the guild registered under `str(guild_id)`; None where
        the source raises KeyError. */
    function GetCustomGuild(guildId: int): (r: Option<DiscordGuild.Guild>)
      reads this
      ensures r.Some? <==> IntToString(guildId) in customGuilds
      ensures r.Some? ==> r.value == customGuilds[IntToString(guildId)]
      ensures r.Some? && KeysMatchIds() ==> r.value.identification == guildId
    {
      var key := IntToString(guildId);
      if key in customGuilds then
        IntToStringInjective(customGuilds[key].identification, guildId);
        Some(customGuilds[key])
      else None
    }
  }

  /** The development profile reads the development token and production the production
      token, from the same record. */
  method ProfileSelectsToken(name: string, settingsFile: string, version: string, files: Files)
    returns (dev: Bot, prod: Bot)
    requires settingsFile in files && settingsFile != ""
    requires SettingsUsable(files[settingsFile], true) && SettingsUsable(files[settingsFile], false)
    ensures dev.token == files[settingsFile]["devenv_token"].s
    ensures prod.token == files[settingsFile]["token"].s
    ensures dev.databaseController == null && prod.databaseController == null
  {
    dev := new Bot(name, settingsFile, version, files, "", {}, true);
    prod := new Bot(name, settingsFile, version, files, "", {}, false);
  }
}
