/** The bot of bot.py: defaults set by the constructor, internal settings (admins, token,
    activities) read from a settings record, a one-shot `prepare_data`, the guild scan that
    hands every guild id to the `add_guild` hook, and the guild registry keyed by `str(id)`. */
module FrameworkBot {
  import opened Common
  import opened Decimal
  import opened Config
  import GuildTable
  import FileGuild

  const ADMINS_KEY := "ADM_ID"
  const TOKEN_KEY := "TOKEN"
  const ACTIVITIES_KEY := "Activities"
  const DEFAULT_ACTIVITIES := ["Error"]

  /** A settings record from which `set_internal_settings` reads every field without raising. */
  predicate SettingsUsable(r: Record) {
    AdminIds(r, ADMINS_KEY).Some? && TextField(r, TOKEN_KEY).Some? && TextListField(r, ACTIVITIES_KEY).Some?
  }

  class Bot {
    const name: string
    const version: string
    var token: string
    var adminsId: seq<int>
    /** Filled by the subclass's `add_guild`; keyed by `str(guild_id)`. */
    var customGuilds: map<string, FileGuild.Guild>
    var activities: seq<string>
    var customReady: bool
    const databaseController: GuildTable.Database
    /** The ids handed to the abstract `add_guild` hook, in call order. */
    var addedGuilds: seq<int>

    /** `Bot(command_prefix, help_command, name, settings_file, database_path, intents, version)`.
        The database at `database_path` is always opened; its `Guild` table holds `databaseRows`. */
    constructor (name: string, settingsFile: string, databaseRows: set<int>, version: string, files: Files)
      requires LoadInternalSettings(settingsFile, files).Some? ==> SettingsUsable(LoadInternalSettings(settingsFile, files).value)
      ensures this.name == name && this.version == version
      ensures customGuilds == map[] && !customReady && addedGuilds == []
      ensures fresh(databaseController) && databaseController.guildIds == databaseRows
      ensures LoadInternalSettings(settingsFile, files).None? ==>
        adminsId == [] && token == "" && activities == DEFAULT_ACTIVITIES
      ensures LoadInternalSettings(settingsFile, files).Some? ==>
        var r := LoadInternalSettings(settingsFile, files).value;
        adminsId == AdminIds(r, ADMINS_KEY).value && token == TextField(r, TOKEN_KEY).value &&
        activities == TextListField(r, ACTIVITIES_KEY).value
    {
      this.name := name;
      this.version := version;
      customGuilds := map[];
      adminsId := [];
      token := "";
      activities := DEFAULT_ACTIVITIES;
      customReady := false;
      addedGuilds := [];
      databaseController := new GuildTable.Database.Open(databaseRows);
      new;
      SetInternalSettings(settingsFile, files);
    }

    /** `load_guilds`: calls `add_guild` once per current guild, in platform order. */
    method LoadGuilds(guildIds: seq<int>)
      modifies this`addedGuilds
      ensures addedGuilds == old(addedGuilds) + guildIds
    {
      for i := 0 to |guildIds|
        invariant addedGuilds == old(addedGuilds) + guildIds[..i]
      {
        addedGuilds := addedGuilds + [guildIds[i]];
      }
    }

    /** `prepare_data`: the first call marks the bot ready and loads the guilds; every later
        call returns at once. */
    method PrepareData(guildIds: seq<int>)
      modifies this`customReady, this`addedGuilds
      ensures customReady
      ensures old(customReady) ==> addedGuilds == old(addedGuilds)
      ensures !old(customReady) ==> addedGuilds == old(addedGuilds) + guildIds
    {
      if !customReady {
        customReady := true;
      } else {
        return;
      }
      LoadGuilds(guildIds);
    }

    /** `set_activity(activity)`: the game name requested from the platform. A non-empty
        argument is used as it is; otherwise `choice(_activities)` picks the element at the
        caller-supplied index `pick` (reduced modulo the list length), and raises (None) on
        an empty list. */
    method SetActivity(activity: string, pick: nat) returns (shown: Option<string>)
      ensures activity != "" ==> shown == Some(activity)
      ensures activity == "" ==> (shown.Some? <==> |activities| > 0)
      ensures activity == "" && shown.Some? ==> shown.value in activities
    {
      if activity != "" {
        shown := Some(activity);
      } else if |activities| > 0 {
        shown := Some(activities[pick % |activities|]);
      } else {
        shown := None;
      }
    }

    /** `set_internal_settings(path)`: a loaded record sets the converted admin ids, the
        token and the activities; without a record every field keeps its value. */
    method SetInternalSettings(path: string, files: Files)
      requires LoadInternalSettings(path, files).Some? ==> SettingsUsable(LoadInternalSettings(path, files).value)
      modifies this`adminsId, this`token, this`activities
      ensures LoadInternalSettings(path, files).None? ==>
        adminsId == old(adminsId) && token == old(token) && activities == old(activities)
      ensures LoadInternalSettings(path, files).Some? ==>
        var r := LoadInternalSettings(path, files).value;
        adminsId == AdminIds(r, ADMINS_KEY).value && token == TextField(r, TOKEN_KEY).value &&
        activities == TextListField(r, ACTIVITIES_KEY).value
    {
      var internalSettings := LoadInternalSettings(path, files);
      if internalSettings.Some? {
        adminsId := AdminIds(internalSettings.value, ADMINS_KEY).value;
        token := TextField(internalSettings.value, TOKEN_KEY).value;
        activities := TextListField(internalSettings.value, ACTIVITIES_KEY).value;
      }
    }

    /** `run(*args)`: the positional arguments handed to the platform, with the stored
        token appended last. */
    method Run(args: seq<string>) returns (runArgs: seq<string>)
      ensures |runArgs| == |args| + 1 && runArgs[..|args|] == args && runArgs[|args|] == token
    {
      runArgs := args + [token];
    }

    /** `is_admin(author_id)`. */
    predicate IsAdmin(authorId: int)
      reads this
    {
      authorId in adminsId
    }

    /** Every registered guild sits under the key `str` of its own id, as the `add_guild`
        of a subclass registers it. */
    predicate KeysMatchIds()
      reads this
    {
      forall k :: k in customGuilds ==> k == IntToString(customGuilds[k].identification)
    }

    /** `get_custom_guild(guild_id)`: the guild registered under `str(guild_id)`; None where
        the source raises KeyError. */
    function GetCustomGuild(guildId: int): (r: Option<FileGuild.Guild>)
      reads this
      ensures r.Some? <==> IntToString(guildId) in customGuilds
      ensures r.Some? ==> r.value == customGuilds[IntToString(guildId)]
      ensures r.Some? && KeysMatchIds() ==> r.value.identification == guildId
    {
      var key := IntToString(guildId);
      if key in customGuilds then
        IntToStringInjective(customGuilds[key].identification, guildId);
        Some(customGuilds[key])
      else None
    }
  }

  /** With no settings record (empty path or missing file) the constructor's defaults stay. */
  method DefaultsWithoutSettings(name: string, databaseRows: set<int>, version: string, files: Files)
    returns (bot: Bot)
    ensures bot.adminsId == [] && bot.token == "" && bot.activities == ["Error"]
    ensures !bot.IsAdmin(0)
  {
    bot := new Bot(name, "", databaseRows, version, files);
  }
}
