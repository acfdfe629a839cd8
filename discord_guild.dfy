/** The database-backed guild of discord/guild.py: its settings are a row of the `Guild`
    table, inserted if absent on load and deleted on removal, and only when the bot holds a
    database controller. Loading and removing also call the subclass's data hooks in a
    fixed order. */
module DiscordGuild {
  import opened Common
  import GuildTable

  /** The steps `load` and `remove` take, as recorded in `steps`. The data steps are the
      abstract `load_data` / `remove_data` hooks, whose effects belong to subclasses. */
  datatype Step = SettingsLoaded | DataLoaded | DataRemoved | SettingsRemoved

  /** The table after `load_settings`. */
  function LoadedTable(db: GuildTable.Database?, rows: set<int>, id: int): set<int> {
    if db == null then rows else GuildTable.InsertOrIgnore(rows, id)
  }

  /** The table after `remove_settings`. */
  function RemovedTable(db: GuildTable.Database?, rows: set<int>, id: int): set<int> {
    if db == null then rows else GuildTable.DeleteRow(rows, id)
  }

  /** Loading twice leaves the table as loading once; without a controller nothing changes. */
  lemma LoadIdempotent(db: GuildTable.Database?, rows: set<int>, id: int)
    ensures LoadedTable(db, LoadedTable(db, rows, id), id) == LoadedTable(db, rows, id)
    ensures db == null ==> LoadedTable(db, rows, id) == rows && RemovedTable(db, rows, id) == rows
    ensures db != null ==> id in LoadedTable(db, rows, id) && id !in RemovedTable(db, rows, id)
  {
  }

  /** Removing a guild's settings leaves every other guild's row as it was. */
  lemma RemoveKeepsOthers(db: GuildTable.Database?, rows: set<int>, id: int, other: int)
    requires other != id
    ensures other in RemovedTable(db, rows, id) <==> other in rows
    ensures other in LoadedTable(db, rows, id) <==> other in rows
  {
  }

  class Guild {
    const identification: int
    /** `bot.get_guild(id)`, captured at construction. */
    const guild: Option<GuildView>
    /** `bot.database_controller`: null when the bot was built without a database path. */
    const database: GuildTable.Database?
    var steps: seq<Step>

    /** `Guild(identification, bot)`: loads the settings, then the data. */
    constructor (identification: int, p: Platform, database: GuildTable.Database?)
      modifies database
      ensures this.identification == identification && guild == GetGuild(p, identification)
      ensures this.database == database
      ensures database != null ==> database.guildIds == LoadedTable(database, old(database.guildIds), identification)
      ensures steps == [SettingsLoaded, DataLoaded]
    {
      this.identification := identification;
      guild := GetGuild(p, identification);
      this.database := database;
      steps := [];
      new;
      LoadSettings();
      LoadData();
    }

    /** `load`: settings first, then data. */
    method Load()
      modifies this`steps, database
      ensures database != null ==> database.guildIds == LoadedTable(database, old(database.guildIds), identification)
      ensures steps == old(steps) + [SettingsLoaded, DataLoaded]
    {
      LoadSettings();
      LoadData();
    }

    /** `remove`: data first, then settings. */
    method Remove()
      modifies this`steps, database
      ensures database != null ==> database.guildIds == RemovedTable(database, old(database.guildIds), identification)
      ensures steps == old(steps) + [DataRemoved, SettingsRemoved]
    {
      RemoveData();
      RemoveSettings();
    }

    /** `load_settings`: `INSERT OR IGNORE` of this guild's row, when there is a database. */
    method LoadSettings()
      modifies this`steps, database
      ensures database != null ==> database.guildIds == LoadedTable(database, old(database.guildIds), identification)
      ensures steps == old(steps) + [SettingsLoaded]
    {
      if database != null {
        database.InsertGuild(identification);
      }
      steps := steps + [SettingsLoaded];
    }

    /** The abstract `load_data` hook. */
    method LoadData()
      modifies this`steps
      ensures steps == old(steps) + [DataLoaded]
    {
      steps := steps + [DataLoaded];
    }

    /** `remove_settings`: `DELETE` of this guild's row, when there is a database. */
    method RemoveSettings()
      modifies this`steps, database
      ensures database != null ==> database.guildIds == RemovedTable(database, old(database.guildIds), identification)
      ensures steps == old(steps) + [SettingsRemoved]
    {
      if database != null {
        database.DeleteGuild(identification);
      }
      steps := steps + [SettingsRemoved];
    }

    /** The abstract `remove_data` hook. */
    method RemoveData()
      modifies this`steps
      ensures steps == old(steps) + [DataRemoved]
    {
      steps := steps + [DataRemoved];
    }
  }

  /** Re-creating a guild object for an id already in the table does not change the table. */
  method RecreateKeepsTable(id: int, p: Platform, database: GuildTable.Database)
    returns (first: Guild, second: Guild)
    modifies database
    ensures database.guildIds == old(database.guildIds) + {id}
  {
    first := new Guild(id, p, database);
    ghost var afterFirst := database.guildIds;
    second := new Guild(id, p, database);
    assert database.guildIds == afterFirst;
  }
}
