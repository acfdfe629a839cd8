/** The `Guild` table of the bot's SQLite database, reduced to the set of guild ids it holds. */
module GuildTable {

  /** `INSERT OR IGNORE INTO Guild (ID) VALUES (id)`: an existing row is left as it is. */
  function InsertOrIgnore(rows: set<int>, id: int): set<int> {
    rows + {id}
  }

  /** `DELETE FROM Guild WHERE ID = id`. */
  function DeleteRow(rows: set<int>, id: int): set<int> {
    rows - {id}
  }

  lemma InsertOrIgnoreIdempotent(rows: set<int>, id: int)
    ensures InsertOrIgnore(InsertOrIgnore(rows, id), id) == InsertOrIgnore(rows, id)
  {
  }

  /** Inserting creates the row for `id` and touches no other row; an existing row is kept. */
  lemma InsertOrIgnoreEffect(rows: set<int>, id: int)
    ensures id in InsertOrIgnore(rows, id)
    ensures forall x :: x != id ==> (x in InsertOrIgnore(rows, id) <==> x in rows)
    ensures id in rows ==> InsertOrIgnore(rows, id) == rows
  {
  }

  /** Deleting removes exactly the row for `id`. */
  lemma DeleteRowEffect(rows: set<int>, id: int)
    ensures id !in DeleteRow(rows, id)
    ensures forall x :: x != id ==> (x in DeleteRow(rows, id) <==> x in rows)
  {
  }

  /** The database connection held by the bot; only its `Guild` table is modelled. */
  class Database {
    var guildIds: set<int>

    /** Opens the database whose `Guild` table currently holds `rows`. */
    constructor Open(rows: set<int>)
      ensures guildIds == rows
    {
      guildIds := rows;
    }

    method InsertGuild(id: int)
      modifies this
      ensures guildIds == InsertOrIgnore(old(guildIds), id)
    {
      guildIds := InsertOrIgnore(guildIds, id);
    }

    method DeleteGuild(id: int)
      modifies this
      ensures guildIds == DeleteRow(old(guildIds), id)
    {
      guildIds := DeleteRow(guildIds, id);
    }
  }
}
