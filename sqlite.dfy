/** The SQLite adapter (adapters/CDbMigrationAdapterSqlite.php): its type
    table, its own renameTable, and the three column operations SQLite cannot
    express, which throw instead of issuing a statement. */
module Sqlite {
  import Sql

  const NativeDatabaseTypes: map<string, string> := map[
    "primary_key" := "INTEGER PRIMARY KEY AUTOINCREMENT NOT NULL",
    "string" := "varchar(255)",
    "text" := "text",
    "integer" := "integer",
    "float" := "float",
    "decimal" := "decimal",
    "datetime" := "datetime",
    "timestamp" := "datetime",
    "time" := "time",
    "date" := "date",
    "binary" := "blob",
    "boolean" := "tinyint(1)",
    "bool" := "tinyint(1)"
  ]

  /** renameTable as SQLite spells it. */
  function RenameTable(q: Sql.Quoting, name: string, newName: string): string {
    "ALTER TABLE " + q.table(name) + " RENAME TO " + q.table(newName)
  }

  const ChangeColumnUnsupported := "changeColumn is not supported for SQLite"
  const RenameColumnUnsupported := "renameColumn is not supported for SQLite"
  const RemoveColumnUnsupported := "removeColumn is not supported for SQLite"
}
