/** The older copy of the MySQL adapter at the top of the extension
    (CDbMigrationAdapterMysql.php): a type table and nothing else. */
module LegacyMysql {
  import Mysql

  const NativeDatabaseTypes: map<string, string> := map[
    "primary_key" := "int(11) DEFAULT NULL auto_increment PRIMARY KEY",
    "string" := "varchar(255)",
    "text" := "text",
    "integer" := "int(4)",
    "float" := "float",
    "decimal" := "decimal",
    "datetime" := "datetime",
    "timestamp" := "datetime",
    "time" := "time",
    "date" := "date",
    "binary" := "blob",
    "boolean" := "tinyint(1)",
    "bool" := "tinyint(1)"
  ]

  /** The legacy table has the same thirteen entries, key by key and value
      by value, as the MySQL adapter's. */
  lemma SameAsMysqlAdapter()
    ensures |NativeDatabaseTypes| == 13
    ensures NativeDatabaseTypes.Keys == Mysql.NativeDatabaseTypes.Keys
    ensures forall t :: t in NativeDatabaseTypes ==> NativeDatabaseTypes[t] == Mysql.NativeDatabaseTypes[t]
  {
  }
}
