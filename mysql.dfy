/** The MySQL adapter (adapters/CDbMigrationAdapterMysql.php): only its type
    table; every operation is the base adapter's. */
module Mysql {

  const NativeDatabaseTypes: map<string, string> := map[
    "primary_key" := "int(11) DEFAULT NULL auto_increment PRIMARY KEY",
    "string" := "varchar(255)",
    "text" := "text",
    "integer" := "int(4)",
    "float" := "float",
    "decimal" := "decimal",
    "datetime" := "datetime",
    "timestamp" := "datetime",
    "time" := "time",
    "date" := "date",
    "binary" := "blob",
    "boolean" := "tinyint(1)",
    "bool" := "tinyint(1)"
  ]
}
