# yii-dbmigrations in Dafny

This project models the core of yii-dbmigrations, a schema-migration
extension for the Yii PHP framework, and proves properties of that model.

- **Adapters.** The extension turns a migration's helper calls (createTable,
  addColumn, addIndex, …) into one SQL statement each. Each backend adapter
  (MySQL, SQLite) supplies a table of native column types. The SQLite
  adapter also overrides renameTable and refuses the three column operations
  SQLite cannot express.
- **Migration units.** A migration is a PHP class named `m<timestamp>_<Name>`.
  Its id is the timestamp and its name is the second `_`-separated piece.
  `performTransactional` runs its `up()` or `down()` between a begin and a
  commit, or a rollback when the body throws.
- **Engine.** The engine picks the adapter for the connection's driver. It
  creates the `schema_version` ledger table on first use and collects the
  candidate migrations from the migrations directory, keyed and sorted by
  timestamp. Then it does one of three things:
  - apply every pending migration (no argument);
  - apply the first pending one (`up`);
  - revert the most recent one (`down`).

The database connection is reduced to what the extension can observe:

- the log of statements sent to it (`Adapter.Event`);
- the set of ids in `schema_version`;
- whether that table exists.

The quoting functions `quoteTableName`, `quoteColumnName` and `quoteValue`
stay uninterpreted (`Sql.Quoting`). PHP exceptions become `Php.Signal`
values: `Thrown` is an exception that a `catch` sees, and `Fatal` is a PHP
fatal error that no `catch` sees.

Modules follow the source files:

| module | file |
|---|---|
| `Php` | the PHP built-ins the code relies on: `split`, `join`, `empty`, `substr($s, 1)`, `ksort`/`ORDER BY` as an ascending enumeration |
| `Sql` | the statement builders of CDbMigrationAdapter.php and its `convertFields` loop |
| `Mysql`, `LegacyMysql`, `Sqlite` | the two adapter subclasses and the legacy MySQL adapter |
| `Adapter` | backend dispatch, the connection, and the adapter object |
| `Migration` | CDbMigration.php |
| `Engine` | CDbMigrationEngine.php |

Each imperative method (the adapter's, the migration's and the engine's) is
proved against a specification function:

- `Adapter.Statement` and `Adapter.Issue` specify the adapter's methods;
- `Migration.RunSteps` and `Migration.Perform` specify the migration's;
- `Engine.ApplyMigrationSpec`, `Engine.UpFrom`, `Engine.ApplyMigrationsSpec`
  and `Engine.RunSpec` specify the engine's.

The lemmas state what the source promises about those functions.

Two behaviours of the code shape everything the engine lemmas say, and the
model keeps both as written:

- **Exceptions in `up()`/`down()` are swallowed.** `performTransactional`
  catches the body's exception, rolls the transaction back and returns
  normally (CDbMigration.php:44-46). The engine therefore never learns that
  a body failed:
  - the ledger insert still happens for a migration whose `up()` threw
    (`Engine.FullRunRecordsEveryCandidate`), so that migration is never
    retried;
  - a full run goes on to the next candidate instead of stopping;
  - `down` deletes the ledger row whatever `down()` did.
  A run stops early only when the ledger insert itself fails on a
  duplicate id.
- **Other arguments do nothing.** The doc comment of `applyMigrations`
  (CDbMigrationEngine.php:269-272) promises migration to a numeric target
  version. The code does nothing for any argument other than empty, `up`
  and `down` (`Engine.OtherVersionDoesNothing`).

## Model

| member | source | states |
|---|---|---|
| Php.Split | CDbMigration.php:61 | `split('_', …)` yields at least one piece |
| Php.SplitJoin | CDbMigration.php:61 | the pieces joined with the separator give back the class name, and no piece contains the separator |
| Php.FirstPiece | CDbMigration.php:61-62 | the first piece is the text before the first separator |
| Php.LaterPieces | CDbMigration.php:67-68 | after the first separator, the remaining pieces are the split of the rest of the string |
| Php.SplitWithout | CDbMigration.php:67-68 | a string without the separator splits into itself alone |
| Php.DropFirst | CDbMigration.php:62 | `substr($s, 1)` is the string without its first character, and empty for strings of length at most one |
| Php.SortSetSpec | CDbMigrationEngine.php:157 | the ledger's `ORDER BY` list holds every id exactly once, strictly ascending |
| Php.SortedMembers | CDbMigrationEngine.php:189 | `ksort` yields exactly that ascending enumeration of the keys |
| Php.DigitOrderIsNumericOrder | CDbMigrationEngine.php:189 | for digit strings of equal length, string order coincides with the integer order `ksort` uses on integer keys, in both directions |
| Sql.ConvertFields | CDbMigrationAdapter.php:34-50 | the loop's result is the list of rendered entries joined with ", ": an array entry becomes its quoted name, native type and remaining parts joined by spaces, and a bare entry its quoted name |
| Sql.NativeType | CDbMigrationAdapter.php:25-31 | convertToNativeType: the table's entry for a known type, the type itself otherwise; the result is either the input or one of the table's native types |
| Sql.ConvertParts | CDbMigrationAdapter.php:37-44 | an array entry keeps its length: its first element quoted as a column name, its second converted to the native type, the rest unchanged |
| Sql.FieldList | CDbMigrationAdapter.php:34-50 | the column list convertFields returns, the rendered entries joined with ", " (its loop is proved equal to it in `Sql.ConvertFields`) |
| Sql.FieldListQuotesOnlyNames | CDbMigrationAdapter.php:34-50 | only column names are quoted: two quotings that agree on the names render the list alike, whatever they do to types and options |
| Sql.AddIndexUniqueness | CDbMigrationAdapter.php:129-137 | the statement starts with CREATE UNIQUE INDEX exactly when `unique` holds, and with CREATE INDEX exactly when it does not |
| Sql.AddColumnOptions | CDbMigrationAdapter.php:90-99 | empty options (PHP `empty`: "" or "0") give NOT NULL, and other options end the statement verbatim |
| Sql.CreateTable | CDbMigrationAdapter.php:69-74 | createTable's statement: CREATE TABLE, the quoted name, the converted column list in parentheses, then the options unquoted |
| Sql.RenameTable | CDbMigrationAdapter.php:77-81 | the base renameTable's statement RENAME TABLE a TO b, both names passed through quoteTableName |
| Sql.RemoveTable | CDbMigrationAdapter.php:84-87 | removeTable's statement DROP TABLE t |
| Sql.AddColumn | CDbMigrationAdapter.php:90-99 | addColumn's statement; its NOT NULL rule is proved in `Sql.AddColumnOptions` |
| Sql.ChangeColumn | CDbMigrationAdapter.php:102-109 | changeColumn's statement: the quoted column twice after CHANGE, then the native type and the options |
| Sql.RenameColumn | CDbMigrationAdapter.php:113-119 | renameColumn's statement: the old name, the new name, then columnInfo's empty result |
| Sql.ColumnInfo | CDbMigrationAdapter.php:65-66 | columnInfo has an empty body and yields the empty string |
| Sql.RemoveColumn | CDbMigrationAdapter.php:122-126 | removeColumn's statement ALTER TABLE t DROP c |
| Sql.AddIndex | CDbMigrationAdapter.php:129-137 | addIndex's statement; its UNIQUE rule is proved in `Sql.AddIndexUniqueness` |
| Sql.RemoveIndex | CDbMigrationAdapter.php:140-144 | removeIndex's statement DROP INDEX n ON t, the index name passed through quoteTableName |
| Sqlite.RenameTable | adapters/CDbMigrationAdapterSqlite.php:34-38 | SQLite's renameTable statement ALTER TABLE a RENAME TO b |
| LegacyMysql.SameAsMysqlAdapter | CDbMigrationAdapterMysql.php:6-20 | the legacy table has 13 entries, the same keys and the same values as the MySQL adapter's table |
| Adapter.BaseStatement | CDbMigrationAdapter.php:54-144 | the one statement the base adapter sends for each call, built by the `Sql` functions; execute and query drop their parameters |
| Adapter.Statement | adapters/CDbMigrationAdapterSqlite.php:14-61 | a backend's answer to a call: MySQL always the base statement over its table; SQLite its own renameTable, an exception for the three column operations, the base statement otherwise (proved in `Adapter.CapabilityGaps` and `Adapter.InheritedOperations`) |
| Adapter.Issue | CDbMigrationAdapter.php:54-56 | an answer reaches the connection as one statement appended to the log, or as an exception with nothing sent |
| Adapter.CapabilityGaps | adapters/CDbMigrationAdapterSqlite.php:41-59 | a call fails exactly for SQLite's changeColumn, renameColumn and removeColumn, with their messages; every other call becomes one statement that is not a transaction boundary |
| Adapter.InheritedOperations | adapters/CDbMigrationAdapterSqlite.php:14-38 | MySQL uses every base statement; SQLite uses the base statement for every call but renameTable (ALTER TABLE … RENAME TO …) and the three it refuses |
| Adapter.TypeTables | adapters/CDbMigrationAdapterMysql.php:15-29 | the documented entries of both tables (primary_key, integer, string, binary, timestamp/datetime, boolean/bool), and an unknown type such as uuid passing through unchanged |
| Adapter.TablesDiffer | adapters/CDbMigrationAdapterSqlite.php:17-31 | the SQLite and MySQL tables have the same keys and differ exactly in primary_key and integer |
| Adapter.Connection.Execute | CDbMigrationAdapter.php:55 | a command's execute() sends exactly its SQL |
| Adapter.Connection.QueryAll | CDbMigrationAdapter.php:61 | a query's queryAll() sends exactly its SQL |
| Adapter.Connection.QueryLedger | CDbMigrationEngine.php:160-162 | the ledger query is sent once and returns the recorded ids in ascending order |
| Adapter.Connection.InsertLedger | CDbMigrationEngine.php:380-383 | the insert is sent; the unique index rejects an id already recorded, and otherwise the id is added |
| Adapter.Connection.BeginTransaction | CDbMigration.php:40 | begin appends one Begin |
| Adapter.Connection.Commit | CDbMigration.php:43 | commit appends one Commit |
| Adapter.Connection.Rollback | CDbMigration.php:45 | rollback appends one Rollback |
| Adapter.Adapter.Execute | CDbMigrationAdapter.php:54-56 | exactly one statement, the query itself; the parameters are ignored |
| Adapter.Adapter.Query | CDbMigrationAdapter.php:60-62 | exactly one query, the query itself; the parameters are ignored |
| Adapter.Adapter.CreateTable | CDbMigrationAdapter.php:69-74 | exactly one statement: CREATE TABLE, the quoted name, the converted field list in parentheses, then the options |
| Adapter.Adapter.RenameTable | CDbMigrationAdapter.php:77-81 | exactly one statement: RENAME TABLE a TO b on MySQL, and the SQLite override's ALTER TABLE a RENAME TO b on SQLite |
| Adapter.Adapter.RemoveTable | CDbMigrationAdapter.php:84-87 | exactly one DROP TABLE statement |
| Adapter.Adapter.AddColumn | CDbMigrationAdapter.php:90-99 | exactly one ALTER TABLE … ADD statement with the native type, and NOT NULL for empty options |
| Adapter.Adapter.ChangeColumn | CDbMigrationAdapter.php:102-109 | MySQL: one statement that repeats the quoted column after CHANGE, then the native type and the options; SQLite: throws "changeColumn is not supported for SQLite" and sends nothing |
| Adapter.Adapter.RenameColumn | CDbMigrationAdapter.php:113-119 | MySQL: one statement with the old name, the new name and columnInfo's empty result; SQLite: throws and sends nothing |
| Adapter.Adapter.RemoveColumn | CDbMigrationAdapter.php:122-126 | MySQL: one ALTER TABLE … DROP statement; SQLite: throws and sends nothing |
| Adapter.Adapter.AddIndex | CDbMigrationAdapter.php:129-137 | exactly one CREATE [UNIQUE] INDEX statement over the converted column list |
| Adapter.Adapter.RemoveIndex | CDbMigrationAdapter.php:140-144 | exactly one DROP INDEX n ON t statement, with the index name passed through quoteTableName |
| Migration.IdIsTextBeforeFirstUnderscore | CDbMigration.php:60-63 | the class name's first character followed by getId() is the text before the first '_', and the id contains no '_' |
| Migration.NameIsSecondPiece | CDbMigration.php:65-69 | getName() is the text between the first and the second '_', and null without a '_' |
| Migration.TimestampedId | CDbMigration.php:60-63 | for a name m<14 characters>_…, getId() is those 14 characters |
| Migration.GetId | CDbMigration.php:60-63 | getId: the first `_`-separated piece of the class name without its first character; it never contains `_` |
| Migration.GetName | CDbMigration.php:65-69 | getName: the second `_`-separated piece, present exactly when the class name contains `_`, and without `_` itself |
| Migration.RunSteps | CDbMigration.php:42 | a body only appends to the log, and never a transaction boundary or a ledger insert |
| Migration.Perform | CDbMigration.php:30-49 | performTransactional: ends normally exactly for up and down, only appends to the log, and never sends a ledger insert |
| Migration.TransactionProtocol | CDbMigration.php:30-49 | an invalid command throws "Invalid migration command: …" before anything is sent; up/down open one transaction and end it with exactly one Commit (body finished) or Rollback (body threw), never both, and return normally |
| Migration.DefaultBodiesSendNothing | CDbMigration.php:52-57 | the inherited empty up() and down() send only Begin and Commit |
| Migration.Migration.PerformTransactional | CDbMigration.php:30-49 | the log and the outcome are those `Perform` specifies |
| Migration.Migration.Up | CDbMigration.php:52-53 | runs the up body as `RunSteps` specifies |
| Migration.Migration.Down | CDbMigration.php:56-57 | runs the down body as `RunSteps` specifies |
| Migration.Migration.RunBody | CDbMigration.php:42 | the body runs statement by statement and stops at the first exception, as `RunSteps` specifies |
| Migration.Migration.Call | CDbMigration.php:72-141 | a helper call ends as the adapter's answer to that call, and never in a fatal error |
| Migration.Migration.Execute | CDbMigration.php:72-74 | hands its arguments unchanged to the adapter's execute |
| Migration.Migration.Query | CDbMigration.php:77-79 | hands its arguments unchanged to the adapter's query |
| Migration.Migration.CreateTable | CDbMigration.php:82-85 | hands its arguments unchanged to the adapter's createTable |
| Migration.Migration.RenameTable | CDbMigration.php:88-91 | hands its arguments unchanged to the adapter's renameTable |
| Migration.Migration.RemoveTable | CDbMigration.php:94-97 | hands its arguments unchanged to the adapter's removeTable |
| Migration.Migration.AddColumn | CDbMigration.php:100-103 | hands its arguments unchanged to the adapter's addColumn |
| Migration.Migration.RenameColumn | CDbMigration.php:106-112 | hands its arguments unchanged to the adapter's renameColumn, whose exception it passes on |
| Migration.Migration.ChangeColumn | CDbMigration.php:115-121 | hands its arguments unchanged to the adapter's changeColumn, whose exception it passes on |
| Migration.Migration.RemoveColumn | CDbMigration.php:124-129 | hands its arguments unchanged to the adapter's removeColumn, whose exception it passes on |
| Migration.Migration.AddIndex | CDbMigration.php:132-135 | hands its arguments unchanged to the adapter's addIndex |
| Migration.Migration.RemoveIndex | CDbMigration.php:138-141 | hands its arguments unchanged to the adapter's removeIndex |
| Engine.BootstrapStatements | CDbMigrationEngine.php:118-139 | with the ledger table present nothing is sent; without it exactly two statements are sent, a CREATE TABLE of schema_version and a CREATE UNIQUE INDEX; afterwards the table exists |
| Engine.SelectBackend | CDbMigrationEngine.php:103-115 | the switch on the driver name: mysql gives the MySQL adapter, sqlite the SQLite adapter, any other name none |
| Engine.Bootstrap | CDbMigrationEngine.php:118-139 | the database after init's ledger check (proved in `Engine.BootstrapStatements`) |
| Engine.Accepted | CDbMigrationEngine.php:226-246 | the three filters: basename starting with m, class defined with a name of at least 16 characters, class extending CDbMigration |
| Engine.Key | CDbMigrationEngine.php:249 | `substr($className, 1, 14)`: 14 characters for a name of at least 15, always the characters that follow the first |
| Engine.CandidateMap | CDbMigrationEngine.php:223-253 | the candidate array built file by file (proved in `Engine.CandidateMapKeys`, `Engine.CandidateMapLast` and `Engine.CandidateMapEntries`) |
| Engine.CandidateMapKeys | CDbMigrationEngine.php:223-253 | the keys of the candidate array are exactly the keys (`substr($className, 1, 14)`) of the files that pass the three filters |
| Engine.CandidateMapLast | CDbMigrationEngine.php:249-253 | each key holds the last accepted file with that key: a later file replaces an earlier one |
| Engine.CandidateMapEntries | CDbMigrationEngine.php:226-253 | every entry is an accepted file stored under its own key |
| Engine.CandidatesAscending | CDbMigrationEngine.php:189 | the candidates are exactly the entries of the candidate array, each stored under its own key, one per key, all accepted, and visited in strictly ascending key order |
| Engine.CandidatesInNumericOrder | CDbMigrationEngine.php:189 | when the keys are digits, the visiting order is also ascending numeric order, as `ksort` on integer keys gives |
| Engine.KeyMatchesId | CDbMigrationEngine.php:249 | the key `substr($className, 1, 14)` equals getId() exactly when the first '_' is at position 15 |
| Engine.WellNamedIdsDistinct | CDbMigrationEngine.php:249-253 | when every accepted file is well named, each candidate's id is its key, so the ids are distinct |
| Engine.CandidatesWellNamed | CDbMigrationEngine.php:249-253 | every candidate is one of the accepted files, so it is well named when they all are |
| Engine.ApplyMigrationLedger | CDbMigrationEngine.php:363-397 | up records the id after the transaction whatever the body did, and fails with the duplicate-key error exactly when the id was already recorded; down deletes exactly the migration's id |
| Engine.ApplyMigrationSpec | CDbMigrationEngine.php:363-397 | applyMigration: performTransactional, then the ledger insert (up) or DELETE (down) of getId() (proved in `Engine.ApplyMigrationLedger`) |
| Engine.UpFrom | CDbMigrationEngine.php:311-334 | the foreach loop of applyMigrations: skip applied ids, apply the rest, stop at an exception or after one when `up` (proved in the `Engine.UpFrom…` lemmas) |
| Engine.UpFromAllApplied | CDbMigrationEngine.php:311-334 | when every candidate's id was applied at the start, the loop changes nothing |
| Engine.UpFromLedger | CDbMigrationEngine.php:311-334 | the loop only adds ids and keeps the table; a full loop that ends normally leaves every candidate's id applied or recorded |
| Engine.UpFromSucceeds | CDbMigrationEngine.php:311-334 | with distinct ids, each applied or not yet recorded, the loop raises nothing |
| Engine.UpFromFirstPending | CDbMigrationEngine.php:322-330 | in `up` mode the loop applies the first candidate whose id was not applied, and stops |
| Engine.PendingMembers | CDbMigrationEngine.php:322 | the candidates the loop applies are exactly those whose id is not in the ledger read at the start |
| Engine.PendingAscending | CDbMigrationEngine.php:311-322 | skipping applied candidates keeps the ascending key order of the others |
| Engine.UpFromIsApplyEach | CDbMigrationEngine.php:311-334 | the full loop is the application, one after the other, of exactly the pending candidates |
| Engine.ApplyUpInsertsId | CDbMigrationEngine.php:373-383 | applying a migration up sends exactly one ledger insert, that of its id |
| Engine.ApplyEachLedger | CDbMigrationEngine.php:373-383 | applying migrations in turn adds at most their ids to the ledger, and exactly their ids when none fails |
| Engine.ApplyEachInserts | CDbMigrationEngine.php:311-334 | applying migrations in turn without failure sends their ledger inserts in list order, and no other |
| Engine.ApplyMigrationsSpec | CDbMigrationEngine.php:274-338 | applyMigrations' three modes and the do-nothing fallback (proved in the lemmas below) |
| Engine.LastIsGreatest | CDbMigrationEngine.php:291 | `array_pop` on the ascending ledger list gives the greatest recorded id |
| Engine.DownOnEmptyLedger | CDbMigrationEngine.php:281-288 | down on an empty ledger throws "No migrations are applied to the database yet." after only the ledger query, and touches neither the schema nor the ledger |
| Engine.DownRevertsLast | CDbMigrationEngine.php:291-303 | down runs the down() of the candidate keyed by the greatest id in a transaction and deletes that candidate's id and no other; for a well-named candidate that is the greatest id |
| Engine.DownWithoutCandidate | CDbMigrationEngine.php:294-297 | down whose greatest id has no candidate ends in a fatal error after only the ledger query |
| Engine.OtherVersionDoesNothing | CDbMigrationEngine.php:308 | any argument other than empty, up and down only reads the ledger |
| Engine.UpAppliesFirstPending | CDbMigrationEngine.php:308-336 | up applies the first candidate in key order whose id is not recorded and nothing else; with none pending it only reads the ledger |
| Engine.FullRunRecordsEveryCandidate | CDbMigrationEngine.php:373-383 | a full run that ends normally leaves every candidate's id recorded, including those whose up() threw, and keeps the ids recorded before |
| Engine.FullRunAppliesPendingInOrder | CDbMigrationEngine.php:264-334 | a full run applies exactly the candidates whose id is not recorded, in strictly ascending key order, and skips the others |
| Engine.FullRunRecordsPending | CDbMigrationEngine.php:311-334 | a full run adds at most the pending ids to the ledger; when it ends normally it adds exactly them, inserted in ascending key order |
| Engine.FullRunSucceeds | CDbMigrationEngine.php:311-334 | a full run ends normally when the candidates' ids are distinct |
| Engine.SecondFullRunAppliesNothing | CDbMigrationEngine.php:311-334 | a full run over a ledger that records every candidate only reads the ledger |
| Engine.Version | CDbMigrationEngine.php:72-76 | the version run passes on: the first argument when set and not empty, "" otherwise |
| Engine.RunSpec | CDbMigrationEngine.php:63-82 | run: adapter selection, bootstrap, applyMigrations, and the catch-all turning an exception into an ERROR line |
| Engine.UnsupportedDriverSendsNothing | CDbMigrationEngine.php:110-114 | an unsupported driver is reported before any statement is sent, and the database is unchanged |
| Engine.RunTwiceAppliesNothing | CDbMigrationEngine.php:63-82 | after a run without arguments completes, a second such run only reads the ledger and completes |
| Engine.Engine.Init | CDbMigrationEngine.php:91-141 | a missing configuration and an unsupported driver throw their messages and change nothing; mysql/sqlite install a fresh adapter of that backend on the application's connection and bootstrap the ledger |
| Engine.Engine.GetAppliedMigrations | CDbMigrationEngine.php:150-164 | sends `SELECT id FROM schema_version ORDER BY id` (quoted) and returns the recorded ids in ascending order |
| Engine.Engine.GetPossibleMigrationsForModule | CDbMigrationEngine.php:203-262 | the loop over the files builds exactly the candidate map |
| Engine.Engine.GetPossibleMigrations | CDbMigrationEngine.php:174-194 | returns the candidate map with its keys in ascending order |
| Engine.Engine.CreateMigration | CDbMigrationEngine.php:346-354 | a fresh migration object of the file's class over the engine's adapter |
| Engine.Engine.ApplyMigration | CDbMigrationEngine.php:363-397 | the database and outcome are those `ApplyMigrationSpec` specifies |
| Engine.Engine.ApplyMigrations | CDbMigrationEngine.php:274-338 | the database and outcome are those `ApplyMigrationsSpec` specifies |
| Engine.Engine.ApplyPending | CDbMigrationEngine.php:311-334 | the foreach loop's database and outcome are those `UpFrom` specifies |
| Engine.Engine.Run | CDbMigrationEngine.php:63-82 | run catches every exception and reports it as an ERROR line; the database and the report are those `RunSpec` specifies |

## Left out

- **File discovery.** `is_dir`, `CFileHelper::findFiles`, `include`/`require_once`, `class_exists` and `ReflectionClass` are filesystem and reflection calls. The model replaces them with a list of `Engine.MigrationFile` values: class name, whether the class exists, whether it extends CDbMigration, and the bodies of `up()` and `down()`. Two files that define the same class, which PHP rejects with a fatal error, are not modelled.
- **The module loop.** The commented-out loop over modules in `getPossibleMigrations`, and the `$module` parameter of `getPossibleMigrationsForModule`, are not modelled.
- **PHP loose comparison.** `in_array` and `==` compare numeric strings numerically. The model compares ids as strings.
- **Integer keys in `ksort`.** `ksort` turns 14-digit keys into integers. The model orders keys as strings; `Php.DigitOrderIsNumericOrder` and `Engine.CandidatesInNumericOrder` show that the two orders agree on digit keys of equal length.
- **`substr` returning false.** `substr` returns `false` for an empty result, and `false` concatenates as "". The model uses "" directly.
- **Class-name case.** `get_class` and the file's basename are taken to spell the class name the same way.
- **Migration bodies.** A body is a list of helper calls and exceptions (`Migration.Step`). An SQL error the database raises while executing a statement is modelled as a `Throw` step. The model does not interpret SQL, so the schema effects of DDL are not tracked.
- **Connection failures.** `beginTransaction`, `commit` and `rollback` never fail.
- **The engine's own statements never fail.** The bootstrap CREATE TABLE and CREATE INDEX, the ledger SELECT and the ledger DELETE always succeed in the model. The ledger insert fails only on a duplicate id. `Engine.FullRunSucceeds` and `Engine.RunTwiceAppliesNothing` hold only under this assumption: a database error in one of these statements would end the run with an ERROR line.
- **Bodies cannot touch the ledger.** The model does not interpret SQL, so a body that sends `execute('INSERT INTO schema_version …')` or `removeTable('schema_version')` leaves the modelled ledger and table as they were. In PHP the engine's later insert or query would then see the changed table and could throw.
- **Collation.** The unique index and `ORDER BY` compare ids by code point (`Php.Less`). So "the ledger query returns the ids in ascending order" holds for a binary collation, or for ids of digits only. MySQL's default collation is case-insensitive and would order and compare other ids differently.
- **Bytes and characters.** PHP's `strlen` and `substr` count bytes, and the model counts characters. The two agree for ASCII class names, which PHP class names of the `m<timestamp>_<Name>` shape are in practice.
- **The ledger's own statements.** The insert command comes from the framework's `createInsertCommand` and is kept as an `Insert` event. The DELETE statement is built by the engine. The model applies each one's effect on the ledger directly.
- **The unique index on an existing table.** If `schema_version` was created outside the extension without its unique index, duplicate ids would be accepted. The model always applies the unique index.
- **Commands other than up and down.** `performTransactional` accepts any method of the class through `method_exists`. The model accepts only "up" and "down", the only commands the engine passes.
- **Transactional DDL.** Whether the backend really undoes DDL on rollback is backend behaviour. The model records Begin, Commit and Rollback only as events.
- **Echo output.** All `echo` logging is left out, including the undefined `$name` in the log lines at CDbMigration.php:117 and 139. The report of `run` keeps only the ERROR line.
- **CDbMigrationCommand.php** is not part of this model: it only constructs the engine and passes the arguments on.
- **The sample migrations.** The files in samples/ are user migrations, not engine logic.
