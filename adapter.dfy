/** The adapters as the engine and the migrations use them: a backend's
    answer to each adapter call (the base class's statement, or a subclass's
    own statement or exception), the database connection seen as a log of
    what was sent to it plus the schema_version ledger, and the adapter
    object whose methods each send exactly one statement. */
module Adapter {
  import opened Php
  import Sql
  import Mysql
  import Sqlite

  /** The adapter subclasses: adapters/CDbMigrationAdapterMysql.php and
      adapters/CDbMigrationAdapterSqlite.php. */
  datatype Backend = MySql | SQLite

  /** The subclass's $nativeDatabaseTypes. */
  function NativeTypes(b: Backend): map<string, string> {
    match b
    case MySql => Mysql.NativeDatabaseTypes
    case SQLite => Sqlite.NativeDatabaseTypes
  }

  /** One call of an adapter method, with its arguments ("" for a null
      options argument). */
  datatype Call =
    | Execute(sql: string, params: seq<string>)
    | Query(sql: string, params: seq<string>)
    | CreateTable(name: string, columns: seq<Sql.Field>, options: string)
    | RenameTable(name: string, newName: string)
    | RemoveTable(name: string)
    | AddColumn(table: string, column: string, colType: string, options: string)
    | ChangeColumn(table: string, column: string, colType: string, options: string)
    | RenameColumn(table: string, name: string, newName: string)
    | RemoveColumn(table: string, column: string)
    | AddIndex(table: string, name: string, columns: seq<Sql.Field>, unique: bool)
    | RemoveIndex(table: string, name: string)

  /** What the database connection is asked to do. Exec is a command's
      execute(), Fetch a query's queryAll() or queryColumn(), Insert the
      schema_version row the engine's insert command adds. */
  datatype Event =
    | Exec(sql: string)
    | Fetch(sql: string)
    | Insert(table: string, id: string)
    | Begin
    | Commit
    | Rollback

  predicate IsTransactionEvent(e: Event) {
    e.Begin? || e.Commit? || e.Rollback?
  }

  /** The statement the base class CDbMigrationAdapter sends for a call.
      execute() and query() ignore their parameters. */
  function BaseStatement(types: map<string, string>, q: Sql.Quoting, call: Call): Event {
    match call
    case Execute(sql, _) => Exec(sql)
    case Query(sql, _) => Fetch(sql)
    case CreateTable(name, columns, options) => Exec(Sql.CreateTable(q, types, name, columns, options))
    case RenameTable(name, newName) => Exec(Sql.RenameTable(q, name, newName))
    case RemoveTable(name) => Exec(Sql.RemoveTable(q, name))
    case AddColumn(table, column, colType, options) => Exec(Sql.AddColumn(q, types, table, column, colType, options))
    case ChangeColumn(table, column, colType, options) => Exec(Sql.ChangeColumn(q, types, table, column, colType, options))
    case RenameColumn(table, name, newName) => Exec(Sql.RenameColumn(q, table, name, newName))
    case RemoveColumn(table, column) => Exec(Sql.RemoveColumn(q, table, column))
    case AddIndex(table, name, columns, unique) => Exec(Sql.AddIndex(q, types, table, name, columns, unique))
    case RemoveIndex(table, name) => Exec(Sql.RemoveIndex(q, table, name))
  }

  /** What backend `b`'s adapter does with a call: the statement it sends,
      or the exception it throws instead of sending one. */
  function Statement(b: Backend, q: Sql.Quoting, call: Call): Result<Event> {
    match b
    case MySql => Success(BaseStatement(Mysql.NativeDatabaseTypes, q, call))
    case SQLite =>
      match call
      case RenameTable(name, newName) => Success(Exec(Sqlite.RenameTable(q, name, newName)))
      case ChangeColumn(_, _, _, _) => Failure(Sqlite.ChangeColumnUnsupported)
      case RenameColumn(_, _, _) => Failure(Sqlite.RenameColumnUnsupported)
      case RemoveColumn(_, _) => Failure(Sqlite.RemoveColumnUnsupported)
      case _ => Success(BaseStatement(Sqlite.NativeDatabaseTypes, q, call))
  }

  /** Sending the outcome of a call: the statement joins the log, or the
      exception is raised and nothing is sent. */
  function Issue(log: seq<Event>, r: Result<Event>): (seq<Event>, Signal) {
    match r
    case Success(e) => (log + [e], Normal)
    case Failure(m) => (log, Thrown(m))
  }

  /** A backend throws exactly for SQLite's three column operations, and
      every other call becomes one statement that is never a transaction
      boundary. */
  lemma CapabilityGaps(b: Backend, q: Sql.Quoting, call: Call)
    ensures Statement(b, q, call).Failure? <==>
              b == SQLite && (call.ChangeColumn? || call.RenameColumn? || call.RemoveColumn?)
    ensures b == SQLite && call.ChangeColumn? ==> Statement(b, q, call) == Failure("changeColumn is not supported for SQLite")
    ensures b == SQLite && call.RenameColumn? ==> Statement(b, q, call) == Failure("renameColumn is not supported for SQLite")
    ensures b == SQLite && call.RemoveColumn? ==> Statement(b, q, call) == Failure("removeColumn is not supported for SQLite")
    ensures Statement(b, q, call).Success? ==> !IsTransactionEvent(Statement(b, q, call).value)
  {
  }

  /** The SQLite adapter inherits every operation but renameTable and the
      three it refuses; the MySQL adapter overrides nothing. */
  lemma InheritedOperations(q: Sql.Quoting, call: Call)
    ensures Statement(MySql, q, call) == Success(BaseStatement(Mysql.NativeDatabaseTypes, q, call))
    ensures !(call.RenameTable? || call.ChangeColumn? || call.RenameColumn? || call.RemoveColumn?) ==>
              Statement(SQLite, q, call) == Success(BaseStatement(Sqlite.NativeDatabaseTypes, q, call))
    ensures call.RenameTable? ==>
              Statement(SQLite, q, call) == Success(Exec("ALTER TABLE " + q.table(call.name) + " RENAME TO " + q.table(call.newName)))
              && Statement(MySql, q, call) == Success(Exec("RENAME TABLE " + q.table(call.name) + " TO " + q.table(call.newName)))
  {
  }

  /** The documented entries of both type tables, and an unknown type
      passing through unchanged. */
  lemma TypeTables(b: Backend)
    ensures Sql.NativeType(NativeTypes(MySql), "primary_key") == "int(11) DEFAULT NULL auto_increment PRIMARY KEY"
    ensures Sql.NativeType(NativeTypes(MySql), "integer") == "int(4)"
    ensures Sql.NativeType(NativeTypes(SQLite), "primary_key") == "INTEGER PRIMARY KEY AUTOINCREMENT NOT NULL"
    ensures Sql.NativeType(NativeTypes(SQLite), "integer") == "integer"
    ensures Sql.NativeType(NativeTypes(b), "string") == "varchar(255)"
    ensures Sql.NativeType(NativeTypes(b), "binary") == "blob"
    ensures Sql.NativeType(NativeTypes(b), "timestamp") == "datetime" == Sql.NativeType(NativeTypes(b), "datetime")
    ensures Sql.NativeType(NativeTypes(b), "boolean") == "tinyint(1)" == Sql.NativeType(NativeTypes(b), "bool")
    ensures Sql.NativeType(NativeTypes(b), "uuid") == "uuid"
  {
  }

  /** The two tables have the same keys and differ only in primary_key and
      integer. */
  lemma TablesDiffer()
    ensures Mysql.NativeDatabaseTypes.Keys == Sqlite.NativeDatabaseTypes.Keys
    ensures forall t :: t in Mysql.NativeDatabaseTypes ==>
              (Mysql.NativeDatabaseTypes[t] == Sqlite.NativeDatabaseTypes[t] <==> t != "primary_key" && t != "integer")
  {
  }

  /** The database as the model sees it: whether schema_version exists, the
      ids in it, and everything sent to the connection so far. */
  datatype DbState = DbState(schemaTable: bool, ledger: set<string>, log: seq<Event>)

  /** The framework's database connection (Yii's CDbConnection), reduced to
      what the extension can observe of it. Its quoting functions stay
      uninterpreted. */
  class Connection {
    const driverName: string
    const quoting: Sql.Quoting
    var schemaTable: bool
    var ledger: set<string>
    var log: seq<Event>

    constructor(driverName: string, quoting: Sql.Quoting, schemaTable: bool, ledger: set<string>)
      ensures this.driverName == driverName && this.quoting == quoting
      ensures this.schemaTable == schemaTable && this.ledger == ledger && log == []
    {
      this.driverName := driverName;
      this.quoting := quoting;
      this.schemaTable := schemaTable;
      this.ledger := ledger;
      log := [];
    }

    function State(): DbState
      reads this
    {
      DbState(schemaTable, ledger, log)
    }

    /** createCommand($sql)->execute() */
    method Execute(sql: string)
      modifies this`log
      ensures log == old(log) + [Exec(sql)]
    {
      log := log + [Exec(sql)];
    }

    /** createCommand($sql)->queryAll() */
    method QueryAll(sql: string)
      modifies this`log
      ensures log == old(log) + [Fetch(sql)]
    {
      log := log + [Fetch(sql)];
    }

    /** createCommand($sql)->queryColumn() on the ledger query: the ids, in
        ascending order. */
    method QueryLedger(sql: string) returns (ids: seq<string>)
      modifies this`log
      ensures log == old(log) + [Fetch(sql)]
      ensures ids == SortSet(ledger)
    {
      log := log + [Fetch(sql)];
      ids := SortedMembers(ledger);
    }

    /** The schema_version insert command: the unique index on id rejects an
        id that is already there. */
    method InsertLedger(table: string, id: string) returns (sig: Signal)
      modifies this`log, this`ledger
      ensures log == old(log) + [Insert(table, id)]
      ensures id in old(ledger) ==> sig == Thrown(DuplicateId) && ledger == old(ledger)
      ensures id !in old(ledger) ==> sig == Normal && ledger == old(ledger) + {id}
    {
      log := log + [Insert(table, id)];
      if id in ledger {
        sig := Thrown(DuplicateId);
      } else {
        ledger := ledger + {id};
        sig := Normal;
      }
    }

    method BeginTransaction()
      modifies this`log
      ensures log == old(log) + [Event.Begin]
    {
      log := log + [Event.Begin];
    }

    method Commit()
      modifies this`log
      ensures log == old(log) + [Event.Commit]
    {
      log := log + [Event.Commit];
    }

    method Rollback()
      modifies this`log
      ensures log == old(log) + [Event.Rollback]
    {
      log := log + [Event.Rollback];
    }
  }

  /** The database's complaint when the unique index rejects an insert. */
  const DuplicateId := "Integrity constraint violation: duplicate id in schema_version"

  /** An adapter object: the subclass chosen for the backend, over the
      connection it was built with. Each operation sends exactly one
      statement, or throws and sends none. */
  class Adapter {
    const backend: Backend
    const db: Connection

    constructor(backend: Backend, db: Connection)
      ensures this.backend == backend && this.db == db
    {
      this.backend := backend;
      this.db := db;
    }

    /** execute($query, $params): the parameters are not bound. */
    method Execute(query: string, params: seq<string>)
      modifies db`log
      ensures db.log == old(db.log) + [Exec(query)]
    {
      db.Execute(query);
    }

    /** query($query, $params): the parameters are not bound. */
    method Query(query: string, params: seq<string>)
      modifies db`log
      ensures db.log == old(db.log) + [Fetch(query)]
    {
      db.QueryAll(query);
    }

    method CreateTable(name: string, columns: seq<Sql.Field>, options: string)
      modifies db`log
      ensures db.log == old(db.log) + [Exec(Sql.CreateTable(db.quoting, NativeTypes(backend), name, columns, options))]
    {
      var fields := Sql.ConvertFields(db.quoting, NativeTypes(backend), columns);
      Execute(Sql.TableStatement(db.quoting, name, fields, options), []);
    }

    method RenameTable(name: string, newName: string)
      modifies db`log
      ensures backend == MySql ==> db.log == old(db.log) + [Exec(Sql.RenameTable(db.quoting, name, newName))]
      ensures backend == SQLite ==> db.log == old(db.log) + [Exec(Sqlite.RenameTable(db.quoting, name, newName))]
    {
      if backend == SQLite {
        Execute(Sqlite.RenameTable(db.quoting, name, newName), []);
      } else {
        Execute(Sql.RenameTable(db.quoting, name, newName), []);
      }
    }

    method RemoveTable(name: string)
      modifies db`log
      ensures db.log == old(db.log) + [Exec(Sql.RemoveTable(db.quoting, name))]
    {
      Execute(Sql.RemoveTable(db.quoting, name), []);
    }

    method AddColumn(table: string, column: string, colType: string, options: string)
      modifies db`log
      ensures db.log == old(db.log) + [Exec(Sql.AddColumn(db.quoting, NativeTypes(backend), table, column, colType, options))]
    {
      Execute(Sql.AddColumn(db.quoting, NativeTypes(backend), table, column, colType, options), []);
    }

    method ChangeColumn(table: string, column: string, colType: string, options: string) returns (sig: Signal)
      modifies db`log
      ensures backend == MySql ==>
        sig == Normal && db.log == old(db.log) + [Exec(Sql.ChangeColumn(db.quoting, NativeTypes(backend), table, column, colType, options))]
      ensures backend == SQLite ==> sig == Thrown(Sqlite.ChangeColumnUnsupported) && db.log == old(db.log)
    {
      if backend == SQLite {
        return Thrown(Sqlite.ChangeColumnUnsupported);
      }
      Execute(Sql.ChangeColumn(db.quoting, NativeTypes(backend), table, column, colType, options), []);
      sig := Normal;
    }

    method RenameColumn(table: string, name: string, newName: string) returns (sig: Signal)
      modifies db`log
      ensures backend == MySql ==>
        sig == Normal && db.log == old(db.log) + [Exec(Sql.RenameColumn(db.quoting, table, name, newName))]
      ensures backend == SQLite ==> sig == Thrown(Sqlite.RenameColumnUnsupported) && db.log == old(db.log)
    {
      if backend == SQLite {
        return Thrown(Sqlite.RenameColumnUnsupported);
      }
      Execute(Sql.RenameColumn(db.quoting, table, name, newName), []);
      sig := Normal;
    }

    method RemoveColumn(table: string, column: string) returns (sig: Signal)
      modifies db`log
      ensures backend == MySql ==>
        sig == Normal && db.log == old(db.log) + [Exec(Sql.RemoveColumn(db.quoting, table, column))]
      ensures backend == SQLite ==> sig == Thrown(Sqlite.RemoveColumnUnsupported) && db.log == old(db.log)
    {
      if backend == SQLite {
        return Thrown(Sqlite.RemoveColumnUnsupported);
      }
      Execute(Sql.RemoveColumn(db.quoting, table, column), []);
      sig := Normal;
    }

    method AddIndex(table: string, name: string, columns: seq<Sql.Field>, unique: bool)
      modifies db`log
      ensures db.log == old(db.log) + [Exec(Sql.AddIndex(db.quoting, NativeTypes(backend), table, name, columns, unique))]
    {
      var fields := Sql.ConvertFields(db.quoting, NativeTypes(backend), columns);
      Execute(Sql.IndexHead(unique) + Sql.IndexTail(db.quoting, table, name, fields), []);
    }

    method RemoveIndex(table: string, name: string)
      modifies db`log
      ensures db.log == old(db.log) + [Exec(Sql.RemoveIndex(db.quoting, table, name))]
    {
      Execute(Sql.RemoveIndex(db.quoting, table, name), []);
    }
  }
}
