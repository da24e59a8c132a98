/** The migration engine (CDbMigrationEngine): it picks the adapter for the
    connection's driver, creates the schema_version ledger on first use,
    collects the candidate migrations of the migrations directory, keyed by
    their timestamp and sorted, and applies them up (all pending, or the
    first pending one) or reverts the last applied one. */
module Engine {
  import opened Php
  import Sql
  import Adapter
  import Migration

  /** SCHEMA_TABLE and SCHEMA_FIELD. */
  const SchemaTable := "schema_version"
  const SchemaField := "id"

  const ConfigurationMissing := "Database configuration is missing in your configuration file."
  const NoMigrationsApplied := "No migrations are applied to the database yet."

  /** What PHP reports when require_once is handed the null file name of a
      candidate that is not there: a fatal error, which no catch sees. */
  const MissingMigrationFile := "require_once(): Failed opening required ''"

  function Unsupported(driverName: string): string {
    "Database of type " + driverName + " does not support migrations (yet)."
  }

  /* ---------------------------------------------------------------------- */
  /* init: adapter selection and the ledger bootstrap                         */
  /* ---------------------------------------------------------------------- */

  /** The switch on the connection's driver name. */
  function SelectBackend(driverName: string): Option<Adapter.Backend> {
    if driverName == "mysql" then Some(Adapter.MySql)
    else if driverName == "sqlite" then Some(Adapter.SQLite)
    else None
  }

  /** The two statements that create the ledger: the table with one string
      column, then a unique index on that column. */
  function CreateLedger(b: Adapter.Backend, q: Sql.Quoting): Adapter.Event {
    Adapter.Exec(Sql.CreateTable(q, Adapter.NativeTypes(b), SchemaTable, [Sql.Parts([SchemaField, "string"])], ""))
  }

  function IndexLedger(b: Adapter.Backend, q: Sql.Quoting): Adapter.Event {
    Adapter.Exec(Sql.AddIndex(q, Adapter.NativeTypes(b), SchemaTable, "idx_" + SchemaTable + "_" + SchemaField,
                              [Sql.Bare(SchemaField)], true))
  }

  /** The database after init's check for schema_version: untouched when
      the table exists, otherwise the table (empty) and its index are
      created. */
  function Bootstrap(b: Adapter.Backend, q: Sql.Quoting, st: Adapter.DbState): Adapter.DbState {
    if st.schemaTable then st
    else Adapter.DbState(true, {}, st.log + [CreateLedger(b, q), IndexLedger(b, q)])
  }

  /** Bootstrapping sends nothing when the ledger exists, and otherwise
      exactly two statements: a CREATE TABLE of schema_version and a
      CREATE UNIQUE INDEX on its id column. Afterwards the ledger exists. */
  lemma BootstrapStatements(b: Adapter.Backend, q: Sql.Quoting, st: Adapter.DbState)
    ensures Bootstrap(b, q, st).schemaTable
    ensures st.schemaTable ==> Bootstrap(b, q, st) == st
    ensures !st.schemaTable ==>
      var log := Bootstrap(b, q, st).log;
      && |log| == |st.log| + 2
      && log[..|st.log|] == st.log
      && Sql.StartsWith(log[|st.log|].sql, "CREATE TABLE " + q.table(SchemaTable) + " (")
      && Sql.StartsWith(log[|st.log| + 1].sql, "CREATE UNIQUE INDEX ")
      && Bootstrap(b, q, st).ledger == {}
  {
    if !st.schemaTable {
      var log := Bootstrap(b, q, st).log;
      assert log[..|st.log|] == st.log;
      var types := Adapter.NativeTypes(b);
      var head := "CREATE TABLE " + q.table(SchemaTable) + " (";
      var create := Sql.CreateTable(q, types, SchemaTable, [Sql.Parts([SchemaField, "string"])], "");
      assert create == head + (Sql.FieldList(q, types, [Sql.Parts([SchemaField, "string"])]) + ") ");
      Sql.AddIndexUniqueness(q, types, SchemaTable, "idx_" + SchemaTable + "_" + SchemaField, [Sql.Bare(SchemaField)], true);
    }
  }

  /* ---------------------------------------------------------------------- */
  /* getPossibleMigrationsForModule: filtering and keying                     */
  /* ---------------------------------------------------------------------- */

  /** A file <className>.php of the migrations directory, after include():
      whether the class exists, whether it extends CDbMigration, and the
      bodies of its up() and down(). */
  datatype MigrationFile = MigrationFile(className: string, classDefined: bool, isMigration: bool,
                                         up: seq<Migration.Step>, down: seq<Migration.Step>)

  function Definition(f: MigrationFile): Migration.Definition {
    Migration.Definition(f.className, f.up, f.down)
  }

  /** The file passes the three filters: its name starts with 'm', its class
      exists with a name of at least 16 characters, and the class is a
      migration. */
  predicate Accepted(f: MigrationFile) {
    |f.className| >= 1 && f.className[0] == 'm'
    && f.classDefined && |f.className| >= 16
    && f.isMigration
  }

  /** substr($className, 1, 14): at most 14 characters after the first. */
  function Key(className: string): (r: string)
    ensures |r| <= 14
    ensures |className| >= 15 ==> |r| == 14
    ensures |className| >= 1 ==> 1 + |r| <= |className| && r == className[1..1 + |r|]
  {
    if |className| <= 1 then ""
    else if |className| < 15 then className[1..]
    else className[1..15]
  }

  function KeyOf(f: MigrationFile): string {
    Key(f.className)
  }

  /** getId() of the migration a file holds. */
  function Id(f: MigrationFile): string {
    Migration.GetId(f.className)
  }

  /** The array getPossibleMigrationsForModule builds: each accepted file
      under its key, a later file replacing an earlier one with the same
      key. */
  function CandidateMap(files: seq<MigrationFile>): map<string, MigrationFile>
    decreases |files|
  {
    if files == [] then map[]
    else
      var m := CandidateMap(files[..|files| - 1]);
      var f := files[|files| - 1];
      if Accepted(f) then m[KeyOf(f) := f] else m
  }

  /** File `i` is the last accepted file with key `k`. */
  predicate LastWithKey(files: seq<MigrationFile>, i: int, k: string)
    requires 0 <= i < |files|
  {
    Accepted(files[i]) && KeyOf(files[i]) == k
    && forall j :: i < j < |files| ==> !(Accepted(files[j]) && KeyOf(files[j]) == k)
  }

  /** Some accepted file has key `k`. */
  predicate HasAccepted(files: seq<MigrationFile>, k: string) {
    exists i :: 0 <= i < |files| && Accepted(files[i]) && KeyOf(files[i]) == k
  }

  /** The keys are exactly the keys of the accepted files. */
  lemma {:induction false} CandidateMapKeys(files: seq<MigrationFile>)
    ensures forall k :: k in CandidateMap(files) <==> HasAccepted(files, k)
    decreases |files|
  {
    if files != [] {
      var n := |files|;
      var init := files[..n - 1];
      var f := files[n - 1];
      CandidateMapKeys(init);
      forall k
        ensures HasAccepted(files, k) <==> HasAccepted(init, k) || (Accepted(f) && KeyOf(f) == k)
      {
        if HasAccepted(files, k) {
          var i :| 0 <= i < n && Accepted(files[i]) && KeyOf(files[i]) == k;
          if i < n - 1 {
            assert files[i] == init[i];
          }
        }
        if HasAccepted(init, k) {
          var i :| 0 <= i < n - 1 && Accepted(init[i]) && KeyOf(init[i]) == k;
          assert files[i] == init[i];
        }
      }
    }
  }

  /** Each key holds the last accepted file with that key: a later file
      replaces an earlier one. */
  lemma {:induction false} CandidateMapLast(files: seq<MigrationFile>)
    ensures forall i, k :: 0 <= i < |files| && LastWithKey(files, i, k) ==>
              k in CandidateMap(files) && CandidateMap(files)[k] == files[i]
    decreases |files|
  {
    if files != [] {
      var n := |files|;
      var init := files[..n - 1];
      CandidateMapLast(init);
      forall i, k | 0 <= i < |files| && LastWithKey(files, i, k)
        ensures k in CandidateMap(files) && CandidateMap(files)[k] == files[i]
      {
        if i < n - 1 {
          assert files[i] == init[i];
          assert LastWithKey(init, i, k);
        }
      }
    }
  }

  /** Every entry is an accepted file, stored under its own key. */
  lemma {:induction false} CandidateMapEntries(files: seq<MigrationFile>)
    ensures forall k :: k in CandidateMap(files) ==>
              Accepted(CandidateMap(files)[k]) && KeyOf(CandidateMap(files)[k]) == k
    decreases |files|
  {
    if files != [] {
      CandidateMapEntries(files[..|files| - 1]);
    }
  }

  /* ---------------------------------------------------------------------- */
  /* getPossibleMigrations: the candidates, ksort()ed                         */
  /* ---------------------------------------------------------------------- */

  /** The candidates in the order the engine visits them: by ascending key. */
  ghost function Candidates(files: seq<MigrationFile>): seq<MigrationFile> {
    var m := CandidateMap(files);
    var keys := SortSet(m.Keys);
    SortSetSpec(m.Keys);
    seq(|keys|, i requires 0 <= i < |keys| => m[keys[i]])
  }

  /** Candidate `i` is the entry under the `i`-th smallest key. */
  lemma CandidatesAt(files: seq<MigrationFile>)
    ensures |Candidates(files)| == |SortSet(CandidateMap(files).Keys)|
    ensures forall i :: 0 <= i < |Candidates(files)| ==>
              SortSet(CandidateMap(files).Keys)[i] in CandidateMap(files)
              && Candidates(files)[i] == CandidateMap(files)[SortSet(CandidateMap(files).Keys)[i]]
  {
    SortSetSpec(CandidateMap(files).Keys);
  }

  /** The candidates are the entries of the candidate array, one per key,
      each accepted, in strictly ascending key order. */
  lemma CandidatesAscending(files: seq<MigrationFile>)
    ensures forall i :: 0 <= i < |Candidates(files)| ==> Accepted(Candidates(files)[i])
    ensures forall i, j :: 0 <= i < j < |Candidates(files)| ==>
              Less(KeyOf(Candidates(files)[i]), KeyOf(Candidates(files)[j]))
    ensures |Candidates(files)| == |CandidateMap(files)|
    ensures forall i :: 0 <= i < |Candidates(files)| ==>
              KeyOf(Candidates(files)[i]) in CandidateMap(files)
              && CandidateMap(files)[KeyOf(Candidates(files)[i])] == Candidates(files)[i]
    ensures forall k :: k in CandidateMap(files) ==>
              exists i :: 0 <= i < |Candidates(files)| && KeyOf(Candidates(files)[i]) == k
  {
    var m := CandidateMap(files);
    var keys := SortSet(m.Keys);
    var c := Candidates(files);
    CandidatesAt(files);
    CandidateMapEntries(files);
    SortSetSpec(m.Keys);
    assert forall i :: 0 <= i < |keys| ==> KeyOf(c[i]) == keys[i];
    forall k | k in m
      ensures exists i :: 0 <= i < |c| && KeyOf(c[i]) == k
    {
      var i :| 0 <= i < |keys| && keys[i] == k;
      assert KeyOf(c[i]) == k;
    }
  }

  /** ksort() compares 14-digit keys as integers: when every accepted file
      has a key of digits, the candidates are in ascending numeric order of
      their keys too. */
  lemma CandidatesInNumericOrder(files: seq<MigrationFile>)
    requires forall i :: 0 <= i < |files| && Accepted(files[i]) ==> AllDigits(KeyOf(files[i]))
    ensures forall i :: 0 <= i < |Candidates(files)| ==> AllDigits(KeyOf(Candidates(files)[i]))
    ensures forall i, j :: 0 <= i < j < |Candidates(files)| ==>
              Value(KeyOf(Candidates(files)[i])) < Value(KeyOf(Candidates(files)[j]))
  {
    var c := Candidates(files);
    var m := CandidateMap(files);
    CandidatesAscending(files);
    CandidateMapKeys(files);
    CandidateMapEntries(files);
    SortSetSpec(m.Keys);
    forall i | 0 <= i < |c|
      ensures AllDigits(KeyOf(c[i])) && |KeyOf(c[i])| == 14
    {
      var k := SortSet(m.Keys)[i];
      assert c[i] == m[k] && KeyOf(c[i]) == k;
      assert HasAccepted(files, k);
      var w :| 0 <= w < |files| && Accepted(files[w]) && KeyOf(files[w]) == k;
    }
    forall i, j | 0 <= i < j < |c|
      ensures Value(KeyOf(c[i])) < Value(KeyOf(c[j]))
    {
      DigitOrderIsNumericOrder(KeyOf(c[i]), KeyOf(c[j]));
    }
  }

  /** The key is the id exactly when the class name has its first '_' at
      position 15, that is when the text between the leading character and
      the first '_' is 14 characters long. */
  lemma KeyMatchesId(className: string)
    requires |className| >= 16 && className[0] != '_'
    ensures Migration.GetId(className) == Key(className) <==>
              className[15] == '_' && forall j :: 0 <= j < 15 ==> className[j] != '_'
  {
    if className[15] == '_' && forall j :: 0 <= j < 15 ==> className[j] != '_' {
      Migration.TimestampedId(className);
    }
    if Migration.GetId(className) == Key(className) {
      Migration.IdIsTextBeforeFirstUnderscore(className);
      assert |className[..IndexOf(className, '_')]| == 15;
    }
  }

  /** A well-named candidate: its first '_' follows a 14-character id. */
  predicate WellNamed(f: MigrationFile) {
    |f.className| >= 16 && f.className[15] == '_' && forall j :: 0 <= j < 15 ==> f.className[j] != '_'
  }

  /** Every candidate is one of the files, so it is well named when all
      accepted files are. */
  lemma {:induction false} CandidatesWellNamed(files: seq<MigrationFile>)
    requires forall i :: 0 <= i < |files| && Accepted(files[i]) ==> WellNamed(files[i])
    ensures forall k :: k in CandidateMap(files) ==> WellNamed(CandidateMap(files)[k])
    decreases |files|
  {
    if files != [] {
      var init := files[..|files| - 1];
      assert forall i :: 0 <= i < |init| ==> init[i] == files[i];
      CandidatesWellNamed(init);
    }
  }

  /** When every candidate is well named, their ids are their keys and so
      are distinct. */
  lemma WellNamedIdsDistinct(files: seq<MigrationFile>)
    requires forall i :: 0 <= i < |files| && Accepted(files[i]) ==> WellNamed(files[i])
    ensures forall i :: 0 <= i < |Candidates(files)| ==> Id(Candidates(files)[i]) == KeyOf(Candidates(files)[i])
    ensures forall i, j :: 0 <= i < j < |Candidates(files)| ==> Id(Candidates(files)[i]) != Id(Candidates(files)[j])
  {
    var c := Candidates(files);
    CandidatesAscending(files);
    var m := CandidateMap(files);
    SortSetSpec(m.Keys);
    CandidatesWellNamed(files);
    forall i | 0 <= i < |c|
      ensures Id(c[i]) == KeyOf(c[i])
    {
      assert c[i] == m[SortSet(m.Keys)[i]];
      KeyMatchesId(c[i].className);
    }
    forall i, j | 0 <= i < j < |c|
      ensures Id(c[i]) != Id(c[j])
    {
      if Id(c[i]) == Id(c[j]) {
        LessIrreflexive(KeyOf(c[i]));
      }
    }
  }

  /* ---------------------------------------------------------------------- */
  /* applyMigration and applyMigrations                                       */
  /* ---------------------------------------------------------------------- */

  /** getAppliedMigrations' query. */
  function LedgerQuery(q: Sql.Quoting): string {
    "SELECT " + q.column(SchemaField) + " FROM " + q.table(SchemaTable) + " ORDER BY " + q.column(SchemaField)
  }

  /** applyMigration's statement for the down direction. */
  function DeleteStatement(q: Sql.Quoting, id: string): string {
    "DELETE FROM " + q.table(SchemaTable) + " WHERE " + q.column(SchemaField) + " = " + q.value(id)
  }

  /** applyMigration: performTransactional, then the ledger insert (up) or
      the ledger delete (any other direction), of the migration's getId().
      The ledger step follows whatever the body did, since
      performTransactional swallows the body's exception. */
  function ApplyMigrationSpec(b: Adapter.Backend, q: Sql.Quoting, def: Migration.Definition, direction: string,
                              st: Adapter.DbState): (Adapter.DbState, Signal)
  {
    var (log1, sig) := Migration.Perform(b, q, def, direction, st.log);
    var id := Migration.GetId(def.className);
    if sig != Normal then (st.(log := log1), sig)
    else if direction == "up" then
      var log2 := log1 + [Adapter.Insert(SchemaTable, id)];
      if id in st.ledger then (st.(log := log2), Thrown(Adapter.DuplicateId))
      else (st.(ledger := st.ledger + {id}, log := log2), Normal)
    else
      (st.(ledger := st.ledger - {id}, log := log1 + [Adapter.Exec(DeleteStatement(q, id))]), Normal)
  }

  /** Applying up records the id whether or not the body threw; it fails
      only when the id is already recorded. Applying down removes exactly
      the migration's id and keeps the other ids. */
  lemma ApplyMigrationLedger(b: Adapter.Backend, q: Sql.Quoting, def: Migration.Definition, st: Adapter.DbState)
    ensures var (st1, sig) := ApplyMigrationSpec(b, q, def, "up", st);
      && st1.schemaTable == st.schemaTable
      && st1.ledger == st.ledger + {Migration.GetId(def.className)}
      && (sig == Normal <==> Migration.GetId(def.className) !in st.ledger)
      && (sig != Normal ==> sig == Thrown(Adapter.DuplicateId))
      && st1.log[|st1.log| - 1] == Adapter.Insert(SchemaTable, Migration.GetId(def.className))
    ensures var (st1, sig) := ApplyMigrationSpec(b, q, def, "down", st);
      && sig == Normal
      && st1.schemaTable == st.schemaTable
      && st1.ledger == st.ledger - {Migration.GetId(def.className)}
      && st1.log == Migration.Perform(b, q, def, "down", st.log).0
                    + [Adapter.Exec(DeleteStatement(q, Migration.GetId(def.className)))]
  {
    Migration.TransactionProtocol(b, q, def, "up", st.log);
    Migration.TransactionProtocol(b, q, def, "down", st.log);
  }

  /** The up loop of applyMigrations from candidate list `cands`: skip a
      candidate whose id was applied when the run began, apply the others;
      stop at an exception, or after the first application when `once`. */
  function UpFrom(b: Adapter.Backend, q: Sql.Quoting, cands: seq<MigrationFile>, applied: seq<string>, once: bool,
                  st: Adapter.DbState): (Adapter.DbState, Signal)
    decreases |cands|
  {
    if cands == [] then (st, Normal)
    else if Id(cands[0]) in applied then UpFrom(b, q, cands[1..], applied, once, st)
    else
      var (st1, sig) := ApplyMigrationSpec(b, q, Definition(cands[0]), "up", st);
      if sig != Normal || once then (st1, sig)
      else UpFrom(b, q, cands[1..], applied, once, st1)
  }

  /** When every candidate's id was already applied, the loop does nothing. */
  lemma {:induction false} UpFromAllApplied(b: Adapter.Backend, q: Sql.Quoting, cands: seq<MigrationFile>,
                                            applied: seq<string>, once: bool, st: Adapter.DbState)
    requires forall i :: 0 <= i < |cands| ==> Id(cands[i]) in applied
    ensures UpFrom(b, q, cands, applied, once, st) == (st, Normal)
    decreases |cands|
  {
    if cands != [] {
      assert Id(cands[0]) in applied;
      assert forall i :: 0 <= i < |cands[1..]| ==> cands[1..][i] == cands[i + 1];
      UpFromAllApplied(b, q, cands[1..], applied, once, st);
    }
  }

  /** The loop keeps the schema table, only adds ids to the ledger, and,
      when it runs to the end, leaves every candidate's id applied or
      recorded. */
  lemma {:induction false} UpFromLedger(b: Adapter.Backend, q: Sql.Quoting, cands: seq<MigrationFile>,
                                        applied: seq<string>, once: bool, st: Adapter.DbState)
    ensures UpFrom(b, q, cands, applied, once, st).0.schemaTable == st.schemaTable
    ensures st.ledger <= UpFrom(b, q, cands, applied, once, st).0.ledger
    ensures !once && UpFrom(b, q, cands, applied, once, st).1 == Normal ==>
      forall i :: 0 <= i < |cands| ==> Id(cands[i]) in applied || Id(cands[i]) in UpFrom(b, q, cands, applied, once, st).0.ledger
    decreases |cands|
  {
    if cands != [] {
      var rest := cands[1..];
      assert forall i :: 1 <= i < |cands| ==> cands[i] == rest[i - 1];
      if Id(cands[0]) in applied {
        UpFromLedger(b, q, rest, applied, once, st);
      } else {
        ApplyMigrationLedger(b, q, Definition(cands[0]), st);
        var (st1, sig) := ApplyMigrationSpec(b, q, Definition(cands[0]), "up", st);
        if sig == Normal && !once {
          UpFromLedger(b, q, rest, applied, once, st1);
        }
      }
    }
  }

  /** The loop raises nothing when the ids of the candidates are distinct
      and each is either applied or not yet recorded. */
  lemma {:induction false} UpFromSucceeds(b: Adapter.Backend, q: Sql.Quoting, cands: seq<MigrationFile>,
                                          applied: seq<string>, once: bool, st: Adapter.DbState)
    requires forall i, j :: 0 <= i < j < |cands| ==> Id(cands[i]) != Id(cands[j])
    requires forall i :: 0 <= i < |cands| ==> Id(cands[i]) in applied || Id(cands[i]) !in st.ledger
    ensures UpFrom(b, q, cands, applied, once, st).1 == Normal
    decreases |cands|
  {
    if cands != [] {
      var rest := cands[1..];
      assert forall i :: 0 <= i < |rest| ==> rest[i] == cands[i + 1];
      if Id(cands[0]) in applied {
        UpFromSucceeds(b, q, rest, applied, once, st);
      } else {
        ApplyMigrationLedger(b, q, Definition(cands[0]), st);
        var (st1, sig) := ApplyMigrationSpec(b, q, Definition(cands[0]), "up", st);
        if !once {
          forall i | 0 <= i < |rest|
            ensures Id(rest[i]) in applied || Id(rest[i]) !in st1.ledger
          {
            assert Id(rest[i]) != Id(cands[0]);
          }
          UpFromSucceeds(b, q, rest, applied, once, st1);
        }
      }
    }
  }

  /** With `once`, the loop applies the first candidate whose id is not
      applied, and nothing else. */
  lemma {:induction false} UpFromFirstPending(b: Adapter.Backend, q: Sql.Quoting, cands: seq<MigrationFile>,
                                              applied: seq<string>, st: Adapter.DbState, k: nat)
    requires k < |cands| && Id(cands[k]) !in applied
    requires forall i :: 0 <= i < k ==> Id(cands[i]) in applied
    ensures UpFrom(b, q, cands, applied, true, st) == ApplyMigrationSpec(b, q, Definition(cands[k]), "up", st)
    decreases k
  {
    if k > 0 {
      var rest := cands[1..];
      assert forall i :: 0 <= i < |rest| ==> rest[i] == cands[i + 1];
      assert Id(cands[0]) in applied;
      UpFromFirstPending(b, q, rest, applied, st, k - 1);
    }
  }

  /** The candidates the loop does not skip: those whose id was not applied
      when the run began, in the loop's order. */
  function Pending(cands: seq<MigrationFile>, applied: seq<string>): seq<MigrationFile>
    decreases |cands|
  {
    if cands == [] then []
    else if Id(cands[0]) in applied then Pending(cands[1..], applied)
    else [cands[0]] + Pending(cands[1..], applied)
  }

  /** Applying migrations up one after the other, stopping at the first
      exception. */
  function ApplyEach(b: Adapter.Backend, q: Sql.Quoting, ms: seq<MigrationFile>, st: Adapter.DbState): (Adapter.DbState, Signal)
    decreases |ms|
  {
    if ms == [] then (st, Normal)
    else
      var (st1, sig) := ApplyMigrationSpec(b, q, Definition(ms[0]), "up", st);
      if sig != Normal then (st1, sig) else ApplyEach(b, q, ms[1..], st1)
  }

  function Ids(ms: seq<MigrationFile>): seq<string>
    decreases |ms|
  {
    if ms == [] then [] else [Id(ms[0])] + Ids(ms[1..])
  }

  /** The ids of the ledger inserts in a log, in the order they were sent. */
  function Inserted(log: seq<Adapter.Event>): seq<string>
    decreases |log|
  {
    if log == [] then []
    else Inserted(log[..|log| - 1]) + (if log[|log| - 1].Insert? then [log[|log| - 1].id] else [])
  }

  /** The pending candidates are exactly the candidates whose id was not
      applied. */
  lemma {:induction false} PendingMembers(cands: seq<MigrationFile>, applied: seq<string>)
    ensures forall f :: f in Pending(cands, applied) <==> f in cands && Id(f) !in applied
    decreases |cands|
  {
    if cands != [] {
      PendingMembers(cands[1..], applied);
      assert cands == [cands[0]] + cands[1..];
    }
  }

  /** Skipping candidates keeps their order: the pending ones are in
      strictly ascending key order when the candidates are. */
  lemma {:induction false} PendingAscending(cands: seq<MigrationFile>, applied: seq<string>)
    requires forall i, j :: 0 <= i < j < |cands| ==> Less(KeyOf(cands[i]), KeyOf(cands[j]))
    ensures forall i, j :: 0 <= i < j < |Pending(cands, applied)| ==>
              Less(KeyOf(Pending(cands, applied)[i]), KeyOf(Pending(cands, applied)[j]))
    decreases |cands|
  {
    if cands != [] {
      var rest := cands[1..];
      assert forall i :: 0 <= i < |rest| ==> rest[i] == cands[i + 1];
      PendingAscending(rest, applied);
      if Id(cands[0]) !in applied {
        var p := Pending(cands, applied);
        var pr := Pending(rest, applied);
        assert p == [cands[0]] + pr;
        PendingMembers(rest, applied);
        forall i, j | 0 <= i < j < |p|
          ensures Less(KeyOf(p[i]), KeyOf(p[j]))
        {
          if i == 0 {
            assert p[j] == pr[j - 1] && p[j] in rest;
            var k :| 0 <= k < |rest| && rest[k] == p[j];
          } else {
            assert p[i] == pr[i - 1] && p[j] == pr[j - 1];
          }
        }
      }
    }
  }

  /** The full loop skips the applied candidates and applies the others in
      turn. */
  lemma {:induction false} UpFromIsApplyEach(b: Adapter.Backend, q: Sql.Quoting, cands: seq<MigrationFile>,
                                             applied: seq<string>, st: Adapter.DbState)
    ensures UpFrom(b, q, cands, applied, false, st) == ApplyEach(b, q, Pending(cands, applied), st)
    decreases |cands|
  {
    if cands != [] {
      var p := Pending(cands, applied);
      if Id(cands[0]) in applied {
        UpFromIsApplyEach(b, q, cands[1..], applied, st);
      } else {
        assert p[0] == cands[0] && p[1..] == Pending(cands[1..], applied);
        var (st1, sig) := ApplyMigrationSpec(b, q, Definition(cands[0]), "up", st);
        UpFromIsApplyEach(b, q, cands[1..], applied, st1);
      }
    }
  }

  /** Statements that are not ledger inserts add no inserted id. */
  lemma {:induction false} InsertedIgnoresOthers(log: seq<Adapter.Event>, extra: seq<Adapter.Event>)
    requires forall i :: 0 <= i < |extra| ==> !extra[i].Insert?
    ensures Inserted(log + extra) == Inserted(log)
    decreases |extra|
  {
    if extra != [] {
      var n := |extra|;
      assert (log + extra)[..|log + extra| - 1] == log + extra[..n - 1];
      assert (log + extra)[|log + extra| - 1] == extra[n - 1];
      InsertedIgnoresOthers(log, extra[..n - 1]);
      assert Inserted(log + extra) == Inserted(log + extra[..n - 1]) + [];
    } else {
      assert log + extra == log;
    }
  }

  /** Applying up inserts the migration's id into the ledger and sends no
      other insert. */
  lemma ApplyUpInsertsId(b: Adapter.Backend, q: Sql.Quoting, def: Migration.Definition, st: Adapter.DbState)
    ensures Inserted(ApplyMigrationSpec(b, q, def, "up", st).0.log) == Inserted(st.log) + [Migration.GetId(def.className)]
  {
    var r := Migration.Perform(b, q, def, "up", st.log);
    var log1 := r.0;
    var log2 := log1 + [Adapter.Insert(SchemaTable, Migration.GetId(def.className))];
    assert ApplyMigrationSpec(b, q, def, "up", st).0.log == log2;
    var extra := log1[|st.log|..];
    assert log1 == st.log + extra;
    InsertedIgnoresOthers(st.log, extra);
    assert log2[..|log2| - 1] == log1;
  }

  /** Applying migrations in turn keeps the schema table, and the ledger
      gains at most their ids; exactly their ids when none fails. */
  lemma {:induction false} ApplyEachLedger(b: Adapter.Backend, q: Sql.Quoting, ms: seq<MigrationFile>, st: Adapter.DbState)
    ensures ApplyEach(b, q, ms, st).0.schemaTable == st.schemaTable
    ensures ApplyEach(b, q, ms, st).0.ledger <= st.ledger + (set f | f in ms :: Id(f))
    ensures ApplyEach(b, q, ms, st).1 == Normal ==>
              ApplyEach(b, q, ms, st).0.ledger == st.ledger + (set f | f in ms :: Id(f))
    decreases |ms|
  {
    if ms != [] {
      var rest := ms[1..];
      assert forall f :: f in ms <==> f == ms[0] || f in rest;
      assert (set f | f in ms :: Id(f)) == {Id(ms[0])} + (set f | f in rest :: Id(f));
      ApplyMigrationLedger(b, q, Definition(ms[0]), st);
      var st1 := ApplyMigrationSpec(b, q, Definition(ms[0]), "up", st).0;
      if ApplyMigrationSpec(b, q, Definition(ms[0]), "up", st).1 == Normal {
        ApplyEachLedger(b, q, rest, st1);
      }
    }
  }

  /** One step of ApplyEach: the first migration, then the rest when it
      succeeded. */
  lemma ApplyEachStep(b: Adapter.Backend, q: Sql.Quoting, ms: seq<MigrationFile>, st: Adapter.DbState)
    requires ms != []
    ensures var r1 := ApplyMigrationSpec(b, q, Definition(ms[0]), "up", st);
      ApplyEach(b, q, ms, st) == if r1.1 != Normal then r1 else ApplyEach(b, q, ms[1..], r1.0)
  {
  }

  lemma IdsStep(prefix: seq<string>, ms: seq<MigrationFile>)
    requires ms != []
    ensures prefix + [Id(ms[0])] + Ids(ms[1..]) == prefix + Ids(ms)
  {
    assert Ids(ms) == [Id(ms[0])] + Ids(ms[1..]);
  }

  /** When none of them fails, applying migrations in turn sends their
      ledger inserts in the order of the list, and no other insert. */
  lemma {:induction false} ApplyEachInserts(b: Adapter.Backend, q: Sql.Quoting, ms: seq<MigrationFile>, st: Adapter.DbState)
    requires ApplyEach(b, q, ms, st).1 == Normal
    ensures Inserted(ApplyEach(b, q, ms, st).0.log) == Inserted(st.log) + Ids(ms)
    decreases |ms|
  {
    if ms != [] {
      var r1 := ApplyMigrationSpec(b, q, Definition(ms[0]), "up", st);
      ApplyEachStep(b, q, ms, st);
      ApplyUpInsertsId(b, q, Definition(ms[0]), st);
      ApplyEachInserts(b, q, ms[1..], r1.0);
      IdsStep(Inserted(st.log), ms);
    } else {
      assert Inserted(st.log) + [] == Inserted(st.log);
    }
  }

  /** applyMigrations($version): read the ledger, collect the candidates,
      then revert the last applied migration ("down"), apply the pending
      ones (empty version) or the first pending one ("up"), or do nothing
      (any other version). */
  ghost function ApplyMigrationsSpec(b: Adapter.Backend, q: Sql.Quoting, version: string, files: seq<MigrationFile>,
                                     st: Adapter.DbState): (Adapter.DbState, Signal)
  {
    var st0 := st.(log := st.log + [Adapter.Fetch(LedgerQuery(q))]);
    var applied := SortSet(st.ledger);
    var possible := CandidateMap(files);
    if version == "down" then
      if |applied| == 0 then (st0, Thrown(NoMigrationsApplied))
      else
        var last := applied[|applied| - 1];
        if last !in possible then (st0, Fatal(MissingMigrationFile))
        else ApplyMigrationSpec(b, q, Definition(possible[last]), "down", st0)
    else if IsEmpty(version) || version == "up" then
      UpFrom(b, q, Candidates(files), applied, version == "up", st0)
    else (st0, Normal)
  }

  /** The last id the ledger query returns is the greatest recorded id. */
  lemma LastIsGreatest(ledger: set<string>, last: string)
    requires last in ledger && forall x :: x in ledger ==> x == last || Less(x, last)
    ensures |SortSet(ledger)| > 0 && SortSet(ledger)[|SortSet(ledger)| - 1] == last
  {
    SortSetSpec(ledger);
    var r := SortSet(ledger);
    var g := r[|r| - 1];
    if g != last {
      var i :| 0 <= i < |r| && r[i] == last;
      assert Less(last, g);
      LessAsymmetric(last, g);
    }
  }

  /** "down" on an empty ledger throws, reverting nothing and leaving the
      ledger as it was. */
  lemma DownOnEmptyLedger(b: Adapter.Backend, q: Sql.Quoting, files: seq<MigrationFile>, st: Adapter.DbState)
    requires st.ledger == {}
    ensures ApplyMigrationsSpec(b, q, "down", files, st)
            == (st.(log := st.log + [Adapter.Fetch(LedgerQuery(q))]), Thrown(NoMigrationsApplied))
  {
    SortSetSpec(st.ledger);
  }

  /** "down" reverts the candidate keyed by the greatest recorded id: it
      runs that migration's down() in a transaction and deletes its id, and
      only its id, from the ledger. For a well-named candidate that id is
      the greatest recorded one. */
  lemma DownRevertsLast(b: Adapter.Backend, q: Sql.Quoting, files: seq<MigrationFile>, st: Adapter.DbState, last: string)
    requires last in st.ledger && forall x :: x in st.ledger ==> x == last || Less(x, last)
    requires last in CandidateMap(files)
    ensures var (st1, sig) := ApplyMigrationsSpec(b, q, "down", files, st);
      var f := CandidateMap(files)[last];
      && sig == Normal
      && st1.schemaTable == st.schemaTable
      && st1.ledger == st.ledger - {Id(f)}
      && st1.log == Migration.Perform(b, q, Definition(f), "down", st.log + [Adapter.Fetch(LedgerQuery(q))]).0
                    + [Adapter.Exec(DeleteStatement(q, Id(f)))]
      && (WellNamed(f) ==> st1.ledger == st.ledger - {last})
  {
    LastIsGreatest(st.ledger, last);
    var f := CandidateMap(files)[last];
    ApplyMigrationLedger(b, q, Definition(f), st.(log := st.log + [Adapter.Fetch(LedgerQuery(q))]));
    if WellNamed(f) {
      CandidateMapEntries(files);
      KeyMatchesId(f.className);
    }
  }

  /** "down" whose greatest recorded id has no candidate ends in a fatal
      error, after only the ledger query. */
  lemma DownWithoutCandidate(b: Adapter.Backend, q: Sql.Quoting, files: seq<MigrationFile>, st: Adapter.DbState, last: string)
    requires last in st.ledger && forall x :: x in st.ledger ==> x == last || Less(x, last)
    requires last !in CandidateMap(files)
    ensures ApplyMigrationsSpec(b, q, "down", files, st)
            == (st.(log := st.log + [Adapter.Fetch(LedgerQuery(q))]), Fatal(MissingMigrationFile))
  {
    LastIsGreatest(st.ledger, last);
  }

  /** Any version other than "", "0", "up" and "down" only reads the ledger. */
  lemma OtherVersionDoesNothing(b: Adapter.Backend, q: Sql.Quoting, version: string, files: seq<MigrationFile>, st: Adapter.DbState)
    requires version != "down" && version != "up" && !IsEmpty(version)
    ensures ApplyMigrationsSpec(b, q, version, files, st) == (st.(log := st.log + [Adapter.Fetch(LedgerQuery(q))]), Normal)
  {
  }

  /** "up" applies the first candidate, in key order, whose id is not
      recorded, and nothing else; with none pending it only reads the
      ledger. */
  lemma UpAppliesFirstPending(b: Adapter.Backend, q: Sql.Quoting, files: seq<MigrationFile>, st: Adapter.DbState)
    ensures var c := Candidates(files);
      var st0 := st.(log := st.log + [Adapter.Fetch(LedgerQuery(q))]);
      && ((forall i :: 0 <= i < |c| ==> Id(c[i]) in st.ledger) ==> ApplyMigrationsSpec(b, q, "up", files, st) == (st0, Normal))
      && (forall k :: 0 <= k < |c| && Id(c[k]) !in st.ledger && (forall i :: 0 <= i < k ==> Id(c[i]) in st.ledger) ==>
            ApplyMigrationsSpec(b, q, "up", files, st) == ApplyMigrationSpec(b, q, Definition(c[k]), "up", st0))
  {
    var c := Candidates(files);
    var st0 := st.(log := st.log + [Adapter.Fetch(LedgerQuery(q))]);
    var applied := SortSet(st.ledger);
    SortSetSpec(st.ledger);
    if forall i :: 0 <= i < |c| ==> Id(c[i]) in st.ledger {
      UpFromAllApplied(b, q, c, applied, true, st0);
    }
    forall k | 0 <= k < |c| && Id(c[k]) !in st.ledger && (forall i :: 0 <= i < k ==> Id(c[i]) in st.ledger)
      ensures ApplyMigrationsSpec(b, q, "up", files, st) == ApplyMigrationSpec(b, q, Definition(c[k]), "up", st0)
    {
      UpFromFirstPending(b, q, c, applied, st0, k);
    }
  }

  /** A full run that ends normally leaves every candidate's id recorded,
      including those whose up() threw, and keeps every id recorded before. */
  lemma FullRunRecordsEveryCandidate(b: Adapter.Backend, q: Sql.Quoting, files: seq<MigrationFile>, st: Adapter.DbState)
    requires ApplyMigrationsSpec(b, q, "", files, st).1 == Normal
    ensures var st1 := ApplyMigrationsSpec(b, q, "", files, st).0;
      && st1.schemaTable == st.schemaTable
      && st.ledger <= st1.ledger
      && forall i :: 0 <= i < |Candidates(files)| ==> Id(Candidates(files)[i]) in st1.ledger
  {
    var st0 := st.(log := st.log + [Adapter.Fetch(LedgerQuery(q))]);
    SortSetSpec(st.ledger);
    UpFromLedger(b, q, Candidates(files), SortSet(st.ledger), false, st0);
  }

  /** A full run applies, in ascending key order, exactly the candidates
      whose id is not recorded, one after the other, and skips the others. */
  lemma FullRunAppliesPendingInOrder(b: Adapter.Backend, q: Sql.Quoting, files: seq<MigrationFile>, st: Adapter.DbState)
    ensures var st0 := st.(log := st.log + [Adapter.Fetch(LedgerQuery(q))]);
      var p := Pending(Candidates(files), SortSet(st.ledger));
      && ApplyMigrationsSpec(b, q, "", files, st) == ApplyEach(b, q, p, st0)
      && (forall f :: f in p <==> f in Candidates(files) && Id(f) !in st.ledger)
      && (forall i, j :: 0 <= i < j < |p| ==> Less(KeyOf(p[i]), KeyOf(p[j])))
  {
    var st0 := st.(log := st.log + [Adapter.Fetch(LedgerQuery(q))]);
    var applied := SortSet(st.ledger);
    SortSetSpec(st.ledger);
    var c := Candidates(files);
    UpFromIsApplyEach(b, q, c, applied, st0);
    PendingMembers(c, applied);
    CandidatesAscending(files);
    PendingAscending(c, applied);
  }

  /** A full run adds to the ledger at most the ids of the pending
      candidates; when it ends normally it adds exactly those ids, and
      sends their inserts in ascending key order. */
  lemma FullRunRecordsPending(b: Adapter.Backend, q: Sql.Quoting, files: seq<MigrationFile>, st: Adapter.DbState)
    ensures var (st1, sig) := ApplyMigrationsSpec(b, q, "", files, st);
      var p := Pending(Candidates(files), SortSet(st.ledger));
      && st1.ledger <= st.ledger + (set f | f in p :: Id(f))
      && (sig == Normal ==>
            && st1.ledger == st.ledger + (set f | f in p :: Id(f))
            && Inserted(st1.log) == Inserted(st.log) + Ids(p))
  {
    var st0 := st.(log := st.log + [Adapter.Fetch(LedgerQuery(q))]);
    var p := Pending(Candidates(files), SortSet(st.ledger));
    FullRunAppliesPendingInOrder(b, q, files, st);
    ApplyEachLedger(b, q, p, st0);
    if ApplyEach(b, q, p, st0).1 == Normal {
      ApplyEachInserts(b, q, p, st0);
    }
    assert st0.log[..|st0.log| - 1] == st.log;
  }

  /** A full run ends normally when the candidates' ids are distinct, as
      they are when every candidate is well named. */
  lemma FullRunSucceeds(b: Adapter.Backend, q: Sql.Quoting, files: seq<MigrationFile>, st: Adapter.DbState)
    requires forall i, j :: 0 <= i < j < |Candidates(files)| ==> Id(Candidates(files)[i]) != Id(Candidates(files)[j])
    ensures ApplyMigrationsSpec(b, q, "", files, st).1 == Normal
  {
    var st0 := st.(log := st.log + [Adapter.Fetch(LedgerQuery(q))]);
    SortSetSpec(st.ledger);
    UpFromSucceeds(b, q, Candidates(files), SortSet(st.ledger), false, st0);
  }

  /** A full run on a ledger that already records every candidate only
      reads the ledger. */
  lemma SecondFullRunAppliesNothing(b: Adapter.Backend, q: Sql.Quoting, files: seq<MigrationFile>, st: Adapter.DbState)
    requires forall i :: 0 <= i < |Candidates(files)| ==> Id(Candidates(files)[i]) in st.ledger
    ensures ApplyMigrationsSpec(b, q, "", files, st) == (st.(log := st.log + [Adapter.Fetch(LedgerQuery(q))]), Normal)
  {
    SortSetSpec(st.ledger);
    UpFromAllApplied(b, q, Candidates(files), SortSet(st.ledger), false, st.(log := st.log + [Adapter.Fetch(LedgerQuery(q))]));
  }

  /* ---------------------------------------------------------------------- */
  /* run: the catch-all                                                       */
  /* ---------------------------------------------------------------------- */

  /** How run() ends: normally, after echoing an ERROR line for a caught
      exception, or killed by a PHP fatal error. */
  datatype Report = Completed | Reported(line: string) | Aborted(message: string)

  function ReportOf(sig: Signal): Report {
    match sig
    case Normal => Completed
    case Thrown(m) => Reported("ERROR: " + m)
    case Fatal(m) => Aborted(m)
  }

  /** The version run() passes on: the first argument when it is set and
      not empty, "" otherwise. */
  function Version(args: seq<string>): string {
    if |args| > 0 && !IsEmpty(args[0]) then args[0] else ""
  }

  /** run($args) on a configured connection. */
  ghost function RunSpec(driverName: string, q: Sql.Quoting, args: seq<string>, files: seq<MigrationFile>,
                         st: Adapter.DbState): (Adapter.DbState, Report)
  {
    match SelectBackend(driverName)
    case None => (st, Reported("ERROR: " + Unsupported(driverName)))
    case Some(b) =>
      var (st1, sig) := ApplyMigrationsSpec(b, q, Version(args), files, Bootstrap(b, q, st));
      (st1, ReportOf(sig))
  }

  /** An unsupported driver is reported before any statement is sent. */
  lemma UnsupportedDriverSendsNothing(driverName: string, q: Sql.Quoting, args: seq<string>, files: seq<MigrationFile>,
                                     st: Adapter.DbState)
    requires driverName != "mysql" && driverName != "sqlite"
    ensures RunSpec(driverName, q, args, files, st).0 == st
    ensures RunSpec(driverName, q, args, files, st).1.Reported?
  {
  }

  /** Running twice without arguments: when the first run completes, the
      second only reads the ledger and completes too. */
  lemma RunTwiceAppliesNothing(driverName: string, q: Sql.Quoting, files: seq<MigrationFile>, st: Adapter.DbState)
    requires RunSpec(driverName, q, [], files, st).1 == Completed
    ensures var st1 := RunSpec(driverName, q, [], files, st).0;
      RunSpec(driverName, q, [], files, st1) == (st1.(log := st1.log + [Adapter.Fetch(LedgerQuery(q))]), Completed)
  {
    var b := SelectBackend(driverName).value;
    var stb := Bootstrap(b, q, st);
    BootstrapStatements(b, q, st);
    FullRunRecordsEveryCandidate(b, q, files, stb);
    var st1 := RunSpec(driverName, q, [], files, st).0;
    assert Bootstrap(b, q, st1) == st1;
    SecondFullRunAppliesNothing(b, q, files, st1);
  }

  /* ---------------------------------------------------------------------- */
  /* The engine object                                                        */
  /* ---------------------------------------------------------------------- */

  class Engine {
    /** The adapter init() chose; null before init(). */
    var adapter: Adapter.Adapter?
    /** Yii::app()->db: null when the application configures none. */
    const db: Adapter.Connection?
    /** The files of the migrations directory. */
    const files: seq<MigrationFile>

    constructor(db: Adapter.Connection?, files: seq<MigrationFile>)
      ensures this.db == db && this.files == files && adapter == null
    {
      this.db := db;
      this.files := files;
      adapter := null;
    }

    /** After a successful init(): the adapter works on the application's
        connection. */
    predicate Valid()
      reads this
    {
      adapter != null && db != null && adapter.db == db
    }

    method Init() returns (sig: Signal)
      modifies this`adapter, db
      ensures db == null ==> sig == Thrown(ConfigurationMissing) && adapter == old(adapter)
      ensures db != null && SelectBackend(db.driverName).None? ==>
        && sig == Thrown(Unsupported(db.driverName))
        && adapter == old(adapter) && db.State() == old(db.State())
      ensures db != null && SelectBackend(db.driverName).Some? ==>
        && sig == Normal && Valid() && fresh(adapter)
        && adapter.backend == SelectBackend(db.driverName).value
        && db.State() == Bootstrap(adapter.backend, db.quoting, old(db.State()))
    {
      if db == null {
        return Thrown(ConfigurationMissing);
      }
      if db.driverName == "mysql" {
        adapter := new Adapter.Adapter(Adapter.MySql, db);
      } else if db.driverName == "sqlite" {
        adapter := new Adapter.Adapter(Adapter.SQLite, db);
      } else {
        return Thrown(Unsupported(db.driverName));
      }
      if !db.schemaTable {
        ghost var log0 := db.log;
        adapter.CreateTable(SchemaTable, [Sql.Parts([SchemaField, "string"])], "");
        assert db.log == log0 + [CreateLedger(adapter.backend, db.quoting)];
        adapter.AddIndex(SchemaTable, "idx_" + SchemaTable + "_" + SchemaField, [Sql.Bare(SchemaField)], true);
        assert db.log == log0 + [CreateLedger(adapter.backend, db.quoting), IndexLedger(adapter.backend, db.quoting)];
        // the two statements just sent create the table, without rows
        db.schemaTable, db.ledger := true, {};
      }
      sig := Normal;
    }

    method GetAppliedMigrations() returns (applied: seq<string>)
      requires db != null
      modifies db`log
      ensures db.log == old(db.log) + [Adapter.Fetch(LedgerQuery(db.quoting))]
      ensures applied == SortSet(db.ledger)
    {
      applied := db.QueryLedger(LedgerQuery(db.quoting));
    }

    method GetPossibleMigrationsForModule() returns (migrations: map<string, MigrationFile>)
      ensures migrations == CandidateMap(files)
    {
      migrations := map[];
      for i := 0 to |files|
        invariant migrations == CandidateMap(files[..i])
      {
        assert files[..i + 1][..i] == files[..i];
        var migration := files[i];
        if |migration.className| == 0 || migration.className[0] != 'm' {
          continue;
        }
        var className := migration.className;
        if !migration.classDefined || |className| < 16 {
          continue;
        }
        if !migration.isMigration {
          continue;
        }
        var id := className[1..15];
        migrations := migrations[id := migration];
      }
      assert files[..|files|] == files;
    }

    method GetPossibleMigrations() returns (keys: seq<string>, possible: map<string, MigrationFile>)
      ensures possible == CandidateMap(files)
      ensures keys == SortSet(possible.Keys)
    {
      possible := GetPossibleMigrationsForModule();
      keys := SortedMembers(possible.Keys);
    }

    method CreateMigration(f: MigrationFile) returns (migration: Migration.Migration)
      requires Valid()
      ensures fresh(migration) && migration.definition == Definition(f) && migration.adapter == adapter
    {
      migration := new Migration.Migration(Definition(f), adapter);
    }

    method ApplyMigration(migration: Migration.Migration, direction: string) returns (sig: Signal)
      requires Valid() && migration.adapter == adapter
      modifies db
      ensures (db.State(), sig) == ApplyMigrationSpec(adapter.backend, db.quoting, migration.definition, direction, old(db.State()))
    {
      sig := migration.PerformTransactional(direction);
      if sig != Normal {
        return;
      }
      var id := Migration.GetId(migration.definition.className);
      if direction == "up" {
        sig := db.InsertLedger(SchemaTable, id);
      } else {
        adapter.Execute(DeleteStatement(db.quoting, id), []);
        // the DELETE just sent removes the row
        db.ledger := db.ledger - {id};
      }
    }

    method ApplyMigrations(version: string) returns (sig: Signal)
      requires Valid()
      modifies db
      ensures (db.State(), sig) == ApplyMigrationsSpec(adapter.backend, db.quoting, version, files, old(db.State()))
    {
      var applied := GetAppliedMigrations();
      var keys, possible := GetPossibleMigrations();
      SortSetSpec(possible.Keys);
      if version == "down" {
        if |applied| == 0 {
          return Thrown(NoMigrationsApplied);
        }
        var last := applied[|applied| - 1];
        if last !in possible {
          return Fatal(MissingMigrationFile);
        }
        var migration := CreateMigration(possible[last]);
        sig := ApplyMigration(migration, "down");
        return;
      }
      if IsEmpty(version) || version == "up" {
        sig := ApplyPending(keys, possible, applied, version == "up");
        return;
      }
      sig := Normal;
    }

    /** The foreach loop of applyMigrations over the sorted candidates. */
    method ApplyPending(keys: seq<string>, possible: map<string, MigrationFile>, applied: seq<string>, once: bool)
      returns (sig: Signal)
      requires Valid()
      requires possible == CandidateMap(files) && keys == SortSet(possible.Keys)
      modifies db
      ensures (db.State(), sig) == UpFrom(adapter.backend, db.quoting, Candidates(files), applied, once, old(db.State()))
    {
      SortSetSpec(possible.Keys);
      ghost var all := Candidates(files);
      assert |all| == |keys| && forall j :: 0 <= j < |keys| ==> all[j] == possible[keys[j]];
      var i := 0;
      while i < |keys|
        invariant 0 <= i <= |keys|
        invariant Valid() && adapter == old(adapter)
        invariant UpFrom(adapter.backend, db.quoting, all, applied, once, old(db.State()))
               == UpFrom(adapter.backend, db.quoting, all[i..], applied, once, db.State())
      {
        assert all[i..][1..] == all[i + 1..];
        var migration := CreateMigration(possible[keys[i]]);
        if Migration.GetId(migration.definition.className) !in applied {
          sig := ApplyMigration(migration, "up");
          if sig != Normal || once {
            return;
          }
        }
        i := i + 1;
      }
      sig := Normal;
    }

    method Run(args: seq<string>) returns (report: Report)
      modifies this`adapter, db
      ensures db == null ==> report == Reported("ERROR: " + ConfigurationMissing)
      ensures db != null ==> (db.State(), report) == RunSpec(db.driverName, db.quoting, args, files, old(db.State()))
    {
      var sig := Init();
      if sig == Normal {
        if |args| > 0 && !IsEmpty(args[0]) {
          sig := ApplyMigrations(args[0]);
        } else {
          sig := ApplyMigrations("");
        }
      }
      report := ReportOf(sig);
    }
  }
}
