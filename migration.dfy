/** A migration unit (CDbMigration): its id and name, taken from its class
    name; the bodies of up() and down(), made of calls to the helpers that
    forward to the adapter; and performTransactional, which runs a body
    between a begin and a commit, or a rollback when the body throws. */
module Migration {
  import opened Php
  import Sql
  import Adapter

  /** One statement of an up() or down() body: a call of one of the helpers,
      or an exception raised by the migration's own code or by the database
      while it runs a statement. */
  datatype Step = Helper(call: Adapter.Call) | Throw(message: string)

  /** A migration class: its name and the bodies of its up() and down().
      The inherited up() and down() are empty. */
  datatype Definition = Definition(className: string, up: seq<Step>, down: seq<Step>)

  /** getId: the first '_'-separated piece of the class name without its
      first character. */
  function GetId(className: string): (r: string)
    ensures '_' !in r
  {
    var first := Split(className, '_')[0];
    SplitJoin(className, '_');
    assert forall i :: 0 <= i < |DropFirst(first)| ==> DropFirst(first)[i] == first[i + 1];
    DropFirst(first)
  }

  /** getName: the second '_'-separated piece of the class name; null when
      there is no '_'. */
  function GetName(className: string): (r: Option<string>)
    ensures r.Some? <==> '_' in className
    ensures r.Some? ==> '_' !in r.value
  {
    var pieces := Split(className, '_');
    SplitJoin(className, '_');
    SplitCount(className, '_');
    if |pieces| >= 2 then Some(pieces[1]) else None
  }

  /** The id is the text between the leading character and the first '_'. */
  lemma IdIsTextBeforeFirstUnderscore(className: string)
    requires |className| >= 1 && className[0] != '_'
    ensures [className[0]] + GetId(className) == className[..IndexOf(className, '_')]
    ensures '_' !in GetId(className)
  {
    FirstPiece(className, '_');
  }

  /** The name is the text between the first and the second '_', and null
      when the class name has no '_'. */
  lemma NameIsSecondPiece(className: string)
    ensures IndexOf(className, '_') == |className| ==> GetName(className) == None
    ensures IndexOf(className, '_') < |className| ==>
      var rest := className[IndexOf(className, '_') + 1..];
      GetName(className) == Some(rest[..IndexOf(rest, '_')])
  {
    var k := IndexOf(className, '_');
    if k == |className| {
      SplitWithout(className, '_');
    } else {
      var rest := className[k + 1..];
      LaterPieces(className, '_');
      FirstPiece(rest, '_');
      assert Split(className, '_')[1] == Split(rest, '_')[0];
    }
  }

  /** A class name of the conventional shape m<14 characters>_<name> has
      those 14 characters as its id. */
  lemma TimestampedId(className: string)
    requires |className| >= 16 && className[15] == '_'
    requires forall j :: 0 <= j < 15 ==> className[j] != '_'
    ensures GetId(className) == className[1..15]
  {
    IndexOfAt(className, '_', 15);
    IdIsTextBeforeFirstUnderscore(className);
    assert className[..15] == [className[0]] + className[1..15];
  }

  /** Running a body from log `log`: the statements its helper calls send,
      in order, and the message of the exception that ends it early, if
      one does. A body only appends statements: never a transaction
      boundary, never a ledger insert. */
  function RunSteps(b: Adapter.Backend, q: Sql.Quoting, steps: seq<Step>, log: seq<Adapter.Event>): (r: (seq<Adapter.Event>, Option<string>))
    ensures |r.0| >= |log| && r.0[..|log|] == log
    ensures forall i :: |log| <= i < |r.0| ==> !Adapter.IsTransactionEvent(r.0[i]) && !r.0[i].Insert?
    decreases |steps|
  {
    if steps == [] then (log, None)
    else
      match steps[0]
      case Throw(m) => (log, Some(m))
      case Helper(call) =>
        match Adapter.Statement(b, q, call)
        case Failure(m) => (log, Some(m))
        case Success(e) =>
          Adapter.CapabilityGaps(b, q, call);
          var r := RunSteps(b, q, steps[1..], log + [e]);
          assert r.0[..|log|] == (log + [e])[..|log|];
          r
  }

  /** performTransactional(command) on a migration, starting from log `log`:
      the log afterwards and how the call ends. */
  function Perform(b: Adapter.Backend, q: Sql.Quoting, def: Definition, command: string, log: seq<Adapter.Event>): (r: (seq<Adapter.Event>, Signal))
    ensures r.1 == Normal <==> command == "up" || command == "down"
    ensures |r.0| >= |log| && r.0[..|log|] == log
    ensures forall i :: |log| <= i < |r.0| ==> !r.0[i].Insert?
  {
    if command != "up" && command != "down" then
      (log, Thrown("Invalid migration command: " + command))
    else
      var body := if command == "up" then def.up else def.down;
      var (log1, thrown) := RunSteps(b, q, body, log + [Adapter.Begin]);
      if thrown.None? then (log1 + [Adapter.Commit], Normal)
      else (log1 + [Adapter.Rollback], Normal)
  }

  /** The transaction protocol: an unknown command throws before anything is
      sent; up and down open one transaction, send the body's statements and
      end it with exactly one commit (the body finished) or rollback (it
      threw), and the exception is swallowed. */
  lemma TransactionProtocol(b: Adapter.Backend, q: Sql.Quoting, def: Definition, command: string, log: seq<Adapter.Event>)
    ensures command != "up" && command != "down" ==>
      Perform(b, q, def, command, log) == (log, Thrown("Invalid migration command: " + command))
    ensures command == "up" || command == "down" ==>
      var out := Perform(b, q, def, command, log).0;
      var body := if command == "up" then def.up else def.down;
      && Perform(b, q, def, command, log).1 == Normal
      && |out| >= |log| + 2
      && out[..|log| + 1] == log + [Adapter.Begin]
      && (forall i :: |log| < i < |out| - 1 ==> !Adapter.IsTransactionEvent(out[i]))
      && (out[|out| - 1] == Adapter.Commit <==> RunSteps(b, q, body, log + [Adapter.Begin]).1.None?)
      && (out[|out| - 1] == Adapter.Rollback <==> RunSteps(b, q, body, log + [Adapter.Begin]).1.Some?)
  {
    if command == "up" || command == "down" {
      var body := if command == "up" then def.up else def.down;
      var r := RunSteps(b, q, body, log + [Adapter.Begin]);
      assert r.0[..|log| + 1] == log + [Adapter.Begin];
      var out := Perform(b, q, def, command, log).0;
      assert out[..|r.0|] == r.0;
      forall i | |log| < i < |out| - 1
        ensures !Adapter.IsTransactionEvent(out[i])
      {
        assert out[i] == r.0[i];
      }
    }
  }

  /** A migration that keeps the inherited, empty up() and down() opens and
      commits a transaction and sends nothing else. */
  lemma DefaultBodiesSendNothing(b: Adapter.Backend, q: Sql.Quoting, className: string, command: string, log: seq<Adapter.Event>)
    requires command == "up" || command == "down"
    ensures Perform(b, q, Definition(className, [], []), command, log) == (log + [Adapter.Begin, Adapter.Commit], Normal)
  {
    assert log + [Adapter.Begin] + [Adapter.Commit] == log + [Adapter.Begin, Adapter.Commit];
  }

  /** A migration object over the adapter it was constructed with. */
  class Migration {
    const definition: Definition
    const adapter: Adapter.Adapter

    constructor(definition: Definition, adapter: Adapter.Adapter)
      ensures this.definition == definition && this.adapter == adapter
    {
      this.definition := definition;
      this.adapter := adapter;
    }

    method PerformTransactional(command: string) returns (sig: Signal)
      modifies adapter.db`log
      ensures (adapter.db.log, sig) == Perform(adapter.backend, adapter.db.quoting, definition, command, old(adapter.db.log))
    {
      if command != "up" && command != "down" {
        return Thrown("Invalid migration command: " + command);
      }
      adapter.db.BeginTransaction();
      var thrown: Option<string>;
      if command == "up" {
        thrown := Up();
      } else {
        thrown := Down();
      }
      if thrown.None? {
        adapter.db.Commit();
      } else {
        adapter.db.Rollback();
      }
      sig := Normal;
    }

    /** up(): the migration's forward body. */
    method Up() returns (thrown: Option<string>)
      modifies adapter.db`log
      ensures (adapter.db.log, thrown) == RunSteps(adapter.backend, adapter.db.quoting, definition.up, old(adapter.db.log))
    {
      thrown := RunBody(definition.up);
    }

    /** down(): the migration's reverse body. */
    method Down() returns (thrown: Option<string>)
      modifies adapter.db`log
      ensures (adapter.db.log, thrown) == RunSteps(adapter.backend, adapter.db.quoting, definition.down, old(adapter.db.log))
    {
      thrown := RunBody(definition.down);
    }

    /** Runs a body statement by statement until it ends or throws. */
    method RunBody(steps: seq<Step>) returns (thrown: Option<string>)
      modifies adapter.db`log
      ensures (adapter.db.log, thrown) == RunSteps(adapter.backend, adapter.db.quoting, steps, old(adapter.db.log))
    {
      var i := 0;
      while i < |steps|
        invariant 0 <= i <= |steps|
        invariant RunSteps(adapter.backend, adapter.db.quoting, steps, old(adapter.db.log))
               == RunSteps(adapter.backend, adapter.db.quoting, steps[i..], adapter.db.log)
      {
        assert steps[i..][1..] == steps[i + 1..];
        match steps[i] {
          case Throw(m) =>
            return Some(m);
          case Helper(call) =>
            var sig := Call(call);
            if sig.Thrown? {
              return Some(sig.message);
            }
        }
        i := i + 1;
      }
      thrown := None;
    }

    /** A call of the helper the step names. */
    method Call(call: Adapter.Call) returns (sig: Signal)
      modifies adapter.db`log
      ensures (adapter.db.log, sig) == Adapter.Issue(old(adapter.db.log), Adapter.Statement(adapter.backend, adapter.db.quoting, call))
      ensures !sig.Fatal?
    {
      match call {
        case Execute(sql, params) => sig := Execute(sql, params);
        case Query(sql, params) => sig := Query(sql, params);
        case CreateTable(name, columns, options) => sig := CreateTable(name, columns, options);
        case RenameTable(name, newName) => sig := RenameTable(name, newName);
        case RemoveTable(name) => sig := RemoveTable(name);
        case AddColumn(table, column, colType, options) => sig := AddColumn(table, column, colType, options);
        case ChangeColumn(table, column, colType, options) => sig := ChangeColumn(table, column, colType, options);
        case RenameColumn(table, name, newName) => sig := RenameColumn(table, name, newName);
        case RemoveColumn(table, column) => sig := RemoveColumn(table, column);
        case AddIndex(table, name, columns, unique) => sig := AddIndex(table, name, columns, unique);
        case RemoveIndex(table, name) => sig := RemoveIndex(table, name);
      }
    }

    /* The helpers: each hands its arguments unchanged to the adapter method
       of the same name, so each ends as the adapter's answer to that call. */

    method Execute(query: string, params: seq<string>) returns (sig: Signal)
      modifies adapter.db`log
      ensures (adapter.db.log, sig) == Adapter.Issue(old(adapter.db.log),
                Adapter.Statement(adapter.backend, adapter.db.quoting, Adapter.Call.Execute(query, params)))
    {
      adapter.Execute(query, params);
      sig := Normal;
    }

    method Query(query: string, params: seq<string>) returns (sig: Signal)
      modifies adapter.db`log
      ensures (adapter.db.log, sig) == Adapter.Issue(old(adapter.db.log),
                Adapter.Statement(adapter.backend, adapter.db.quoting, Adapter.Call.Query(query, params)))
    {
      adapter.Query(query, params);
      sig := Normal;
    }

    method CreateTable(name: string, columns: seq<Sql.Field>, options: string) returns (sig: Signal)
      modifies adapter.db`log
      ensures (adapter.db.log, sig) == Adapter.Issue(old(adapter.db.log),
                Adapter.Statement(adapter.backend, adapter.db.quoting, Adapter.Call.CreateTable(name, columns, options)))
    {
      adapter.CreateTable(name, columns, options);
      sig := Normal;
    }

    method RenameTable(name: string, newName: string) returns (sig: Signal)
      modifies adapter.db`log
      ensures (adapter.db.log, sig) == Adapter.Issue(old(adapter.db.log),
                Adapter.Statement(adapter.backend, adapter.db.quoting, Adapter.Call.RenameTable(name, newName)))
    {
      adapter.RenameTable(name, newName);
      sig := Normal;
    }

    method RemoveTable(name: string) returns (sig: Signal)
      modifies adapter.db`log
      ensures (adapter.db.log, sig) == Adapter.Issue(old(adapter.db.log),
                Adapter.Statement(adapter.backend, adapter.db.quoting, Adapter.Call.RemoveTable(name)))
    {
      adapter.RemoveTable(name);
      sig := Normal;
    }

    method AddColumn(table: string, column: string, colType: string, options: string) returns (sig: Signal)
      modifies adapter.db`log
      ensures (adapter.db.log, sig) == Adapter.Issue(old(adapter.db.log),
                Adapter.Statement(adapter.backend, adapter.db.quoting, Adapter.Call.AddColumn(table, column, colType, options)))
    {
      adapter.AddColumn(table, column, colType, options);
      sig := Normal;
    }

    method RenameColumn(table: string, name: string, newName: string) returns (sig: Signal)
      modifies adapter.db`log
      ensures (adapter.db.log, sig) == Adapter.Issue(old(adapter.db.log),
                Adapter.Statement(adapter.backend, adapter.db.quoting, Adapter.Call.RenameColumn(table, name, newName)))
    {
      sig := adapter.RenameColumn(table, name, newName);
    }

    method ChangeColumn(table: string, column: string, colType: string, options: string) returns (sig: Signal)
      modifies adapter.db`log
      ensures (adapter.db.log, sig) == Adapter.Issue(old(adapter.db.log),
                Adapter.Statement(adapter.backend, adapter.db.quoting, Adapter.Call.ChangeColumn(table, column, colType, options)))
    {
      sig := adapter.ChangeColumn(table, column, colType, options);
    }

    method RemoveColumn(table: string, column: string) returns (sig: Signal)
      modifies adapter.db`log
      ensures (adapter.db.log, sig) == Adapter.Issue(old(adapter.db.log),
                Adapter.Statement(adapter.backend, adapter.db.quoting, Adapter.Call.RemoveColumn(table, column)))
    {
      sig := adapter.RemoveColumn(table, column);
    }

    method AddIndex(table: string, name: string, columns: seq<Sql.Field>, unique: bool) returns (sig: Signal)
      modifies adapter.db`log
      ensures (adapter.db.log, sig) == Adapter.Issue(old(adapter.db.log),
                Adapter.Statement(adapter.backend, adapter.db.quoting, Adapter.Call.AddIndex(table, name, columns, unique)))
    {
      adapter.AddIndex(table, name, columns, unique);
      sig := Normal;
    }

    method RemoveIndex(table: string, name: string) returns (sig: Signal)
      modifies adapter.db`log
      ensures (adapter.db.log, sig) == Adapter.Issue(old(adapter.db.log),
                Adapter.Statement(adapter.backend, adapter.db.quoting, Adapter.Call.RemoveIndex(table, name)))
    {
      adapter.RemoveIndex(table, name);
      sig := Normal;
    }
  }
}
