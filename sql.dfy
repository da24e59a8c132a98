/** The SQL text the base adapter (CDbMigrationAdapter) builds: the type
    mapping, the rendering of column lists and one statement per DDL
    operation. Identifier quoting belongs to the database connection and is
    left uninterpreted. */
module Sql {
  import opened Php

  /** The connection's quoteTableName, quoteColumnName and quoteValue. */
  datatype Quoting = Quoting(table: string -> string, column: string -> string, value: string -> string)

  /** One entry of a column list: an array such as ('id', 'primary_key') or
      ('title', 'string', 'NOT NULL'), or a bare column name. */
  datatype Field = Parts(parts: seq<string>) | Bare(name: string)

  /** convertToNativeType: the backend's entry for a logical type, or the
      type itself when the table has none. */
  function NativeType(types: map<string, string>, t: string): (r: string)
    ensures r == t || r in types.Values
  {
    if t in types then types[t] else t
  }

  /** An array entry after convertFields has quoted its first element and
      converted its second; the remaining elements are kept as they are. */
  function ConvertParts(q: Quoting, types: map<string, string>, ps: seq<string>): (r: seq<string>)
    ensures |r| == |ps|
  {
    if |ps| == 0 then []
    else if |ps| == 1 then [q.column(ps[0])]
    else [q.column(ps[0]), NativeType(types, ps[1])] + ps[2..]
  }

  function RenderField(q: Quoting, types: map<string, string>, f: Field): string {
    match f
    case Parts(ps) => Join(" ", ConvertParts(q, types, ps))
    case Bare(name) => q.column(name)
  }

  function Rendered(q: Quoting, types: map<string, string>, fields: seq<Field>): (r: seq<string>)
    ensures |r| == |fields|
  {
    seq(|fields|, i requires 0 <= i < |fields| => RenderField(q, types, fields[i]))
  }

  /** The column list convertFields returns. */
  function FieldList(q: Quoting, types: map<string, string>, fields: seq<Field>): string {
    Join(", ", Rendered(q, types, fields))
  }

  /** convertFields: renders the entries one by one into a list, then joins
      the list with ", ". */
  method ConvertFields(q: Quoting, types: map<string, string>, fields: seq<Field>) returns (r: string)
    ensures r == FieldList(q, types, fields)
  {
    var result: seq<string> := [];
    var i := 0;
    while i < |fields|
      invariant 0 <= i <= |fields|
      invariant |result| == i
      invariant forall j :: 0 <= j < i ==> result[j] == RenderField(q, types, fields[j])
    {
      var field := fields[i];
      var rendered: string;
      match field {
        case Parts(ps) =>
          var parts := ps;
          if |parts| > 0 {
            parts := parts[0 := q.column(parts[0])];
          }
          if |parts| > 1 {
            parts := parts[1 := NativeType(types, parts[1])];
          }
          assert parts == ConvertParts(q, types, ps);
          rendered := Join(" ", parts);
        case Bare(name) =>
          rendered := q.column(name);
      }
      result := result + [rendered];
      i := i + 1;
    }
    assert result == Rendered(q, types, fields);
    r := Join(", ", result);
  }

  /** The column name of an entry: what convertFields hands to quoteColumnName. */
  function NameOf(f: Field): string {
    match f
    case Parts(ps) => if |ps| > 0 then ps[0] else []
    case Bare(name) => name
  }

  /** Only column names are quoted: two quotings that agree on the names of
      the list render it alike, whatever they do to type names and options. */
  lemma {:induction false} FieldListQuotesOnlyNames(q1: Quoting, q2: Quoting, types: map<string, string>, fields: seq<Field>)
    requires forall i :: 0 <= i < |fields| ==> q1.column(NameOf(fields[i])) == q2.column(NameOf(fields[i]))
    ensures FieldList(q1, types, fields) == FieldList(q2, types, fields)
  {
    forall i | 0 <= i < |fields|
      ensures RenderField(q1, types, fields[i]) == RenderField(q2, types, fields[i])
    {
      match fields[i] {
        case Parts(ps) =>
          assert ConvertParts(q1, types, ps) == ConvertParts(q2, types, ps);
        case Bare(name) =>
      }
    }
    assert Rendered(q1, types, fields) == Rendered(q2, types, fields);
  }

  /* ---------------------------------------------------------------------- */
  /* One statement per operation. `options` is "" where PHP passes null.     */
  /* ---------------------------------------------------------------------- */

  function CreateTable(q: Quoting, types: map<string, string>, name: string, columns: seq<Field>, options: string): string {
    TableStatement(q, name, FieldList(q, types, columns), options)
  }

  /** The CREATE TABLE statement around a column list convertFields has
      already rendered. */
  function TableStatement(q: Quoting, name: string, fields: string, options: string): string {
    "CREATE TABLE " + q.table(name) + " (" + fields + ") " + options
  }

  function RenameTable(q: Quoting, name: string, newName: string): string {
    "RENAME TABLE " + q.table(name) + " TO " + q.table(newName)
  }

  function RemoveTable(q: Quoting, name: string): string {
    "DROP TABLE " + q.table(name)
  }

  /** addColumn replaces empty options (PHP's empty(): "" or "0") by NOT NULL. */
  function AddColumn(q: Quoting, types: map<string, string>, table: string, column: string, colType: string, options: string): string {
    "ALTER TABLE " + q.table(table) + " ADD " + q.column(column) + " "
      + NativeType(types, colType) + " " + (if IsEmpty(options) then "NOT NULL" else options)
  }

  function ChangeColumn(q: Quoting, types: map<string, string>, table: string, column: string, colType: string, options: string): string {
    "ALTER TABLE " + q.table(table) + " CHANGE " + q.column(column) + " "
      + q.column(column) + " " + NativeType(types, colType) + " " + options
  }

  /** columnInfo, which renameColumn asks for the column's definition, has an
      empty body: PHP's null, which concatenates as "". */
  function ColumnInfo(name: string): string {
    ""
  }

  function RenameColumn(q: Quoting, table: string, name: string, newName: string): string {
    "ALTER TABLE " + q.table(table) + " CHANGE " + q.column(name) + " "
      + q.column(newName) + " " + ColumnInfo(name)
  }

  function RemoveColumn(q: Quoting, table: string, column: string): string {
    "ALTER TABLE " + q.table(table) + " DROP " + q.column(column)
  }

  /** addIndex builds its statement in two steps: the head, with UNIQUE
      when asked for, then the index name, the table and the columns. */
  function AddIndex(q: Quoting, types: map<string, string>, table: string, name: string, columns: seq<Field>, unique: bool): string {
    IndexHead(unique) + IndexTail(q, table, name, FieldList(q, types, columns))
  }

  function IndexHead(unique: bool): string {
    "CREATE " + (if unique then "UNIQUE " else "") + "INDEX "
  }

  function IndexTail(q: Quoting, table: string, name: string, fields: string): string {
    q.column(name) + " ON " + q.table(table) + " (" + fields + ")"
  }

  /** removeIndex quotes the index name with quoteTableName. */
  function RemoveIndex(q: Quoting, table: string, name: string): string {
    "DROP INDEX " + q.table(name) + " ON " + q.table(table)
  }

  predicate StartsWith(s: string, prefix: string) {
    |prefix| <= |s| && s[..|prefix|] == prefix
  }

  predicate EndsWith(s: string, suffix: string) {
    |suffix| <= |s| && s[|s| - |suffix|..] == suffix
  }

  lemma PrefixOfConcat(x: string, y: string)
    ensures StartsWith(x + y, x)
  {
    assert (x + y)[..|x|] == x;
  }

  lemma DifferAt(s: string, prefix: string, i: nat)
    requires i < |prefix| && i < |s| && s[i] != prefix[i]
    ensures !StartsWith(s, prefix)
  {
    if |prefix| <= |s| {
      assert s[..|prefix|][i] == s[i];
    }
  }

  /** The two ways addIndex's statement can begin. */
  lemma IndexPrefixes()
    ensures "CREATE " + "UNIQUE " + "INDEX " == "CREATE UNIQUE INDEX "
    ensures "CREATE " + "" + "INDEX " == "CREATE INDEX "
    ensures |"CREATE UNIQUE INDEX "| == 20 && |"CREATE INDEX "| == 13
    ensures "CREATE UNIQUE INDEX "[7] == 'U' && "CREATE INDEX "[7] == 'I'
  {
  }

  /** addIndex emits CREATE UNIQUE INDEX exactly when asked for a unique
      index, and CREATE INDEX otherwise. */
  lemma AddIndexUniqueness(q: Quoting, types: map<string, string>, table: string, name: string, columns: seq<Field>, unique: bool)
    ensures StartsWith(AddIndex(q, types, table, name, columns, unique), "CREATE UNIQUE INDEX ") <==> unique
    ensures StartsWith(AddIndex(q, types, table, name, columns, unique), "CREATE INDEX ") <==> !unique
  {
    var s := AddIndex(q, types, table, name, columns, unique);
    var rest := IndexTail(q, table, name, FieldList(q, types, columns));
    var head := IndexHead(unique);
    IndexPrefixes();
    PrefixOfConcat(head, rest);
    assert s[7] == head[7];
    if unique {
      DifferAt(s, "CREATE INDEX ", 7);
    } else {
      DifferAt(s, "CREATE UNIQUE INDEX ", 7);
    }
  }

  /** addColumn uses NOT NULL when the options are empty, and the options
      verbatim, unquoted, otherwise. */
  lemma AddColumnOptions(q: Quoting, types: map<string, string>, table: string, column: string, colType: string, options: string)
    ensures IsEmpty(options) ==> AddColumn(q, types, table, column, colType, options) == AddColumn(q, types, table, column, colType, "NOT NULL")
    ensures !IsEmpty(options) ==> EndsWith(AddColumn(q, types, table, column, colType, options), " " + options)
  {
    var head := "ALTER TABLE " + q.table(table) + " ADD " + q.column(column) + " " + NativeType(types, colType);
    if !IsEmpty(options) {
      assert AddColumn(q, types, table, column, colType, options) == head + (" " + options);
    }
  }
}
