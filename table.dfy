/** The table of tables/table.go: validation of the table value and the SQL
    text and parameter lists of CREATE TABLE, INSERT, SELECT COUNT(*) and
    UPDATE. The database is an external collaborator: each statement is handed
    to it and whatever it answers (an error, or for COUNT a number) is what the
    operation returns. */
module Table {
  import opened Errors
  import opened Strings
  import Orm
  import Options
  import IntField

  /** A value read from a Go attribute of an instance. */
  datatype Value =
    | IntValue(i: int)
    | StringValue(s: string)
    | BoolValue(b: bool)
    | OtherValue(kind: Kind, token: nat)  // any other Go value (a float, a time), passed through unread

  /** An instance as the table sees it: what its Fields() method returns and
      the values of its Go attributes, by attribute name. */
  datatype Instance = Instance(fields: seq<Orm.Field>, attrs: map<string, Value>)

  /** The column values are read with FieldByName(field.Name()), so every
      column name must also be the name of a Go attribute. */
  predicate Readable(inst: Instance)
  {
    forall f :: f in inst.fields ==> f.name in inst.attrs
  }

  /** The columns ParseInstance selects (all of them, or the primary keys
      only) can be read by name; only those are looked up. */
  predicate ReadableFor(inst: Instance, justPrimaryKeys: bool)
  {
    forall f :: f in Selected(inst.fields, justPrimaryKeys) ==> f.name in inst.attrs
  }

  /** The database: what running a statement answers (begin, prepare, execute,
      commit and close taken together), and what a COUNT query answers. */
  datatype Db = Db(exec: (string, seq<Value>) -> Option<Error>, count: (string, seq<Value>) -> Result<int>)

  /** What reflection tells about the value handed to NewTable; `modelFields`
      is the result of its Fields() method when its type has one. */
  datatype TableInput = TableInput(isPointer: bool, pointeeIsStruct: bool, typeName: string,
                                   modelFields: Option<seq<Orm.Field>>)

  /** A table bound to a database: the struct's type name and its columns. */
  datatype SimpleTable = SimpleTable(db: Db, name: string, fields: seq<Orm.Field>)

  /** A statement and its positional parameters. */
  datatype Statement = Statement(sql: string, params: seq<Value>)

  // ---------------------------------------------------------------------
  // Specification functions

  function Names(fs: seq<Orm.Field>): (r: seq<string>)
    ensures |r| == |fs| && forall k :: 0 <= k < |fs| ==> r[k] == fs[k].name
    decreases |fs|
  {
    if |fs| == 0 then [] else Names(fs[..|fs| - 1]) + [fs[|fs| - 1].name]
  }

  /** The values of the given columns, read from the instance's attributes. */
  function Values(attrs: map<string, Value>, fs: seq<Orm.Field>): (r: seq<Value>)
    requires forall f :: f in fs ==> f.name in attrs
    ensures |r| == |fs| && forall k :: 0 <= k < |fs| ==> r[k] == attrs[fs[k].name]
    decreases |fs|
  {
    if |fs| == 0 then [] else Values(attrs, fs[..|fs| - 1]) + [attrs[fs[|fs| - 1].name]]
  }

  /** The columns ParseInstance keeps: all of them, or only the primary keys,
      in column order. */
  function Selected(fs: seq<Orm.Field>, justPrimaryKeys: bool): seq<Orm.Field>
    decreases |fs|
  {
    if |fs| == 0 then []
    else
      var last := fs[|fs| - 1];
      Selected(fs[..|fs| - 1], justPrimaryKeys) + (if !justPrimaryKeys || last.primaryKey then [last] else [])
  }

  /** The "name type" text of one column. */
  function ColumnDef(f: Orm.Field): string
  {
    f.name + " " + f.typeName
  }

  function ColumnDefs(fs: seq<Orm.Field>): seq<string>
    decreases |fs|
  {
    if |fs| == 0 then [] else ColumnDefs(fs[..|fs| - 1]) + [ColumnDef(fs[|fs| - 1])]
  }

  /** Each name rewritten to "name=?". */
  function Assignments(names: seq<string>): (r: seq<string>)
    ensures |r| == |names| && forall k :: 0 <= k < |names| ==> r[k] == names[k] + "=?"
  {
    seq(|names|, k requires 0 <= k < |names| => names[k] + "=?")
  }

  /** n placeholders "?". */
  function Marks(n: nat): (r: seq<string>)
    ensures |r| == n && forall k :: 0 <= k < n ==> r[k] == "?"
  {
    seq(n, k => "?")
  }

  function PrimaryKeyClause(pks: seq<string>): string
  {
    if |pks| > 0 then ", PRIMARY KEY(" + Join(pks, ",") + ")" else ""
  }

  function CreateHead(name: string, skipIfExists: bool): string
  {
    "CREATE TABLE " + (if skipIfExists then " IF NOT EXISTS " else "") + name + "("
  }

  function CreateSql(name: string, fs: seq<Orm.Field>, skipIfExists: bool): string
  {
    CreateHead(name, skipIfExists) + Join(ColumnDefs(fs), ",") + PrimaryKeyClause(Names(Selected(fs, true))) + ")"
  }

  function InsertSql(name: string, fs: seq<Orm.Field>): string
  {
    "INSERT INTO " + name + " (" + Join(Names(fs), ",") + ") VALUES (" + Join(Marks(|fs|), ",") + ")"
  }

  /** The WHERE terms are joined by "," as written, not by AND. */
  function CountSql(name: string, fs: seq<Orm.Field>): string
  {
    "SELECT COUNT(*) FROM " + name + " WHERE " + Join(Assignments(Names(Selected(fs, true))), ",")
  }

  function UpdateSql(name: string, fs: seq<Orm.Field>): string
  {
    "UPDATE " + name + " SET " + Join(Assignments(Names(fs)), ",") +
    " WHERE " + Join(Assignments(Names(Selected(fs, true))), ",")
  }

  /** The values of the instance's primary-key columns, in column order. */
  function KeyValues(inst: Instance): seq<Value>
    requires ReadableFor(inst, true)
  {
    Values(inst.attrs, Selected(inst.fields, true))
  }

  /** What the database answers to the instance's COUNT query. */
  function CountAnswer(t: SimpleTable, inst: Instance): Result<int>
    requires ReadableFor(inst, true)
  {
    t.db.count(CountSql(t.name, inst.fields), KeyValues(inst))
  }

  // ---------------------------------------------------------------------
  // Operations

  /** Validates the table value: it must be a pointer, to a struct, whose type
      has a Fields() method. A pointer to a non-struct gets the pointer message. */
  function NewTable(db: Db, input: TableInput): (r: Result<SimpleTable>)
    ensures !input.isPointer ==> r.Err? && r.error == TableShouldBePointer
    ensures input.isPointer && !input.pointeeIsStruct ==> r.Err? && r.error == TableShouldBePointer
    ensures input.isPointer && input.pointeeIsStruct && input.modelFields.None? ==>
              r.Err? && r.error == TableNotImplementModelFields
    ensures r.Ok? <==> input.isPointer && input.pointeeIsStruct && input.modelFields.Some?
    ensures r.Ok? ==> Name(r.value) == input.typeName && r.value.fields == input.modelFields.value
  {
    if !input.isPointer then Err(TableShouldBePointer)
    else if !input.pointeeIsStruct then Err(TableShouldBePointer)
    else if input.modelFields.None? then Err(TableNotImplementModelFields)
    else Ok(SimpleTable(db, input.typeName, input.modelFields.value))
  }

  /** The table's name: the type name of the struct it was made from. */
  function Name(t: SimpleTable): (r: string)
    ensures r == t.name
  {
    t.name
  }

  /** CREATE TABLE, built by appending to the text column by column; the
      database's answer (for instance "table already exists") is returned. */
  method Create(t: SimpleTable, skipIfExists: bool) returns (sql: string, err: Option<Error>)
    ensures sql == CreateSql(t.name, t.fields, skipIfExists)
    ensures err == t.db.exec(sql, [])
  {
    var primaryKeys: seq<string> := [];
    sql := "CREATE TABLE ";
    if skipIfExists {
      sql := sql + " IF NOT EXISTS ";
    }
    sql := sql + Name(t);
    sql := sql + "(";
    assert sql == CreateHead(t.name, skipIfExists);
    ghost var head := sql;
    var fields := t.fields;
    for i := 0 to |fields|
      invariant sql == head + ColumnsUpTo(fields, i)
      invariant primaryKeys == KeysUpTo(fields, i)
    {
      ghost var before := sql;
      sql := sql + ColumnDef(fields[i]);
      if i < |fields| - 1 {
        sql := sql + ",";
      }
      assert sql == head + ColumnsUpTo(fields, i + 1) by {
        AppendAssoc(head, ColumnsUpTo(fields, i), ColumnDef(fields[i]));
        AppendAssoc(head, ColumnsUpTo(fields, i) + ColumnDef(fields[i]), if i < |fields| - 1 then "," else "");
      }
      if fields[i].primaryKey {
        primaryKeys := primaryKeys + [fields[i].name];
      }
    }
    ghost var body := sql;
    if |primaryKeys| > 0 {
      sql := sql + ", PRIMARY KEY(";
      sql := sql + Join(primaryKeys, ",");
      sql := sql + ")";
      assert sql == body + PrimaryKeyClause(primaryKeys) by {
        AppendAssoc(body, ", PRIMARY KEY(", Join(primaryKeys, ","));
        AppendAssoc(body, ", PRIMARY KEY(" + Join(primaryKeys, ","), ")");
      }
    } else {
      assert sql == body + PrimaryKeyClause(primaryKeys);
    }
    sql := sql + ")";
    CreateSqlParts(t.name, t.fields, skipIfExists);
    err := t.db.exec(sql, []);
  }

  /** INSERT with one "?" per column; names, values and placeholders are
      gathered column by column, so they have the same length and order. */
  method Add(t: SimpleTable, inst: Instance) returns (sql: string, values: seq<Value>, err: Option<Error>)
    requires Readable(inst)
    ensures sql == InsertSql(t.name, inst.fields)
    ensures values == Values(inst.attrs, inst.fields)
    ensures err == t.db.exec(sql, values)
  {
    sql := "INSERT INTO " + Name(t) + " (";
    var fields := inst.fields;
    var names: seq<string> := [];
    values := [];
    var params: seq<string> := [];
    for i := 0 to |fields|
      invariant names == Names(fields[..i])
      invariant values == Values(inst.attrs, fields[..i])
      invariant params == Marks(i)
    {
      assert fields[..i + 1][..i] == fields[..i];
      names := names + [fields[i].name];
      values := values + [inst.attrs[fields[i].name]];
      params := params + ["?"];
    }
    assert fields[..|fields|] == fields;
    sql := sql + Join(names, ",");
    sql := sql + ") VALUES (";
    sql := sql + Join(params, ",");
    sql := sql + ")";
    err := t.db.exec(sql, values);
  }

  /** Delete does nothing and reports no error (tables/table.go:131-134). */
  function Delete(t: SimpleTable, inst: Instance): (r: Option<Error>)
    ensures r == None
  {
    None
  }

  /** The names and values of all columns, or of the primary-key columns
      only, in column order and aligned with each other. */
  method ParseInstance(inst: Instance, justPrimaryKeys: bool) returns (names: seq<string>, values: seq<Value>)
    requires ReadableFor(inst, justPrimaryKeys)
    ensures names == Names(Selected(inst.fields, justPrimaryKeys))
    ensures values == Values(inst.attrs, Selected(inst.fields, justPrimaryKeys))
    ensures |names| == |values| && forall k :: 0 <= k < |names| ==> values[k] == inst.attrs[names[k]]
  {
    var fields := inst.fields;
    names := [];
    values := [];
    var params: seq<string> := [];
    for i := 0 to |fields|
      invariant forall f :: f in Selected(fields[..i], justPrimaryKeys) ==> f.name in inst.attrs
      invariant names == Names(Selected(fields[..i], justPrimaryKeys))
      invariant values == Values(inst.attrs, Selected(fields[..i], justPrimaryKeys))
    {
      InstanceStep(inst, i, justPrimaryKeys);
      if !justPrimaryKeys || fields[i].primaryKey {
        names := names + [fields[i].name];
        values := values + [inst.attrs[fields[i].name]];
        params := params + ["?"];
      }
    }
    assert fields[..|fields|] == fields;
  }

  /** Rewrites each name in place to "name=?". */
  method AppendPlaceholders(names: array<string>)
    modifies names
    ensures names[..] == Assignments(old(names[..]))
  {
    for i := 0 to names.Length
      invariant forall k :: 0 <= k < i ==> names[k] == old(names[k]) + "=?"
      invariant forall k :: i <= k < names.Length ==> names[k] == old(names[k])
    {
      names[i] := names[i] + "=?";
    }
  }

  /** SELECT COUNT(*) on the primary-key columns; the parameters are the
      primary-key values. A database error comes back with a count of 0. */
  method Count(t: SimpleTable, inst: Instance) returns (sql: string, params: seq<Value>, cnt: int, err: Option<Error>)
    requires ReadableFor(inst, true)
    ensures sql == CountSql(t.name, inst.fields)
    ensures params == KeyValues(inst)
    ensures t.db.count(sql, params).Ok? ==> cnt == t.db.count(sql, params).value && err == None
    ensures t.db.count(sql, params).Err? ==> cnt == 0 && err == Some(t.db.count(sql, params).error)
  {
    var names, values := ParseInstance(inst, true);
    sql := "SELECT COUNT(*) FROM " + Name(t) + " WHERE ";
    var terms := Placeholders(names);
    sql := sql + Join(terms, ",");
    params := values;
    var answer := t.db.count(sql, params);
    if answer.Err? {
      return sql, params, 0, Some(answer.error);
    }
    cnt, err := answer.value, None;
  }

  /** The row exists unless the count fails, whose error is returned as it is,
      or is 0, which gives RowIsNotExists. */
  method Exists(t: SimpleTable, inst: Instance) returns (err: Option<Error>)
    requires ReadableFor(inst, true)
    ensures CountAnswer(t, inst).Err? ==> err == Some(CountAnswer(t, inst).error)
    ensures CountAnswer(t, inst).Ok? ==>
              (err == Some(RowIsNotExists) <==> CountAnswer(t, inst).value == 0) &&
              (err == None <==> CountAnswer(t, inst).value != 0)
  {
    var _, _, cnt, e := Count(t, inst);
    if e.Some? {
      return e;
    }
    if cnt == 0 {
      return Some(RowIsNotExists);
    }
    return None;
  }

  /** UPDATE: when Exists reports an error nothing is built and that error is
      returned; otherwise SET covers every column, WHERE the primary keys, and
      the parameters are all column values followed by the key values. */
  method Update(t: SimpleTable, inst: Instance) returns (stmt: Option<Statement>, err: Option<Error>)
    requires ReadableFor(inst, true)
    requires CountAnswer(t, inst).Ok? && CountAnswer(t, inst).value != 0 ==> Readable(inst)
    ensures CountAnswer(t, inst).Err? ==> stmt == None && err == Some(CountAnswer(t, inst).error)
    ensures CountAnswer(t, inst) == Ok(0) ==> stmt == None && err == Some(RowIsNotExists)
    ensures CountAnswer(t, inst).Ok? && CountAnswer(t, inst).value != 0 ==>
              stmt == Some(Statement(UpdateSql(t.name, inst.fields),
                                     Values(inst.attrs, inst.fields) + KeyValues(inst))) &&
              err == t.db.exec(stmt.value.sql, stmt.value.params)
  {
    var e := Exists(t, inst);
    if e.Some? {
      return None, e;
    }
    var s := UpdateStatement(t, inst);
    stmt := Some(s);
    err := t.db.exec(s.sql, s.params);
  }

  /** The statement Update builds once the row is known to exist: the key
      names and then all column names are rewritten to "name=?", and the
      key values are appended to the column values. */
  method UpdateStatement(t: SimpleTable, inst: Instance) returns (stmt: Statement)
    requires Readable(inst)
    ensures ReadableFor(inst, true)
    ensures stmt == Statement(UpdateSql(t.name, inst.fields), Values(inst.attrs, inst.fields) + KeyValues(inst))
  {
    ReadableSelected(inst, true);
    var primaryKeys, primaryValues := ParseInstance(inst, true);
    var keyTerms := Placeholders(primaryKeys);
    SelectedAll(inst.fields);
    var names, values := ParseInstance(inst, false);
    var setTerms := Placeholders(names);
    var sql := "UPDATE " + Name(t) + " SET ";
    sql := sql + Join(setTerms, ",");
    sql := sql + " WHERE " + Join(keyTerms, ",");
    values := values + primaryValues;
    stmt := Statement(sql, values);
  }

  /** The "name=?" terms of the given names, rewritten in place in a fresh
      slice as Count and Update do. */
  method Placeholders(names: seq<string>) returns (terms: seq<string>)
    ensures terms == Assignments(names)
  {
    var a := new string[|names|](k requires 0 <= k < |names| => names[k]);
    assert a[..] == names;
    AppendPlaceholders(a);
    terms := a[..];
  }

  // ---------------------------------------------------------------------
  // Lemmas

  lemma AppendAssoc(a: string, b: string, c: string)
    ensures a + (b + c) == a + b + c
  {
  }

  /** The column text of Create after its first n turns: each column's
      definition, followed by a comma unless it is the last column. */
  function ColumnsUpTo(fs: seq<Orm.Field>, n: nat): string
    requires n <= |fs|
  {
    if n == 0 then "" else ColumnsUpTo(fs, n - 1) + ColumnDef(fs[n - 1]) + (if n < |fs| then "," else "")
  }

  /** The primary-key names Create has gathered after its first n turns. */
  function KeysUpTo(fs: seq<Orm.Field>, n: nat): seq<string>
    requires n <= |fs|
  {
    if n == 0 then [] else KeysUpTo(fs, n - 1) + (if fs[n - 1].primaryKey then [fs[n - 1].name] else [])
  }

  lemma {:induction false} ColumnsUpToJoin(fs: seq<Orm.Field>, n: nat)
    requires n <= |fs|
    ensures ColumnsUpTo(fs, n) == Join(ColumnDefs(fs[..n]), ",") + (if 0 < n < |fs| then "," else "")
    decreases n
  {
    if n > 0 {
      var init, def, tail := fs[..n - 1], ColumnDef(fs[n - 1]), if n < |fs| then "," else "";
      assert ColumnsUpTo(fs, n) == ColumnsUpTo(fs, n - 1) + def + tail;
      ColumnsUpToJoin(fs, n - 1);
      assert init + [fs[n - 1]] == fs[..n];
      ColumnsStep(init, fs[n - 1]);
      if n == 1 {
        assert ColumnsUpTo(fs, n - 1) == "";
        assert Join(ColumnDefs(fs[..n]), ",") == def;
      } else {
        var joined := Join(ColumnDefs(init), ",");
        assert ColumnsUpTo(fs, n - 1) == joined + ",";
        assert Join(ColumnDefs(fs[..n]), ",") == joined + "," + def;
      }
    }
  }

  /** CREATE TABLE in the pieces its loop builds. */
  lemma CreateSqlParts(name: string, fs: seq<Orm.Field>, skipIfExists: bool)
    ensures CreateSql(name, fs, skipIfExists) ==
            CreateHead(name, skipIfExists) + ColumnsUpTo(fs, |fs|) + PrimaryKeyClause(KeysUpTo(fs, |fs|)) + ")"
  {
    assert ColumnsUpTo(fs, |fs|) == Join(ColumnDefs(fs), ",") by {
      ColumnsUpToJoin(fs, |fs|);
      assert fs[..|fs|] == fs;
    }
    assert KeysUpTo(fs, |fs|) == Names(Selected(fs, true)) by {
      KeysUpToSelected(fs, |fs|);
      assert fs[..|fs|] == fs;
    }
  }

  lemma {:induction false} KeysUpToSelected(fs: seq<Orm.Field>, n: nat)
    requires n <= |fs|
    ensures KeysUpTo(fs, n) == Names(Selected(fs[..n], true))
    decreases n
  {
    if n > 0 {
      KeysUpToSelected(fs, n - 1);
      KeysStep(fs[..n - 1], fs[n - 1]);
      assert fs[..n - 1] + [fs[n - 1]] == fs[..n];
    }
  }

  /** How one more column extends the joined column list. */
  lemma ColumnsStep(fs: seq<Orm.Field>, f: Orm.Field)
    ensures Join(ColumnDefs(fs + [f]), ",") ==
            if |fs| == 0 then ColumnDef(f) else Join(ColumnDefs(fs), ",") + "," + ColumnDef(f)
  {
    assert (fs + [f])[..|fs|] == fs;
    var defs := ColumnDefs(fs);
    assert ColumnDefs(fs + [f]) == defs + [ColumnDef(f)];
    JoinSnoc(defs, ColumnDef(f), ",");
  }

  /** How one more column extends the primary-key names. */
  lemma KeysStep(fs: seq<Orm.Field>, f: Orm.Field)
    ensures Names(Selected(fs + [f], true)) == Names(Selected(fs, true)) + (if f.primaryKey then [f.name] else [])
  {
    SelectedSnoc(fs, f, true);
    if f.primaryKey {
      NamesSnoc(Selected(fs, true), f);
    } else {
      assert Selected(fs, true) + [] == Selected(fs, true);
    }
  }

  /** One turn of the loop of ParseInstance: column i is kept or skipped. */
  lemma InstanceStep(inst: Instance, i: nat, justPrimaryKeys: bool)
    requires ReadableFor(inst, justPrimaryKeys) && i < |inst.fields|
    ensures forall f :: f in Selected(inst.fields[..i], justPrimaryKeys) ==> f.name in inst.attrs
    ensures forall f :: f in Selected(inst.fields[..i + 1], justPrimaryKeys) ==> f.name in inst.attrs
    ensures var f, kept := inst.fields[i], !justPrimaryKeys || inst.fields[i].primaryKey;
            Names(Selected(inst.fields[..i + 1], justPrimaryKeys)) ==
              Names(Selected(inst.fields[..i], justPrimaryKeys)) + (if kept then [f.name] else []) &&
            Values(inst.attrs, Selected(inst.fields[..i + 1], justPrimaryKeys)) ==
              Values(inst.attrs, Selected(inst.fields[..i], justPrimaryKeys)) + (if kept then [inst.attrs[f.name]] else [])
  {
    var fs, f := inst.fields[..i], inst.fields[i];
    assert fs + [f] == inst.fields[..i + 1];
    PrefixReadable(inst, i + 1, justPrimaryKeys);
    SelectedSnoc(fs, f, justPrimaryKeys);
    var before := Selected(fs, justPrimaryKeys);
    if !justPrimaryKeys || f.primaryKey {
      assert Selected(fs + [f], justPrimaryKeys) == before + [f];
      assert (before + [f])[..|before|] == before;
    } else {
      assert Selected(fs + [f], justPrimaryKeys) == before;
    }
  }

  /** Every column a prefix selects is one the whole list selects. */
  lemma PrefixReadable(inst: Instance, n: nat, justPrimaryKeys: bool)
    requires ReadableFor(inst, justPrimaryKeys) && n <= |inst.fields|
    ensures forall f :: f in Selected(inst.fields[..n], justPrimaryKeys) ==> f.name in inst.attrs
  {
    assert inst.fields[..n] + inst.fields[n..] == inst.fields;
    SelectedAppend(inst.fields[..n], inst.fields[n..], justPrimaryKeys);
  }

  /** Reading every column covers the columns of either selection. */
  lemma ReadableSelected(inst: Instance, justPrimaryKeys: bool)
    requires Readable(inst)
    ensures ReadableFor(inst, justPrimaryKeys)
  {
    SelectedSubset(inst.fields, justPrimaryKeys);
  }

  lemma SelectedSnoc(fs: seq<Orm.Field>, f: Orm.Field, justPrimaryKeys: bool)
    ensures Selected(fs + [f], justPrimaryKeys) ==
            Selected(fs, justPrimaryKeys) + (if !justPrimaryKeys || f.primaryKey then [f] else [])
  {
    assert (fs + [f])[..|fs|] == fs;
  }

  lemma NamesSnoc(fs: seq<Orm.Field>, f: Orm.Field)
    ensures Names(fs + [f]) == Names(fs) + [f.name]
  {
  }

  lemma {:induction false} SelectedSubset(fs: seq<Orm.Field>, justPrimaryKeys: bool)
    ensures forall f :: f in Selected(fs, justPrimaryKeys) ==> f in fs
    decreases |fs|
  {
    if |fs| > 0 {
      SelectedSubset(fs[..|fs| - 1], justPrimaryKeys);
    }
  }

  /** ParseInstance(i, false) keeps every column. */
  lemma {:induction false} SelectedAll(fs: seq<Orm.Field>)
    ensures Selected(fs, false) == fs
    decreases |fs|
  {
    if |fs| > 0 {
      SelectedAll(fs[..|fs| - 1]);
    }
  }

  /** ParseInstance(i, true) keeps exactly the primary-key columns. */
  lemma {:induction false} SelectedKeys(fs: seq<Orm.Field>)
    ensures forall f :: f in Selected(fs, true) <==> f in fs && f.primaryKey
    decreases |fs|
  {
    if |fs| > 0 {
      SelectedKeys(fs[..|fs| - 1]);
    }
  }

  /** Selection keeps the column order: it distributes over concatenation. */
  lemma {:induction false} SelectedAppend(a: seq<Orm.Field>, b: seq<Orm.Field>, justPrimaryKeys: bool)
    ensures Selected(a + b, justPrimaryKeys) == Selected(a, justPrimaryKeys) + Selected(b, justPrimaryKeys)
    decreases |b|
  {
    if |b| == 0 {
      assert a + b == a;
    } else {
      assert (a + b)[..|a + b| - 1] == a + b[..|b| - 1];
      SelectedAppend(a, b[..|b| - 1], justPrimaryKeys);
    }
  }

  /** Create gathers primary-key names, and so emits a PRIMARY KEY clause,
      exactly when some column is a primary key. */
  lemma PrimaryKeyClauseIff(fs: seq<Orm.Field>)
    ensures Names(Selected(fs, true)) != [] <==> exists k :: 0 <= k < |fs| && fs[k].primaryKey
  {
    SelectedKeys(fs);
    var sel := Selected(fs, true);
    if exists k :: 0 <= k < |fs| && fs[k].primaryKey {
      var k :| 0 <= k < |fs| && fs[k].primaryKey;
      assert fs[k] in sel;
    }
    if |sel| > 0 {
      assert sel[0] in fs && sel[0].primaryKey;
      var k :| 0 <= k < |fs| && fs[k] == sel[0];
      assert fs[k].primaryKey;
    }
  }

  lemma {:induction false} NamesFree(fs: seq<Orm.Field>)
    requires forall k :: 0 <= k < |fs| ==> '?' !in fs[k].name
    ensures TotalOccurrences('?', Names(fs)) == 0
  {
    TotalOccurrencesFree('?', Names(fs));
  }

  lemma {:induction false} MarksCount(n: nat)
    ensures TotalOccurrences('?', Marks(n)) == n
    decreases n
  {
    if n > 0 {
      assert Marks(n)[..n - 1] == Marks(n - 1);
      MarksCount(n - 1);
    }
  }

  lemma {:induction false} AssignmentsCount(names: seq<string>)
    requires Free('?', names)
    ensures TotalOccurrences('?', Assignments(names)) == |names|
    decreases |names|
  {
    if |names| > 0 {
      var init := names[..|names| - 1];
      assert Assignments(names)[..|names| - 1] == Assignments(init);
      AssignmentsCount(init);
      var last := names[|names| - 1];
      OccurrencesAbsent('?', last);
      OccurrencesAppend('?', last, "=?");
      assert "=?"[..1] == "=";
    }
  }

  /** A table name and column names free of "?". */
  predicate NoMarkers(name: string, fs: seq<Orm.Field>)
  {
    '?' !in name && forall k :: 0 <= k < |fs| ==> '?' !in fs[k].name
  }

  lemma SelectedNamesFree(fs: seq<Orm.Field>)
    requires forall k :: 0 <= k < |fs| ==> '?' !in fs[k].name
    ensures Free('?', Names(Selected(fs, true)))
  {
    SelectedSubset(fs, true);
    var sel := Selected(fs, true);
    forall k | 0 <= k < |sel| ensures '?' !in Names(sel)[k] {
      assert sel[k] in fs;
    }
  }

  /** The INSERT text has exactly one placeholder per parameter. */
  lemma InsertPlaceholdersMatch(name: string, inst: Instance)
    requires Readable(inst) && NoMarkers(name, inst.fields)
    ensures Occurrences('?', InsertSql(name, inst.fields)) == |Values(inst.attrs, inst.fields)|
  {
    var fs := inst.fields;
    NamesFree(fs);
    OccurrencesJoin('?', Names(fs), ",");
    MarksCount(|fs|);
    OccurrencesJoin('?', Marks(|fs|), ",");
    OccurrencesAbsent('?', name);
    var a := "INSERT INTO " + name + " (";
    OccurrencesAppend('?', "INSERT INTO ", name);
    OccurrencesAppend('?', "INSERT INTO " + name, " (");
    OccurrencesAppend('?', a, Join(Names(fs), ","));
    OccurrencesAppend('?', a + Join(Names(fs), ","), ") VALUES (");
    OccurrencesAppend('?', a + Join(Names(fs), ",") + ") VALUES (", Join(Marks(|fs|), ","));
    OccurrencesAppend('?', a + Join(Names(fs), ",") + ") VALUES (" + Join(Marks(|fs|), ","), ")");
    OccurrencesAbsent('?', "INSERT INTO ");
    OccurrencesAbsent('?', " (");
    OccurrencesAbsent('?', ") VALUES (");
    OccurrencesAbsent('?', ")");
  }

  /** The COUNT text has exactly one placeholder per parameter. */
  lemma CountPlaceholdersMatch(name: string, inst: Instance)
    requires ReadableFor(inst, true) && NoMarkers(name, inst.fields)
    ensures Occurrences('?', CountSql(name, inst.fields)) == |KeyValues(inst)|
  {
    var keys := Names(Selected(inst.fields, true));
    SelectedNamesFree(inst.fields);
    AssignmentsCount(keys);
    OccurrencesJoin('?', Assignments(keys), ",");
    OccurrencesAbsent('?', name);
    OccurrencesAbsent('?', "SELECT COUNT(*) FROM ");
    OccurrencesAbsent('?', " WHERE ");
    OccurrencesAppend('?', "SELECT COUNT(*) FROM ", name);
    OccurrencesAppend('?', "SELECT COUNT(*) FROM " + name, " WHERE ");
    OccurrencesAppend('?', "SELECT COUNT(*) FROM " + name + " WHERE ", Join(Assignments(keys), ","));
  }

  /** The UPDATE text has exactly one placeholder per parameter: one per
      column in SET, then one per primary key in WHERE. */
  lemma UpdatePlaceholdersMatch(name: string, inst: Instance)
    requires Readable(inst) && NoMarkers(name, inst.fields)
    ensures ReadableFor(inst, true)
    ensures Occurrences('?', UpdateSql(name, inst.fields)) == |Values(inst.attrs, inst.fields) + KeyValues(inst)|
  {
    ReadableSelected(inst, true);
    var fs := inst.fields;
    var keys := Names(Selected(fs, true));
    SelectedNamesFree(fs);
    AssignmentsCount(keys);
    OccurrencesJoin('?', Assignments(keys), ",");
    assert Free('?', Names(fs));
    AssignmentsCount(Names(fs));
    OccurrencesJoin('?', Assignments(Names(fs)), ",");
    OccurrencesAbsent('?', name);
    OccurrencesAbsent('?', "UPDATE ");
    OccurrencesAbsent('?', " SET ");
    OccurrencesAbsent('?', " WHERE ");
    var setText := Join(Assignments(Names(fs)), ",");
    var whereText := Join(Assignments(keys), ",");
    OccurrencesAppend('?', "UPDATE ", name);
    OccurrencesAppend('?', "UPDATE " + name, " SET ");
    OccurrencesAppend('?', "UPDATE " + name + " SET ", setText);
    OccurrencesAppend('?', "UPDATE " + name + " SET " + setText, " WHERE ");
    OccurrencesAppend('?', "UPDATE " + name + " SET " + setText + " WHERE ", whereText);
  }

  /** Count, Exists and the guard of Update read only the key columns: an
      instance whose non-key column has no attribute of that name is still
      accepted by them, though not by Add. */
  lemma KeyColumnsSuffice()
    ensures var inst := Instance([Orm.Field("ID", "INT", true), Orm.Field("user_name", "CHAR", false)],
                                 map["ID" := IntValue(1)]);
            ReadableFor(inst, true) && !Readable(inst)
  {
    var id, userName := Orm.Field("ID", "INT", true), Orm.Field("user_name", "CHAR", false);
    var inst := Instance([id, userName], map["ID" := IntValue(1)]);
    SelectedSnoc([id], userName, true);
    SelectedSnoc([], id, true);
    assert [id] == [] + [id] && [id, userName] == [id] + [userName];
    assert Selected(inst.fields, true) == [id];
    assert userName in inst.fields && userName.name !in inst.attrs;
  }

  /** The table orm_test.go builds: one int column "ID" made a primary key. */
  lemma CreateForTestUser()
    ensures var id := IntField.IntField("ID", Options.ApplyAll(Options.DefaultOptions, [Options.WithPrimaryKey(true)]));
            CreateSql("User", [IntField.AsOrmField(id)], false) == "CREATE TABLE User(ID INT, PRIMARY KEY(ID))"
  {
    var id := IntField.IntField("ID", Options.ApplyAll(Options.DefaultOptions, [Options.WithPrimaryKey(true)]));
    assert [Options.WithPrimaryKey(true)][..0] == [];
    assert id.options.primaryKey;
    var fs := [IntField.AsOrmField(id)];
    assert fs[..0] == [];
    assert Selected(fs, true) == fs;
    assert Names(fs) == ["ID"];
    assert fs[0].name == "ID" && fs[0].typeName == "INT";
    assert ColumnDef(fs[0]) == "ID INT";
    assert ColumnDefs(fs) == ColumnDefs([]) + [ColumnDef(fs[0])];
    assert Join(["ID"], ",") == "ID";
    assert Join(["ID INT"], ",") == "ID INT";
  }
}
