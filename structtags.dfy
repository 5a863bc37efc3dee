/** Schema extraction from struct tags (tables/struct_tags.go). Reflection is
    modelled abstractly: a struct type is the sequence of its attributes in
    declaration order, each with its Go name, its kind and its tags. */
module StructTags {
  import opened Errors
  import opened Options
  import IntField

  datatype StructField = StructField(goName: string, kind: Kind, tags: map<string, string>)

  /** What reflection tells about the value handed to NewStructTagsTable. */
  datatype StructInput = StructInput(isPointer: bool, pointeeIsStruct: bool, typeName: string, fields: seq<StructField>)

  /** A column the extractor builds: an int column of fields/int.go, or a char
      column. NewCharField belongs to the fields package but is not defined in
      fields/field.go, int.go, options.go or types.go; a char column is taken
      to be its name and the options its setters produce from the defaults. */
  datatype Column =
    | IntColumn(field: IntField.IntField)
    | CharColumn(name: string, options: FieldOptions)

  /** The table NewStructTagsTable returns: its columns and the struct's name. */
  datatype TagsTable = TagsTable(fields: seq<Column>, name: string)

  /** reflect.StructTag.Get: the tag's value, or "" when it is absent. */
  function Tag(f: StructField, key: string): string
  {
    if key in f.tags then f.tags[key] else ""
  }

  /** A char column with the given name and the defaults with the setters
      run on them in order. */
  function NewCharField(name: string, opts: seq<FieldOption>): (r: Column)
    ensures r.CharColumn? && ColumnName(r) == name && ColumnOptions(r) == ApplyAll(DefaultOptions, opts)
  {
    CharColumn(name, ApplyAll(DefaultOptions, opts))
  }

  /** The orm.Field Name() of a column. */
  function ColumnName(c: Column): string
  {
    match c
    case IntColumn(f) => f.name
    case CharColumn(n, _) => n
  }

  /** The options a column carries. */
  function ColumnOptions(c: Column): FieldOptions
  {
    match c
    case IntColumn(f) => f.options
    case CharColumn(_, o) => o
  }

  // ---------------------------------------------------------------------
  // strconv.Atoi on a 64-bit platform

  const MinInt: int := -0x8000_0000_0000_0000
  const MaxInt: int := 0x7FFF_FFFF_FFFF_FFFF

  predicate IsDigits(s: string)
  {
    |s| > 0 && forall k :: 0 <= k < |s| ==> '0' <= s[k] <= '9'
  }

  function DigitsValue(s: string): nat
    requires forall k :: 0 <= k < |s| ==> '0' <= s[k] <= '9'
    decreases |s|
  {
    if |s| == 0 then 0
    else
      assert '0' <= s[|s| - 1] <= '9';
      10 * DigitsValue(s[..|s| - 1]) + (s[|s| - 1] as int - '0' as int)
  }

  /** An optional sign followed by one or more decimal digits, whose value
      fits in a 64-bit int; anything else is an error (None). */
  function Atoi(s: string): (r: Option<int>)
    ensures r.Some? ==> MinInt <= r.value <= MaxInt
    ensures r.Some? ==> |s| > 0 && (IsDigits(s) || ((s[0] == '-' || s[0] == '+') && IsDigits(s[1..])))
    ensures r.Some? && IsDigits(s) ==> r.value == DigitsValue(s)
    ensures r.Some? && s[0] == '+' ==> r.value == DigitsValue(s[1..])
    ensures r.Some? && s[0] == '-' ==> r.value == -(DigitsValue(s[1..]) as int)
  {
    if |s| == 0 then None
    else
      var neg := s[0] == '-';
      var digits := if s[0] == '-' || s[0] == '+' then s[1..] else s;
      if !IsDigits(digits) then None
      else
        var v: int := if neg then 0 - DigitsValue(digits) as int else DigitsValue(digits);
        if MinInt <= v <= MaxInt then Some(v) else None
  }

  /** Every unsigned, "+"-signed or "-"-signed digit string is accepted with
      its decimal value exactly when that value fits in 64 bits. */
  lemma AtoiDigits(d: string)
    requires IsDigits(d)
    ensures DigitsValue(d) <= MaxInt ==> Atoi(d) == Some(DigitsValue(d)) && Atoi("+" + d) == Some(DigitsValue(d))
    ensures DigitsValue(d) > MaxInt ==> Atoi(d).None? && Atoi("+" + d).None?
    ensures -(DigitsValue(d) as int) >= MinInt ==> Atoi("-" + d) == Some(-(DigitsValue(d) as int))
    ensures -(DigitsValue(d) as int) < MinInt ==> Atoi("-" + d).None?
  {
    assert d[0] != '-' && d[0] != '+';
    assert ("+" + d)[0] == '+' && ("+" + d)[1..] == d;
    assert ("-" + d)[0] == '-' && ("-" + d)[1..] == d;
  }

  /** Negative lengths pass the parse unchanged. */
  lemma AtoiAcceptsNegatives()
    ensures Atoi("-5") == Some(-5) && Atoi("+20") == Some(20) && Atoi("20") == Some(20)
    ensures Atoi("") == None && Atoi("-") == None && Atoi("2x") == None
  {
    assert DigitsValue("5") == 5;
    assert "20"[..1] == "2";
    assert DigitsValue("20") == 20;
    assert "+20"[1..] == "20";
    assert "-5"[1..] == "5";
    assert "2x"[1] == 'x';
  }

  // ---------------------------------------------------------------------
  // parseWithParameters

  /** One entry of the tag table: a tag name and the kind its value parses to. */
  datatype TagSpec = TagSpec(tag: string, kind: Kind)

  /** The tag table as written: `primaryKey` is listed twice, `null` not at all. */
  const TagTable: seq<TagSpec> :=
    [TagSpec("primaryKey", BoolKind), TagSpec("primaryKey", BoolKind), TagSpec("length", IntKind)]

  /** The options one tag-table entry contributes for an attribute. */
  function EntryOptions(spec: TagSpec, f: StructField): Result<seq<FieldOption>>
  {
    var value := Tag(f, spec.tag);
    if value == "" then Ok([])
    else if spec.kind == BoolKind && value == "true" && spec.tag == "primaryKey" then
      Ok([WithPrimaryKey(true)])
    else if spec.kind == IntKind && spec.tag == "length" then
      match Atoi(value)
      case None => Err(LengthTagError(f.goName, value))
      case Some(n) => Ok([WithLength(n)])
    else if spec.kind == BoolKind && spec.tag == "null" then
      // both spellings add WithNull(true); the branch is dead for TagTable
      if value == "true" || value == "false" then Ok([WithNull(true)]) else Ok([])
    else Ok([])
  }

  /** The options a tag table yields, scanning its entries in order and stopping
      at the first error. */
  function TableOptions(specs: seq<TagSpec>, f: StructField): Result<seq<FieldOption>>
    decreases |specs|
  {
    if |specs| == 0 then Ok([])
    else
      match TableOptions(specs[..|specs| - 1], f)
      case Err(e) => Err(e)
      case Ok(os) =>
        match EntryOptions(specs[|specs| - 1], f)
        case Err(e) => Err(e)
        case Ok(more) => Ok(os + more)
  }

  /** The setter list parsed from an attribute's tags. */
  method ParseWithParameters(f: StructField) returns (r: Result<seq<FieldOption>>)
    ensures r == TableOptions(TagTable, f)
  {
    var options: seq<FieldOption> := [];
    for i := 0 to |TagTable|
      invariant TableOptions(TagTable[..i], f) == Ok(options)
    {
      assert TagTable[..i + 1][..i] == TagTable[..i];
      assert TagTable[..i + 1][i] == TagTable[i];
      var spec := TagTable[i];
      ghost var before := options;
      assert TableOptions(TagTable[..i + 1], f) ==
        match EntryOptions(spec, f)
        case Err(e) => Err(e)
        case Ok(more) => Ok(options + more);
      var value := Tag(f, spec.tag);
      if value != "" {
        if spec.kind == BoolKind && value == "true" && spec.tag == "primaryKey" {
          options := options + [WithPrimaryKey(true)];
        } else if spec.kind == IntKind && spec.tag == "length" {
          var length := Atoi(value);
          if length.None? {
            TableOptionsErrorPersists(TagTable, i + 1, f);
            return Err(LengthTagError(f.goName, value));
          }
          options := options + [WithLength(length.value)];
        } else if spec.kind == BoolKind && spec.tag == "null" {
          if value == "true" {
            options := options + [WithNull(true)];
          } else if value == "false" {
            options := options + [WithNull(true)];
          }
        }
      }
      assert options == before ==> options[|before|..] == [];
      assert EntryOptions(spec, f) == Ok(options[|before|..]);
      assert options == before + options[|before|..];
    }
    assert TagTable[..|TagTable|] == TagTable;
    r := Ok(options);
  }

  /** An error met while scanning a prefix of the tag table is the result. */
  lemma {:induction false} TableOptionsErrorPersists(specs: seq<TagSpec>, n: nat, f: StructField)
    requires n <= |specs| && TableOptions(specs[..n], f).Err?
    ensures TableOptions(specs, f) == TableOptions(specs[..n], f)
    decreases |specs|
  {
    if n < |specs| {
      assert specs[..|specs| - 1][..n] == specs[..n];
      TableOptionsErrorPersists(specs[..|specs| - 1], n, f);
    } else {
      assert specs[..n] == specs;
    }
  }

  /** The setters contributed by the primaryKey entries of the tag table. */
  function KeySetters(f: StructField): seq<FieldOption>
  {
    if Tag(f, "primaryKey") == "true" then [WithPrimaryKey(true), WithPrimaryKey(true)] else []
  }

  /** What parseWithParameters yields, in closed form: an error exactly when a
      non-empty length tag is not an integer; otherwise one WithPrimaryKey(true)
      per primaryKey entry when the tag is "true", then WithLength(n) when a
      length tag is present. No setter for Null is ever produced. */
  lemma TableOptionsClosedForm(f: StructField)
    ensures var len := Tag(f, "length");
            TableOptions(TagTable, f) ==
              if len != "" && Atoi(len).None? then Err(LengthTagError(f.goName, len))
              else Ok(KeySetters(f) + (if len == "" then [] else [WithLength(Atoi(len).value)]))
  {
    assert TagTable[..2][..1] == TagTable[..1];
    assert TagTable[..3][..2] == TagTable[..2];
    assert TagTable[..1][..0] == [];
    assert TagTable[..3] == TagTable;
    var pk := if Tag(f, "primaryKey") == "true" then [WithPrimaryKey(true)] else [];
    assert TableOptions(TagTable[..1], f) == Ok([] + pk);
    assert TableOptions(TagTable[..2], f) == Ok([] + pk + pk);
    assert [] + pk + pk == KeySetters(f);
  }

  /** The meaning of the parsed setters, run on the defaults: the column is a
      primary key exactly when the tag says "true", its length is the length
      tag's integer (100 when absent), and it stays nullable. */
  lemma ParsedOptionsMeaning(f: StructField)
    requires TableOptions(TagTable, f).Ok?
    ensures var len := Tag(f, "length");
            ApplyAll(DefaultOptions, TableOptions(TagTable, f).value) ==
              FieldOptions(Tag(f, "primaryKey") == "true",
                           if len == "" then 100 else Atoi(len).value,
                           true)
  {
    TableOptionsClosedForm(f);
    var len := Tag(f, "length");
    var os := TableOptions(TagTable, f).value;
    var ks := KeySetters(f);
    ApplyAllAppend(DefaultOptions, ks, os[|ks|..]);
    assert ks + os[|ks|..] == os;
    if |ks| == 2 {
      assert ks[..1] == [WithPrimaryKey(true)];
      assert ks[..1][..0] == [];
    }
    if len != "" {
      assert os[|ks|..] == [WithLength(Atoi(len).value)];
      assert os[|ks|..][..0] == [];
    } else {
      assert os[|ks|..] == [];
    }
  }

  /** A field with no tags at all yields no setters and no error. */
  lemma NoTagsNoOptions(f: StructField)
    requires Tag(f, "primaryKey") == "" && Tag(f, "length") == ""
    ensures TableOptions(TagTable, f) == Ok([])
  {
    assert KeySetters(f) + [] == [];
    TableOptionsClosedForm(f);
  }

  // ---------------------------------------------------------------------
  // parseStructTags

  /** The column one attribute contributes: none when its name tag is empty,
      otherwise an int or char column, or the first error. */
  function ColumnOf(f: StructField): Result<Option<Column>>
  {
    var name := Tag(f, "name");
    if name == "" then Ok(None)
    else
      match TableOptions(TagTable, f)
      case Err(e) => Err(e)
      case Ok(opts) =>
        if f.kind == IntKind then Ok(Some(IntColumn(IntField.IntField(name, ApplyAll(DefaultOptions, opts)))))
        else if f.kind == StringKind then Ok(Some(NewCharField(name, opts)))
        else Err(UnsupportedType(f.kind, f.goName))
  }

  /** The columns of a struct, scanning attributes in declaration order and
      stopping at the first error, with no partial result. */
  function StructColumns(fs: seq<StructField>): Result<seq<Column>>
    decreases |fs|
  {
    if |fs| == 0 then Ok([])
    else
      match StructColumns(fs[..|fs| - 1])
      case Err(e) => Err(e)
      case Ok(cs) =>
        match ColumnOf(fs[|fs| - 1])
        case Err(e) => Err(e)
        case Ok(None) => Ok(cs)
        case Ok(Some(c)) => Ok(cs + [c])
  }

  method ParseStructTags(fs: seq<StructField>) returns (r: Result<seq<Column>>)
    ensures r == StructColumns(fs)
  {
    var results: seq<Column> := [];
    for i := 0 to |fs|
      invariant StructColumns(fs[..i]) == Ok(results)
    {
      assert fs[..i + 1][..i] == fs[..i];
      var field := fs[i];
      var kind := field.kind;
      var name := Tag(field, "name");
      if name != "" {
        var options := ParseWithParameters(field);
        if options.Err? {
          StructColumnsErrorPersists(fs, i + 1);
          return Err(options.error);
        }
        if kind == IntKind {
          var f := IntField.NewIntField(name, options.value);
          results := results + [IntColumn(f)];
        } else if kind == StringKind {
          var f := NewCharField(name, options.value);
          results := results + [f];
        } else {
          StructColumnsErrorPersists(fs, i + 1);
          return Err(UnsupportedType(kind, field.goName));
        }
      }
    }
    assert fs[..|fs|] == fs;
    r := Ok(results);
  }

  /** An error met on a prefix of the attributes is the result. */
  lemma {:induction false} StructColumnsErrorPersists(fs: seq<StructField>, n: nat)
    requires n <= |fs| && StructColumns(fs[..n]).Err?
    ensures StructColumns(fs) == StructColumns(fs[..n])
    decreases |fs|
  {
    if n < |fs| {
      assert fs[..|fs| - 1][..n] == fs[..n];
      StructColumnsErrorPersists(fs[..|fs| - 1], n);
    } else {
      assert fs[..n] == fs;
    }
  }

  /** The attributes that carry a non-empty name tag, in declaration order. */
  function NamedFields(fs: seq<StructField>): seq<StructField>
    decreases |fs|
  {
    if |fs| == 0 then []
    else NamedFields(fs[..|fs| - 1]) + (if Tag(fs[|fs| - 1], "name") != "" then [fs[|fs| - 1]] else [])
  }

  /** A named attribute the extractor accepts: int or string kind, and tags
      whose options parse. */
  predicate Supported(f: StructField)
  {
    (f.kind == IntKind || f.kind == StringKind) && TableOptions(TagTable, f).Ok?
  }

  /** The column a supported named attribute becomes. */
  function ColumnFor(f: StructField): Column
    requires Supported(f)
  {
    var opts := ApplyAll(DefaultOptions, TableOptions(TagTable, f).value);
    if f.kind == IntKind then IntColumn(IntField.IntField(Tag(f, "name"), opts))
    else CharColumn(Tag(f, "name"), opts)
  }

  /** The extraction succeeds exactly when every named attribute is supported
      (unnamed ones of any kind are skipped), and then yields one column per
      named attribute, in declaration order: an int column for kind int, a
      char column for kind string, named by the name tag. */
  lemma {:induction false} StructColumnsCharacterized(fs: seq<StructField>)
    ensures StructColumns(fs).Ok? <==> forall f :: f in NamedFields(fs) ==> Supported(f)
    ensures StructColumns(fs).Ok? ==>
              var named := NamedFields(fs);
              var cs := StructColumns(fs).value;
              |cs| == |named| && forall k :: 0 <= k < |cs| ==> cs[k] == ColumnFor(named[k])
    decreases |fs|
  {
    if |fs| > 0 {
      var init := fs[..|fs| - 1];
      var last := fs[|fs| - 1];
      StructColumnsCharacterized(init);
      if Tag(last, "name") != "" {
        assert NamedFields(fs) == NamedFields(init) + [last];
        assert forall f :: f in NamedFields(fs) <==> f in NamedFields(init) || f == last;
        assert ColumnOf(last).Ok? <==> Supported(last);
        if StructColumns(fs).Ok? {
          assert ColumnOf(last) == Ok(Some(ColumnFor(last)));
        }
      } else {
        assert NamedFields(fs) == NamedFields(init);
      }
    }
  }

  /** NamedFields is empty exactly when no attribute has a name tag. */
  lemma {:induction false} NamedFieldsEmpty(fs: seq<StructField>)
    ensures NamedFields(fs) == [] <==> forall k :: 0 <= k < |fs| ==> Tag(fs[k], "name") == ""
    decreases |fs|
  {
    if |fs| > 0 {
      NamedFieldsEmpty(fs[..|fs| - 1]);
      assert forall k :: 0 <= k < |fs| - 1 ==> fs[..|fs| - 1][k] == fs[k];
    }
  }

  // ---------------------------------------------------------------------
  // NewStructTagsTable

  /** Builds a table from a pointer to a tagged struct: an error when the value
      is not a pointer or points to a non-struct (both with the pointer
      message), when extraction fails, or when no attribute is named. */
  method NewStructTagsTable(input: StructInput) returns (r: Result<TagsTable>)
    ensures !input.isPointer ==> r == Err(TableShouldBePointer)
    ensures input.isPointer && !input.pointeeIsStruct ==> r == Err(TableShouldBePointer)
    ensures input.isPointer && input.pointeeIsStruct && StructColumns(input.fields).Err? ==>
              r == Err(StructColumns(input.fields).error)
    ensures r.Ok? <==> input.isPointer && input.pointeeIsStruct &&
                       NamedFields(input.fields) != [] &&
                       forall f :: f in NamedFields(input.fields) ==> Supported(f)
    ensures r.Ok? ==> r.value == TagsTable(StructColumns(input.fields).value, input.typeName)
    ensures r.Err? && StructColumns(input.fields).Ok? && input.isPointer && input.pointeeIsStruct ==>
              r == Err(NoFieldsInInstance)
  {
    if !input.isPointer {
      return Err(TableShouldBePointer);
    }
    if !input.pointeeIsStruct {
      return Err(TableShouldBePointer);
    }
    var fields := ParseStructTags(input.fields);
    StructColumnsCharacterized(input.fields);
    if fields.Err? {
      return Err(fields.error);
    }
    if |fields.value| == 0 {
      return Err(NoFieldsInInstance);
    }
    r := Ok(TagsTable(fields.value, input.typeName));
  }
}
