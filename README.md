# go-orm core in Dafny

A model of the core of zgljl2012/go-orm, a small Go ORM, with proofs about
that model. It has three parts:

- **Field options and descriptors** (`fields/`). A default `FieldOptions`
  record (not a primary key, length 100, nullable) is copied. The setters
  `WithPrimaryKey`, `WithLength` and `WithNull` are then run on the copy, left
  to right. The two `NewIntField` constructors use this to build an int
  column. The logical type enum `Type` maps to its SQL keyword.
- **Struct-tag schema extraction** (`tables/struct_tags.go`). The attributes
  of a tagged struct become columns, in declaration order. Only attributes
  with a `name` tag take part. The `primaryKey` and `length` tags become
  setters. Kind `int` gives an INT column and kind `string` a CHAR column.
  Any other kind is an error, and so is a struct with no named attributes.
- **SQL statement builders** (`tables/table.go`). These build the exact SQL
  text and the ordered parameter list of `CREATE TABLE`, `INSERT`,
  `SELECT COUNT(*) … WHERE` and `UPDATE … SET … WHERE`. This part also has
  the table validation, the `Exists` guard and the `ParseInstance`
  projection.

The Dafny modules follow the Go files:

- `Options` is fields/options.go.
- `Field` is fields/field.go.
- `IntField` is fields/int.go.
- `Types` is fields/types.go.
- `StructTags` is tables/struct_tags.go.
- `Table` is tables/table.go.
- `Orm` is the column view of orm.go.
- `Errors` holds the result wrappers and the error messages.
- `Strings` holds `strings.Join` and counting occurrences of a character.

How Go constructs are represented:

- A Go setter closure is one constructor of the datatype `FieldOption`.
  Calling the closure on `&options` is `Apply`, a record update.
- The loops of the source are Dafny methods. Each method's `ensures` ties its
  result to a specification function, and the lemmas prove properties of
  those functions.
- Reflection is replaced by plain descriptors:
  - a table value is `TableInput`, and a tagged struct is `StructInput`;
  - a struct attribute is `StructField`, with its Go name, its kind and its
    tag map;
  - an instance is its `Fields()` list plus a map from Go attribute name to
    value.
- The database is a parameter, `Db`. Each statement is handed to it, and its
  answer is returned: an error for a statement, a number or an error for a
  `COUNT` query.

## Model

| member | source | states |
|---|---|---|
| Options.Apply | fields/options.go:22-40 | each setter writes exactly the attribute it names, to its argument and with no validation of the length; the other two attributes keep their values |
| Options.DefaultsAre | fields/options.go:12-16 | the defaults are: not a primary key, length 100, nullable |
| Options.ApplyIdempotent | fields/options.go:22-40 | running a setter twice gives the same record as running it once |
| Options.ApplyCommutes | fields/options.go:22-40 | setters on different attributes commute |
| Options.ApplyOverrides | fields/options.go:22-40 | a later setter on the same attribute overrides an earlier one |
| Options.ApplyAllUntouched | fields/options.go:22-40 | a list of setters none of which writes an attribute leaves that attribute unchanged |
| Options.ApplyAllLastWins | fields/field.go:16-18 | after the setters run in order, an attribute holds the value of the last setter that writes it |
| Options.ApplyAllAppend | fields/field.go:16-18 | running a concatenated setter list is the same as running its two parts one after the other |
| Field.NewIntField | fields/field.go:13-25 | the result has the given name, type string "INT", and the defaults with every setter applied in argument order |
| Field.Type | fields/field.go:27-30 | Type() returns the stored type string, which NewIntField sets to "INT" |
| Field.Name | fields/field.go:32-34 | Name() returns the stored name, which NewIntField sets to its argument |
| Field.PrimaryKey | orm.go:7 | PrimaryKey(), which field.go does not define, reads the stored primary-key option |
| Field.AsOrmField | fields/field.go:28-34 | the column's Name, Type and PrimaryKey are its stored name, stored type and stored primary-key option |
| Field.NoOptionsGivesDefaults | fields/field.go:14 | with no setters the options are exactly the defaults |
| Field.PrimaryKeyOfBuilt | fields/field.go:16-18 | a built field is a primary key if and only if some WithPrimaryKey(true) is followed by no other WithPrimaryKey setter |
| IntField.NewIntField | fields/int.go:12-23 | the result has the given name and the defaults with every setter applied in argument order |
| IntField.Type | fields/int.go:26-28 | the type is the constant "INT" for every int field |
| IntField.Name | fields/int.go:30-32 | Name() returns the stored name, which NewIntField sets to its argument |
| IntField.PrimaryKey | orm.go:7 | PrimaryKey(), which int.go does not define, reads the stored primary-key option |
| IntField.AsOrmField | fields/int.go:26-32 | the column's Name is the given name, its Type is "INT", and its PrimaryKey is the stored primary-key option |
| IntField.LaterSettersOverride | fields/int.go:15-17 | on any attribute that the later setters write, the earlier setters leave no trace |
| Types.String | fields/types.go:17-29 | each of the four constants maps to its keyword; every other value maps to "" and no constant does |
| Types.StringInjective | fields/types.go:17-29 | a non-empty keyword comes from exactly one constant |
| Types.ConstantsAreIota | fields/types.go:6-15 | the constants are INT=0, CHAR=1, BOOL=2, DATETIME=3 |
| StructTags.Atoi | tables/struct_tags.go:39-43 | a length tag parses only when it is an optional sign followed by digits whose value fits in 64 bits, and then to the signed decimal value of the digits |
| StructTags.AtoiDigits | tables/struct_tags.go:39-44 | every digit string, unsigned, with "+" or with "-", is accepted with its signed decimal value exactly when that value fits in 64 bits; negative lengths are accepted |
| StructTags.AtoiAcceptsNegatives | tables/struct_tags.go:39-44 | examples: "-5", "+20" and "20" parse to -5, 20 and 20; "", "-" and "2x" are rejected |
| StructTags.ParseWithParameters | tables/struct_tags.go:14-55 | the loop over the tag table returns the setters of every entry in table order, or the first error |
| StructTags.TableOptionsErrorPersists | tables/struct_tags.go:39-43 | once an entry fails, the whole tag parse fails with that error |
| StructTags.TableOptionsClosedForm | tables/struct_tags.go:15-54 | the parse errors exactly when a non-empty length tag is not an integer; otherwise it gives two WithPrimaryKey(true) for primaryKey:"true", then WithLength(n) for a length tag, and never a Null setter |
| StructTags.ParsedOptionsMeaning | tables/struct_tags.go:15-54 | run on the defaults, the parsed setters make a column a primary key exactly when the tag is "true", give it the tag's length (100 when absent), and leave it nullable |
| StructTags.NoTagsNoOptions | tables/struct_tags.go:33-35 | an attribute with no primaryKey and no length tag (a name tag alone, say) yields no setters and no error |
| StructTags.NewCharField | tables/struct_tags.go:81 | a char column named by the name tag, carrying the defaults with the parsed setters run on them in order |
| StructTags.ParseStructTags | tables/struct_tags.go:57-89 | the loop over the struct's attributes returns each named attribute's column in order, or the first error with no partial result |
| StructTags.StructColumnsErrorPersists | tables/struct_tags.go:72-85 | once an attribute fails, the whole extraction fails with that error |
| StructTags.StructColumnsCharacterized | tables/struct_tags.go:64-88 | extraction succeeds if and only if every named attribute has kind int or string and parsable tags; it then gives one column per named attribute in order: INT for int, CHAR for string, named by the name tag |
| StructTags.NamedFieldsEmpty | tables/struct_tags.go:69-70 | no attribute takes part exactly when none has a non-empty name tag |
| StructTags.NewStructTagsTable | tables/struct_tags.go:92-116 | a non-pointer or a pointer to a non-struct gives the pointer error; an extraction error is returned as it is; a struct with no named attributes gives the no-fields error; otherwise the table holds the extracted columns and the type name |
| Table.NewTable | tables/table.go:31-49 | a non-pointer and a pointer to a non-struct give the pointer error, a type without Fields() gives the ModelFields error, and the call succeeds exactly when none of these holds |
| Table.Name | tables/table.go:85-88 | the table's name is the struct's type name, recorded by NewTable |
| Table.Create | tables/table.go:51-83 | the text is "CREATE TABLE ", then " IF NOT EXISTS " only when asked, then name "(", the "name type" columns joined by ",", the primary-key clause, ")"; the result is the database's answer |
| Table.CreateSqlParts | tables/table.go:61-77 | the column text the loop builds is the comma-joined column list, and the keys it gathers are the primary-key names in column order |
| Table.PrimaryKeyClauseIff | tables/table.go:67-76 | primary-key names are gathered, and so the PRIMARY KEY clause is emitted, if and only if some column is a primary key |
| Table.CreateForTestUser | tables/table.go:51-77 | a table User with one primary-key int column ID gives "CREATE TABLE User(ID INT, PRIMARY KEY(ID))" |
| Table.Add | tables/table.go:91-129 | the INSERT text lists the column names and one "?" per column; the parameters are the instance's values in column order; the result is the database's answer |
| Table.InsertPlaceholdersMatch | tables/table.go:99-109 | the INSERT text has as many "?" as there are parameters |
| Table.Delete | tables/table.go:131-134 | Delete always succeeds and does nothing |
| Table.ParseInstance | tables/table.go:136-152 | the names and values of the selected columns (all, or the primary keys only), in column order, of equal length and aligned; only the selected columns need a Go attribute of the same name |
| Table.SelectedAll | tables/table.go:143 | selecting without the primary-key filter keeps every column |
| Table.SelectedKeys | tables/table.go:143 | selecting with the filter keeps exactly the primary-key columns |
| Table.SelectedAppend | tables/table.go:143-150 | selection keeps column order: it distributes over concatenation |
| Table.AppendPlaceholders | tables/table.go:169-171 | every name in the array is rewritten in place to "name=?" |
| Table.Placeholders | tables/table.go:169-171 | the rewritten copy holds "name=?" for every name, in order |
| Table.Count | tables/table.go:165-192 | the text is "SELECT COUNT(*) FROM name WHERE " with the "key=?" terms joined by ","; the parameters are the primary-key values; a database error gives count 0 and that error |
| Table.CountPlaceholdersMatch | tables/table.go:166-171 | the COUNT text has as many "?" as there are parameters |
| Table.KeyColumnsSuffice | tables/table.go:143-146 | an instance whose key columns can be read but whose other columns cannot is accepted by Count and Exists, though not by Add |
| Table.Exists | tables/table.go:154-163 | a count error is returned unchanged; otherwise the row-not-exists error is returned if and only if the count is 0 |
| Table.Update | tables/table.go:195-244 | an Exists error is returned before any statement is built, which needs only the key columns to be readable; otherwise SET covers every column, WHERE the primary keys, and the parameters are all column values followed by the key values |
| Table.UpdateStatement | tables/table.go:200-216 | the UPDATE text and parameters built once the row is known to exist |
| Table.UpdatePlaceholdersMatch | tables/table.go:200-230 | the UPDATE text has as many "?" as there are parameters |

## Left out

- Database execution, that is `db.Exec` and the `Begin`, `Prepare`, `Exec`, `QueryRow`, `Commit` and `Close` calls: these are an outside service, so each statement is one call of the `Db` functions and the order of transaction steps is not modelled.
- Statements left open on the early-error paths are a resource matter and are not modelled.
- Logging (`log.Debug`, `log.Info`, `log.Error`) has no effect on results and is left out.
- Add, ParseInstance, Count, Exists, Update: Go panics when the instance has no `Fields()` method (`instance.(orm.ModelFields)`, tables/table.go:94,138), when it is not a pointer (`Elem()`, tables/table.go:101,146), or when a column names an unexported attribute (`Interface()`). The model's `Instance` always has a field list, is treated as a pointer, and its `attrs` holds only exported attributes, so these panics are not modelled.
- Reflection (`TypeOf`, `Indirect`, `Implements`, `FieldByName`) is replaced by descriptors. Go looks up an attribute by column name only for the columns it reads, so that lookup becomes a precondition on those columns: `ReadableFor(inst, true)` for the key columns, and `Readable` for all of them.
- tables/filterset.go has only stubs returning nil; orm.go and model.go hold interface declarations only.
- tables/struct_tags_test.go and orm_test.go expect behaviour that the code in tables/ and fields/ does not implement, so it is not modelled: the bool, float32, time and uint64 kinds, `NOT NULL` rendering, a mandatory CHAR length, and rejection of a struct without a primary key.
- Create returns the database's error as it is (tables/table.go:79-81), and the model does the same. But `Db` is a stateless function, so the model cannot show that a second `Create(false)` fails because the first one created the table, as orm_test.go:78-86 expects.
- `fields.NewCharField`, called at tables/struct_tags.go:81, is not defined in fields/field.go, int.go, options.go or types.go; a CHAR column is modelled as its name and its options with the setters applied, like an int column.
- The `null` branch of parseWithParameters is unreachable, because the tag table has no `null` entry. It is modelled as written, including that "false" also adds `WithNull(true)`.
- fields/field.go and fields/int.go define no `PrimaryKey()` method for `myField` and `intField`, although the `orm.Field` interface asks for one; `PrimaryKey` reads the stored primary-key option, the only primary-key state there is.
- The `simpleTable` struct of tables/table.go:24-27 lacks the `fields` and `name` members that tables/struct_tags.go fills in. `Table.SimpleTable` holds the database, the type name and the `Fields()` list. `StructTags.TagsTable` holds the columns and the name, without the database.
- The WHERE terms of Count and Update are joined by "," as written, not by AND; the double space that " IF NOT EXISTS " leaves after "CREATE TABLE " is kept.
- The `params` slice of ParseInstance is built, as the local `params`, but never returned, so no contract speaks of it.
- Integers are unbounded, except that `strconv.Atoi` has 64-bit bounds; the Go `int` length set by `WithLength` is not wrapped.
- The shared `defaultOptions` is a Dafny constant, so no construction can change it; the Go code keeps it unchanged by copying it.
- Options.Apply: the setters write through a pointer in Go; the model returns the updated record, so aliasing of the options record is not modelled.
- StructTags.Atoi: the failure carries no reason; Go's error text, which tells a syntax error from a range error, is dropped from `LengthTagError`.
- Table.Value: attribute values the model does not inspect (floats, times) are the opaque `OtherValue`; values are only passed through to the database.
- Table.UpdatePlaceholdersMatch, Table.InsertPlaceholdersMatch, Table.CountPlaceholdersMatch: these assume that no table or column name contains "?".
