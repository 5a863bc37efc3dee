/** The int column of fields/int.go: a name and its own copy of the options;
    its SQL type is the constant "INT". */
module IntField {
  import opened Options
  import Orm

  datatype IntField = IntField(name: string, options: FieldOptions)

  /** Builds an int column by copying the defaults and running the setter
      closures on the copy, left to right. */
  method NewIntField(name: string, opts: seq<FieldOption>) returns (f: IntField)
    ensures Name(f) == name
    ensures f.options == ApplyAll(DefaultOptions, opts)
    ensures PrimaryKey(f) == ApplyAll(DefaultOptions, opts).primaryKey
  {
    var options := DefaultOptions;
    for i := 0 to |opts|
      invariant options == ApplyAll(DefaultOptions, opts[..i])
    {
      assert opts[..i + 1][..i] == opts[..i];
      options := Apply(options, opts[i]);
    }
    assert opts[..|opts|] == opts;
    f := IntField(name, options);
  }

  function Type(f: IntField): (r: string)
    ensures r == "INT"
  {
    "INT"
  }

  /** The stored name. */
  function Name(f: IntField): (r: string)
    ensures r == f.name
  {
    f.name
  }

  /** The primary-key flag is the one stored in the options. */
  function PrimaryKey(f: IntField): (r: bool)
    ensures r == f.options.primaryKey
  {
    f.options.primaryKey
  }

  /** The orm.Field view of a column, as the table code reads it. */
  function AsOrmField(f: IntField): (r: Orm.Field)
    ensures r.name == f.name && r.typeName == "INT" && r.primaryKey == f.options.primaryKey
  {
    Orm.Field(Name(f), Type(f), PrimaryKey(f))
  }

  /** Later setters override earlier ones: the options of a field built from
      `first + later` are those of `first` with `later` run on top, so on any
      attribute that `later` writes they agree with a field built from `later`
      alone. */
  lemma LaterSettersOverride(first: seq<FieldOption>, later: seq<FieldOption>, a: Attribute)
    requires exists k :: 0 <= k < |later| && AttributeOf(later[k]) == a
    ensures Get(ApplyAll(DefaultOptions, first + later), a) == Get(ApplyAll(DefaultOptions, later), a)
  {
    ApplyAllAppend(DefaultOptions, first, later);
    SettersForgetStart(ApplyAll(DefaultOptions, first), DefaultOptions, later, a);
  }

  /** Once a setter list writes an attribute, the starting record no longer
      matters for it. */
  lemma {:induction false} SettersForgetStart(o1: FieldOptions, o2: FieldOptions, os: seq<FieldOption>, a: Attribute)
    requires exists k :: 0 <= k < |os| && AttributeOf(os[k]) == a
    ensures Get(ApplyAll(o1, os), a) == Get(ApplyAll(o2, os), a)
    decreases |os|
  {
    if AttributeOf(os[|os| - 1]) != a {
      var init := os[..|os| - 1];
      var k :| 0 <= k < |os| && AttributeOf(os[k]) == a;
      assert k < |init| && AttributeOf(init[k]) == a;
      SettersForgetStart(o1, o2, init, a);
    }
  }
}
