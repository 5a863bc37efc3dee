/** The generic int column of fields/field.go: a name, a stored type string
    and a pointer to its own copy of the options. */
module Field {
  import opened Options
  import Orm

  datatype MyField = MyField(name: string, typeName: string, options: FieldOptions)

  /** Builds an int column. The defaults are copied into a local record and
      each setter closure then writes that copy, left to right; the shared
      default record is a constant, so nothing but the copy changes. */
  method NewIntField(name: string, opts: seq<FieldOption>) returns (f: MyField)
    ensures Name(f) == name && Type(f) == "INT"
    ensures f.options == ApplyAll(DefaultOptions, opts)
    ensures PrimaryKey(f) == ApplyAll(DefaultOptions, opts).primaryKey
  {
    var options := DefaultOptions;
    var i := 0;
    while i < |opts|
      invariant 0 <= i <= |opts|
      invariant options == ApplyAll(DefaultOptions, opts[..i])
    {
      assert opts[..i + 1][..i] == opts[..i];
      options := Apply(options, opts[i]);
      i := i + 1;
    }
    assert opts[..|opts|] == opts;
    f := MyField(name, "INT", options);
  }

  /** The stored type string. */
  function Type(f: MyField): (r: string)
    ensures r == f.typeName
  {
    f.typeName
  }

  /** The stored name. */
  function Name(f: MyField): (r: string)
    ensures r == f.name
  {
    f.name
  }

  /** The primary-key flag is the one stored in the options. */
  function PrimaryKey(f: MyField): (r: bool)
    ensures r == f.options.primaryKey
  {
    f.options.primaryKey
  }

  /** The orm.Field view of a column, as the table code reads it. */
  function AsOrmField(f: MyField): (r: Orm.Field)
    ensures r.name == Name(f) && r.typeName == Type(f) && r.primaryKey == PrimaryKey(f)
  {
    Orm.Field(f.name, f.typeName, f.options.primaryKey)
  }

  /** A field built from no setters carries exactly the defaults. */
  lemma NoOptionsGivesDefaults()
    ensures ApplyAll(DefaultOptions, []) == FieldOptions(false, 100, true)
  {
  }

  /** The primary-key flag of a built field is the argument of the last
      WithPrimaryKey setter, or false when there is none. */
  lemma {:induction false} PrimaryKeyOfBuilt(opts: seq<FieldOption>)
    ensures ApplyAll(DefaultOptions, opts).primaryKey ==
            (exists j :: 0 <= j < |opts| && opts[j].WithPrimaryKey? && opts[j].isKey &&
                         forall k :: j < k < |opts| ==> !opts[k].WithPrimaryKey?)
    decreases |opts|
  {
    if |opts| > 0 {
      var init := opts[..|opts| - 1];
      PrimaryKeyOfBuilt(init);
      if !opts[|opts| - 1].WithPrimaryKey? {
        if exists j :: 0 <= j < |init| && init[j].WithPrimaryKey? && init[j].isKey &&
                       forall k :: j < k < |init| ==> !init[k].WithPrimaryKey? {
          var j :| 0 <= j < |init| && init[j].WithPrimaryKey? && init[j].isKey &&
                   forall k :: j < k < |init| ==> !init[k].WithPrimaryKey?;
          assert opts[j] == init[j];
        }
        if exists j :: 0 <= j < |opts| && opts[j].WithPrimaryKey? && opts[j].isKey &&
                       forall k :: j < k < |opts| ==> !opts[k].WithPrimaryKey? {
          var j :| 0 <= j < |opts| && opts[j].WithPrimaryKey? && opts[j].isKey &&
                   forall k :: j < k < |opts| ==> !opts[k].WithPrimaryKey?;
          assert j < |init|;
          assert init[j] == opts[j];
          assert forall k :: j < k < |init| ==> init[k] == opts[k];
        }
      }
    }
  }
}
