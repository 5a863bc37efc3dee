/** Column options of the fields package and the functional-options setters
    that update them (fields/options.go). A Go setter is a closure that writes
    one attribute of a FieldOptions record through a pointer; here each closure
    is a FieldOption value and Apply runs it on a copy. */
module Options {

  /** The three attributes a column option record carries. */
  datatype FieldOptions = FieldOptions(primaryKey: bool, length: int, nullable: bool)

  /** The shared default record that every constructor copies. */
  const DefaultOptions: FieldOptions := FieldOptions(false, 100, true)

  /** One setter closure: WithPrimaryKey(b), WithLength(n) or WithNull(b). */
  datatype FieldOption =
    | WithPrimaryKey(isKey: bool)
    | WithLength(len: int)
    | WithNull(allowNull: bool)

  /** The attribute a setter writes. */
  datatype Attribute = PrimaryKeyAttr | LengthAttr | NullAttr

  /** The value an attribute holds, whatever its Go type. */
  datatype AttributeValue = Flag(b: bool) | Number(n: int)

  function AttributeOf(o: FieldOption): Attribute
  {
    match o
    case WithPrimaryKey(_) => PrimaryKeyAttr
    case WithLength(_) => LengthAttr
    case WithNull(_) => NullAttr
  }

  function ValueOf(o: FieldOption): AttributeValue
  {
    match o
    case WithPrimaryKey(b) => Flag(b)
    case WithLength(n) => Number(n)
    case WithNull(b) => Flag(b)
  }

  function Get(opts: FieldOptions, a: Attribute): AttributeValue
  {
    match a
    case PrimaryKeyAttr => Flag(opts.primaryKey)
    case LengthAttr => Number(opts.length)
    case NullAttr => Flag(opts.nullable)
  }

  /** Running one setter closure on a record: the attribute it names takes the
      setter's argument, with no validation, and the other two are kept. */
  function Apply(opts: FieldOptions, o: FieldOption): (r: FieldOptions)
    ensures Get(r, AttributeOf(o)) == ValueOf(o)
    ensures forall a :: a != AttributeOf(o) ==> Get(r, a) == Get(opts, a)
    ensures o.WithPrimaryKey? ==> r == FieldOptions(o.isKey, opts.length, opts.nullable)
    ensures o.WithLength? ==> r == FieldOptions(opts.primaryKey, o.len, opts.nullable)
    ensures o.WithNull? ==> r == FieldOptions(opts.primaryKey, opts.length, o.allowNull)
  {
    match o
    case WithPrimaryKey(b) => opts.(primaryKey := b)
    case WithLength(n) => opts.(length := n)
    case WithNull(b) => opts.(nullable := b)
  }

  /** Running the setters left to right, as the constructors' loops do. */
  function ApplyAll(opts: FieldOptions, os: seq<FieldOption>): FieldOptions
    decreases |os|
  {
    if |os| == 0 then opts else Apply(ApplyAll(opts, os[..|os| - 1]), os[|os| - 1])
  }

  /** The defaults of fields/options.go:12-16. */
  lemma DefaultsAre()
    ensures !DefaultOptions.primaryKey && DefaultOptions.length == 100 && DefaultOptions.nullable
  {
  }

  /** Running a setter twice is the same as running it once. */
  lemma ApplyIdempotent(opts: FieldOptions, o: FieldOption)
    ensures Apply(Apply(opts, o), o) == Apply(opts, o)
  {
  }

  /** Setters on different attributes commute. */
  lemma ApplyCommutes(opts: FieldOptions, o1: FieldOption, o2: FieldOption)
    requires AttributeOf(o1) != AttributeOf(o2)
    ensures Apply(Apply(opts, o1), o2) == Apply(Apply(opts, o2), o1)
  {
  }

  /** A later setter on the same attribute overrides an earlier one. */
  lemma ApplyOverrides(opts: FieldOptions, o1: FieldOption, o2: FieldOption)
    requires AttributeOf(o1) == AttributeOf(o2)
    ensures Apply(Apply(opts, o1), o2) == Apply(opts, o2)
  {
  }

  /** Running a list of setters leaves an attribute alone when none of them
      writes it. */
  lemma {:induction false} ApplyAllUntouched(opts: FieldOptions, os: seq<FieldOption>, a: Attribute)
    requires forall k :: 0 <= k < |os| ==> AttributeOf(os[k]) != a
    ensures Get(ApplyAll(opts, os), a) == Get(opts, a)
    decreases |os|
  {
    if |os| > 0 {
      ApplyAllUntouched(opts, os[..|os| - 1], a);
    }
  }

  /** Last setter wins: the attribute that setter j writes ends with setter j's
      value when no later setter writes the same attribute. */
  lemma {:induction false} ApplyAllLastWins(opts: FieldOptions, os: seq<FieldOption>, j: nat)
    requires j < |os|
    requires forall k :: j < k < |os| ==> AttributeOf(os[k]) != AttributeOf(os[j])
    ensures Get(ApplyAll(opts, os), AttributeOf(os[j])) == ValueOf(os[j])
    decreases |os|
  {
    if j < |os| - 1 {
      ApplyAllLastWins(opts, os[..|os| - 1], j);
    }
  }

  /** Running the setters is the same as running them one after the other in
      two batches. */
  lemma {:induction false} ApplyAllAppend(opts: FieldOptions, os1: seq<FieldOption>, os2: seq<FieldOption>)
    ensures ApplyAll(opts, os1 + os2) == ApplyAll(ApplyAll(opts, os1), os2)
    decreases |os2|
  {
    if |os2| > 0 {
      assert (os1 + os2)[..|os1 + os2| - 1] == os1 + os2[..|os2| - 1];
      ApplyAllAppend(opts, os1, os2[..|os2| - 1]);
    } else {
      assert os1 + os2 == os1;
    }
  }
}
