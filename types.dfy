/** The logical column types of the fields package (fields/types.go). Go's
    `type Type int` admits every int, so the model's Type is the whole of int
    and the four named constants are the values 0 to 3. */
module Types {

  type Type = int

  const INT: Type := 0
  const CHAR: Type := 1
  const BOOL: Type := 2
  const DATETIME: Type := 3

  /** The SQL keyword of a type; any value that is not one of the four
      constants has no keyword and renders as the empty string. */
  function String(t: Type): (r: string)
    ensures t == INT ==> r == "INT"
    ensures t == CHAR ==> r == "CHAR"
    ensures t == BOOL ==> r == "BOOL"
    ensures t == DATETIME ==> r == "DATETIME"
    ensures r == "" <==> !(INT <= t <= DATETIME)
  {
    if t == INT then "INT"
    else if t == CHAR then "CHAR"
    else if t == BOOL then "BOOL"
    else if t == DATETIME then "DATETIME"
    else ""
  }

  /** The keyword determines the constant it came from. */
  lemma StringInjective(t1: Type, t2: Type)
    requires String(t1) == String(t2) != ""
    ensures t1 == t2
  {
  }

  /** The constants are numbered in declaration order from zero. */
  lemma ConstantsAreIota()
    ensures [INT, CHAR, BOOL, DATETIME] == [0, 1, 2, 3]
  {
  }
}
