/** String helpers the statement builders rely on: strings.Join and a count
    of the occurrences of one character (used for the `?` placeholders). */
module Strings {

  /** strings.Join: the elements in order with `sep` between neighbours. */
  function Join(s: seq<string>, sep: string): string
    decreases |s|
  {
    if |s| == 0 then ""
    else if |s| == 1 then s[0]
    else Join(s[..|s| - 1], sep) + sep + s[|s| - 1]
  }

  /** The number of occurrences of `c` in `s`. */
  function Occurrences(c: char, s: string): nat
    decreases |s|
  {
    if |s| == 0 then 0
    else Occurrences(c, s[..|s| - 1]) + (if s[|s| - 1] == c then 1 else 0)
  }

  /** The number of occurrences of `c` over all the elements of `s`. */
  function TotalOccurrences(c: char, s: seq<string>): nat
    decreases |s|
  {
    if |s| == 0 then 0
    else TotalOccurrences(c, s[..|s| - 1]) + Occurrences(c, s[|s| - 1])
  }

  /** No element of `s` contains `c`. */
  predicate Free(c: char, s: seq<string>)
  {
    forall k :: 0 <= k < |s| ==> c !in s[k]
  }

  lemma {:induction false} OccurrencesAppend(c: char, a: string, b: string)
    ensures Occurrences(c, a + b) == Occurrences(c, a) + Occurrences(c, b)
    decreases |b|
  {
    if |b| == 0 {
      assert a + b == a;
    } else {
      assert (a + b)[..|a + b| - 1] == a + b[..|b| - 1];
      OccurrencesAppend(c, a, b[..|b| - 1]);
    }
  }

  lemma {:induction false} OccurrencesAbsent(c: char, s: string)
    requires c !in s
    ensures Occurrences(c, s) == 0
    decreases |s|
  {
    if |s| > 0 {
      OccurrencesAbsent(c, s[..|s| - 1]);
    }
  }

  /** Joining with a separator that does not contain `c` keeps exactly the
      occurrences of `c` in the elements. */
  lemma {:induction false} OccurrencesJoin(c: char, s: seq<string>, sep: string)
    requires c !in sep
    ensures Occurrences(c, Join(s, sep)) == TotalOccurrences(c, s)
    decreases |s|
  {
    if |s| == 1 {
      assert TotalOccurrences(c, s) == TotalOccurrences(c, s[..0]) + Occurrences(c, s[0]);
    } else if |s| > 1 {
      var init := s[..|s| - 1];
      OccurrencesJoin(c, init, sep);
      OccurrencesAppend(c, Join(init, sep), sep);
      OccurrencesAppend(c, Join(init, sep) + sep, s[|s| - 1]);
      OccurrencesAbsent(c, sep);
    }
  }

  lemma {:induction false} TotalOccurrencesFree(c: char, s: seq<string>)
    requires Free(c, s)
    ensures TotalOccurrences(c, s) == 0
    decreases |s|
  {
    if |s| > 0 {
      TotalOccurrencesFree(c, s[..|s| - 1]);
      OccurrencesAbsent(c, s[|s| - 1]);
    }
  }

  /** Appending one element to a joined list adds the separator (unless the
      list was empty) and the element. */
  lemma JoinSnoc(s: seq<string>, x: string, sep: string)
    ensures Join(s + [x], sep) == if |s| == 0 then x else Join(s, sep) + sep + x
  {
    assert (s + [x])[..|s + [x]| - 1] == s;
  }
}
