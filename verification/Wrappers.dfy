/** Failure-compatible datatypes and three notions about sequences, shared by every module. */
module Wrappers {

  datatype Option<+T> = None | Some(value: T)

  datatype Result<+T, +E> = Ok(value: T) | Err(error: E)

  ghost predicate Distinct<T>(s: seq<T>) {
    forall i, j :: 0 <= i < j < |s| ==> s[i] != s[j]
  }

  /** Position of the first occurrence of `x`, or `|s|`. */
  function IndexOf<T(==)>(s: seq<T>, x: T): (i: nat)
    ensures i <= |s|
    ensures i < |s| ==> s[i] == x
    ensures forall k :: 0 <= k < i ==> s[k] != x
  {
    if s == [] then 0 else if s[0] == x then 0 else 1 + IndexOf(s[1..], x)
  }

  /** The parts, set apart by line ends. */
  function JoinLines(parts: seq<string>): string {
    if parts == [] then "" else if |parts| == 1 then parts[0] else parts[0] + "\n" + JoinLines(parts[1..])
  }

  lemma {:induction false} JoinMeaning(a: seq<string>, v: string)
    ensures JoinLines([]) == "" && JoinLines([v]) == v
    ensures a != [] ==> JoinLines(a + [v]) == JoinLines(a) + "\n" + v
    decreases |a|
  {
    if |a| > 1 {
      JoinMeaning(a[1..], v);
      assert (a + [v])[1..] == a[1..] + [v];
    }
  }
}
