/** Facts about slices and concatenations, kept apart so that each proof sees only the ones it names. */
module SeqFacts {

  lemma DropConcat<T>(a: seq<T>, b: seq<T>, n: nat)
    requires n <= |a|
    ensures (a + b)[n..] == a[n..] + b && (a + b)[..n] == a[..n]
  {
  }

  lemma TakeDrop<T>(a: seq<T>, n: nat)
    requires n <= |a|
    ensures a[..n] + a[n..] == a
  {
  }

  lemma DropDrop<T>(a: seq<T>, m: nat, n: nat)
    requires m + n <= |a|
    ensures a[m..][n..] == a[m + n..] && a[m..][..n] == a[m..m + n]
  {
  }

  lemma Assoc<T>(a: seq<T>, b: seq<T>, c: seq<T>)
    ensures a + b + c == a + (b + c)
  {
  }

  /** `s` ends with `end`. */
  ghost predicate Suffix<T>(end: seq<T>, s: seq<T>) {
    |end| <= |s| && s[|s| - |end|..] == end
  }

  lemma SuffixLonger<T>(end: seq<T>, s: seq<T>, front: seq<T>)
    requires Suffix(end, s)
    ensures Suffix(end, front + s)
  {
  }

  /** The position of the first `x`, or the length. */
  function IndexOf<T(==)>(s: seq<T>, x: T): (i: nat)
    ensures i <= |s| && (i < |s| ==> s[i] == x) && forall j :: 0 <= j < i ==> s[j] != x
  {
    if s == [] || s[0] == x then 0 else IndexOf(s[1..], x) + 1
  }

  lemma IndexOfIs<T>(s: seq<T>, x: T, i: nat)
    requires i < |s| && s[i] == x && forall j :: 0 <= j < i ==> s[j] != x
    ensures IndexOf(s, x) == i
  {
  }
}
