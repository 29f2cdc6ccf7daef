/** Sequence helpers with the semantics of the Python list operations the
    reader relies on: prefix slicing `s[:n]`, indexing `s[i]` with negative
    indices counted from the end, and `list.index(x)`. */
module Seqs {

  function Min(a: int, b: int): int { if a <= b then a else b }

  function Max(a: int, b: int): int { if a >= b then a else b }

  /** Python's `s[:n]`. A negative `n` drops `-n` elements from the end. */
  function SliceTo<T>(s: seq<T>, n: int): (r: seq<T>)
    ensures r <= s
    ensures n >= 0 ==> |r| == Min(n, |s|)
    ensures n < 0 ==> |r| == Max(0, |s| + n)
  {
    if n >= 0 then s[..Min(n, |s|)] else s[..Max(0, |s| + n)]
  }

  /** `s[i]` does not raise IndexError for a list of length `n`. */
  predicate ValidIndex(i: int, n: int) {
    -n <= i < n
  }

  /** The position `s[i]` denotes in a list of length `n`. */
  function Resolve(i: int, n: int): (r: nat)
    requires ValidIndex(i, n)
    ensures r < n
    ensures i >= 0 ==> r == i
    ensures i < 0 ==> r + (-i) == n
  {
    if i < 0 then i + n else i
  }

  /** Python's `s.index(x)`: the first position holding `x`. */
  function IndexOf<T(==)>(s: seq<T>, x: T): (r: nat)
    requires x in s
    ensures r < |s| && s[r] == x
    ensures forall j :: 0 <= j < r ==> s[j] != x
  {
    if s[0] == x then 0 else 1 + IndexOf(s[1..], x)
  }

  /** No value occurs twice. */
  predicate Distinct<T(==)>(s: seq<T>) {
    forall i, j :: 0 <= i < j < |s| ==> s[i] != s[j]
  }

  /** In a sequence without repetitions, `IndexOf` finds the one position of `x`. */
  lemma IndexOfDistinct<T>(s: seq<T>, i: int)
    requires Distinct(s) && 0 <= i < |s|
    ensures IndexOf(s, s[i]) == i
  {
  }
}
