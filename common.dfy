/** Small shared vocabulary: an optional value, used wherever the Python code may
    raise an exception that the model turns into an explicit failure value. */
module Common {

  datatype Option<+T> = None | Some(value: T)

  /** `s` is a prefix of `t` (Dafny's `<=` on sequences, named for readability). */
  predicate IsPrefix<T(==)>(s: seq<T>, t: seq<T>)
  {
    |s| <= |t| && t[..|s|] == s
  }

  /** Every element of `s` occurs at most once. */
  predicate Distinct<T(==)>(s: seq<T>)
  {
    forall i, j :: 0 <= i < j < |s| ==> s[i] != s[j]
  }

  /** `x` repeated `n` times. */
  function Repeat<T>(x: T, n: nat): (r: seq<T>)
    ensures |r| == n
    ensures forall k :: 0 <= k < n ==> r[k] == x
  {
    if n == 0 then [] else Repeat(x, n - 1) + [x]
  }

  /** `x` repeated `n + 1` times is `x` followed by `x` repeated `n` times. */
  lemma {:induction false} RepeatCons<T>(x: T, n: nat)
    ensures Repeat(x, n + 1) == [x] + Repeat(x, n)
  {
    if n > 0 {
      RepeatCons(x, n - 1);
    }
  }
}
