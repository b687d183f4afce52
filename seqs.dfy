/** Sequence relations shared by the dashboard and the hardware report. */
module Seqs {
  /** `a` is `b` with some elements left out, the rest in the same order. */
  predicate SubsequenceOf<T(==)>(a: seq<T>, b: seq<T>)
    decreases |b|
  {
    if |a| == 0 then true
    else if |b| == 0 then false
    else (a[0] == b[0] && SubsequenceOf(a[1..], b[1..])) || SubsequenceOf(a, b[1..])
  }

  /** Every sequence is a subsequence of itself. */
  lemma {:induction false} SubsequenceOfSelf<T>(s: seq<T>)
    ensures SubsequenceOf(s, s)
  {
    if |s| > 0 {
      SubsequenceOfSelf(s[1..]);
    }
  }
}
