/** Small shared vocabulary: an optional value, a success-or-error result and
    the subsequence relation that describes every order-preserving filter. */
module Common {

  datatype Option<+T> = None | Some(value: T)

  datatype Result<+T, +E> = Ok(value: T) | Err(error: E)

  /** `r` can be obtained from `s` by deleting elements, keeping the order of the rest. */
  predicate SubsequenceOf<T(==)>(r: seq<T>, s: seq<T>)
    decreases |s|
  {
    r == [] || (s != [] && ((r[0] == s[0] && SubsequenceOf(r[1..], s[1..])) || SubsequenceOf(r, s[1..])))
  }

  lemma {:induction false} SubsequenceOfSelf<T>(s: seq<T>)
    ensures SubsequenceOf(s, s)
    decreases |s|
  {
    if s != [] {
      SubsequenceOfSelf(s[1..]);
    }
  }
}
