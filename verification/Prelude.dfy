/** Small vocabulary shared by every module of the model. */
module Prelude {

  datatype Option<+T> = None | Some(value: T)

  /** A byte as an integer, so that shifts and masks are written as division and remainder. */
  type byte = x: int | 0 <= x < 256

  /** Every binding of `m` is still there, unchanged, in `m'`. */
  ghost predicate Extends<K(!new), V(!new)>(m: map<K, V>, m': map<K, V>) {
    forall k :: k in m ==> k in m' && m'[k] == m[k]
  }
}
