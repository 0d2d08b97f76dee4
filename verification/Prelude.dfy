/** Small shared vocabulary: optional values and distinctness of sequences. */
module Prelude {

  datatype Option<+T> = None | Some(value: T) {
    function GetOr(default: T): T {
      match this
      case Some(v) => v
      case None => default
    }
  }

  ghost predicate NoDup<T(!new)>(s: seq<T>) {
    forall i, j :: 0 <= i < j < |s| ==> s[i] != s[j]
  }

  function Max(a: int, b: int): int {
    if a > b then a else b
  }

  /** `order` visits every index below `n` exactly once. */
  ghost predicate IsPermutation(order: seq<nat>, n: nat) {
    && |order| == n
    && NoDup(order)
    && (forall i :: 0 <= i < n ==> order[i] < n)
    && (forall k: nat :: k < n ==> k in order)
  }

  lemma Associative<T>(a: seq<T>, b: seq<T>, c: seq<T>)
    ensures a + (b + c) == a + b + c
  {
  }

  lemma HeadOfSum<T>(a: seq<T>, b: seq<T>)
    requires a != []
    ensures (a + b)[0] == a[0] && (a + b)[1..] == a[1..] + b
  {
  }
}
