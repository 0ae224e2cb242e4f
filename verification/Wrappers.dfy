/** The small result types the models share. */
module Wrappers {
  datatype Option<+T> = None | Some(value: T) {
    function Or<U>(default: U, f: T -> U): U {
      match this
      case None => default
      case Some(v) => f(v)
    }
  }

  function Min(a: int, b: int): int {
    if a < b then a else b
  }

  /** Subtraction that stops at zero, as `saturating_sub` does. */
  function Less(a: nat, b: nat): nat {
    if a < b then 0 else a - b
  }

  predicate Distinct<T(==)>(items: seq<T>) {
    forall i, j :: 0 <= i < j < |items| ==> items[i] != items[j]
  }

  lemma NothingMore<T>(a: seq<T>)
    ensures a + [] == a && [] + a == a
  {}

  lemma Regrouped<T>(a: seq<T>, b: seq<T>, c: seq<T>)
    ensures a + b + c == a + (b + c)
  {}
}
