// The outcome types the whole model shares.
module Wrappers {

  /** Rust's `Option`; usable with `:-`, which plays the part of `?`. */
  datatype Option<+T> = None | Some(value: T) {

    predicate IsFailure() {
      None?
    }

    function PropagateFailure<U>(): Option<U>
      requires None?
    {
      None
    }

    function Extract(): T
      requires Some?
    {
      value
    }
  }

  datatype Result<+T, +E> = Ok(value: T) | Err(error: E)

  lemma ConcatAssociates<T>(a: seq<T>, b: seq<T>, c: seq<T>)
    ensures (a + b) + c == a + (b + c)
  {
  }

  lemma InPrefix<T>(s: seq<T>, n: nat, x: T)
    requires 0 < n <= |s|
    ensures x in s[..n] <==> x in s[..n - 1] || x == s[n - 1]
  {
    assert s[..n] == s[..n - 1] + [s[n - 1]];
  }
}
