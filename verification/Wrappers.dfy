/** The usual optional value, and how sequences regroup. */
module Wrappers {
  datatype Option<+T> = None | Some(value: T)

  lemma Joined<T>(a: seq<T>, b: seq<T>, c: seq<T>)
    ensures (a + b) + c == a + (b + c)
  {
  }
}
