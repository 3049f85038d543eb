/** What every module shares: optional values, and the one fact about sequences used everywhere. */
module Basics {

  datatype Option<T> = None | Some(value: T)

  lemma AppendAssociates<T>(a: seq<T>, b: seq<T>, c: seq<T>)
    ensures a + b + c == a + (b + c)
  {
  }
}
