/** Small types shared by all components. */
module Prelude {

  type byte = bv8

  datatype Option<+T> = None | Some(value: T)

  /** The result codes the transports hand to completion callbacks. */
  datatype Code = Ok | Aborted | OutOfMemory | Reading | Error(number: int)

  function Min(a: int, b: int): int
  {
    if a < b then a else b
  }

  /** An optional value as a sequence of at most one element. */
  function Opt<T>(o: Option<T>): seq<T>
  {
    if o.Some? then [o.value] else []
  }

  lemma Assoc<T>(a: seq<T>, b: seq<T>, c: seq<T>)
    ensures (a + b) + c == a + (b + c)
  {
  }

  lemma Split<T>(a: seq<T>, b: seq<T>, whole: seq<T>)
    requires a + b == whole
    ensures a == whole[..|a|] && b == whole[|a|..]
  {
  }
}
