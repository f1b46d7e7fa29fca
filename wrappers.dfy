/** Optional values, results and the Python exception kinds the modelled code raises. */
module Wrappers {

  datatype Option<+T> = None | Some(value: T)

  /** The exceptions raised by the code, by kind, with their message. */
  datatype Error =
    | ValueError(message: string)
    | RuntimeError(message: string)
    | FileNotFound(path: string)
    | ClientError(message: string)
    | AttributeError(name: string)
    | HttpStatusError(message: string)

  datatype Result<+T> = Ok(value: T) | Err(error: Error)

  /** Python truthiness of an optional string: present and non-empty. */
  predicate Truthy(s: Option<string>) {
    s.Some? && |s.value| > 0
  }

  function Min(a: int, b: int): int {
    if a <= b then a else b
  }

  lemma ConcatAssoc<T>(a: seq<T>, b: seq<T>, c: seq<T>)
    ensures (a + b) + c == a + (b + c)
  {
  }
}
