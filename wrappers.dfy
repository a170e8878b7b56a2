/**
 * Optional values and results, in place of Python's None and of raised job
 * errors, and the script helpers the service models share.
 */
module Wrappers {

  datatype Option<+T> = None | Some(value: T)

  datatype Result<+T, +E> = Ok(value: T) | Err(error: E)

  /** A script after its first answer has been consumed; an empty script stays empty. */
  function Rest<T>(s: seq<T>): seq<T> {
    if s == [] then [] else s[1..]
  }

  /** The next answer of a boolean script; an exhausted script answers false. */
  function Head(acks: seq<bool>): bool {
    acks != [] && acks[0]
  }

  lemma AppendAssoc<T>(a: seq<T>, b: seq<T>, c: seq<T>)
    ensures a + b + c == a + (b + c)
  {
  }
}
