/**
 * Optional values (a form field, a header or a parse result that may be
 * absent: null in the C# servers) and one fact about sequences.
 */
module Wrappers {

  datatype Option<+T> = None | Some(value: T) {

    /** The value, or `default` when absent (C#'s `?? default`). */
    function GetOr(default: T): T {
      match this
      case Some(v) => v
      case None => default
    }
  }

  /** Concatenation regroups: `(a + b) + c == a + (b + c)`. Stating it as a step keeps longer proofs cheap. */
  lemma AppendAssoc<T>(a: seq<T>, b: seq<T>, c: seq<T>)
    ensures a + b + c == a + (b + c)
  {
  }
}
