/** Values shared by every module: optional values, the results of operations
    that can raise, and the exceptions the service raises or lets through. */
module Common {

  datatype Option<T> = None | Some(value: T)

  /** The outcome of an operation that can raise: its value, or the exception. */
  datatype Result<T> = Ok(value: T) | Err(error: Error)

  /** The outcome of an operation that returns nothing but can raise. */
  datatype Outcome = Pass | Fail(error: Error)

  /** The exceptions that reach the callers of the core. */
  datatype Error =
    /** FileNotFoundError raised by the service with a message of its own */
    | FileNotFound(message: string)
    /** FileNotFoundError raised by the files verifier: the missing paths */
    | FilesMissing(missing: seq<string>)
    /** ValueError raised by the files verifier: the size mismatches and,
        when there are any, the missing paths */
    | SizeMismatch(mismatched: seq<string>, missing: seq<string>)
    /** ValueError raised by the interpreter with its message */
    | ValueError(message: string)
    /** the bare Exception raised by the older mapper */
    | Exception(message: string)
    /** FileNotFoundError raised by the os module (getsize, getmtime, open) */
    | OsError(path: string)
    /** TypeError: subscripting None or testing membership in None */
    | TypeError
    /** AttributeError: calling a dict method on None */
    | AttributeError
    /** IndexError: indexing an empty list */
    | IndexError
    /** KeyError: reading a key an entity does not have */
    | KeyError(key: string)
    /** StopIteration: next() on an empty file */
    | StopIteration
    /** UnboundLocalError: reading a local variable that was never assigned */
    | UnboundLocal(name: string)

  /** Python truthiness of an optional string: None and "" are false. */
  predicate Truthy(o: Option<string>) {
    o.Some? && o.value != ""
  }

  /** A token of the recorded command line (or its replacement) with the
      position it had in the recorded command. */
  datatype Tagged = Tagged(text: string, index: nat)

  /** Concatenation is associative; stated once so that proofs can use it
      without the solver rediscovering it by extensionality. */
  lemma ConcatAssoc<T>(x: seq<T>, y: seq<T>, z: seq<T>)
    ensures x + (y + z) == (x + y) + z
  {
  }

  /** f applied to every element, in order. */
  function MapSeq<A, B>(f: A -> B, xs: seq<A>): (ys: seq<B>)
    ensures |ys| == |xs|
    ensures forall m :: 0 <= m < |xs| ==> ys[m] == f(xs[m])
  {
    seq(|xs|, m requires 0 <= m < |xs| => f(xs[m]))
  }

  /** The image of a prefix one element longer. */
  lemma MapSeqStep<A, B>(f: A -> B, xs: seq<A>, i: nat)
    requires i < |xs|
    ensures MapSeq(f, xs[..i + 1]) == MapSeq(f, xs[..i]) + [f(xs[i])]
  {
    var pre := xs[..i + 1];
    assert forall m :: 0 <= m < i ==> pre[m] == xs[..i][m];
  }
}
