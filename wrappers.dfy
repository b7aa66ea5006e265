/** Optional values and error-carrying results, used for Python's `None` and
    for the exceptions the source raises or catches. */
module Wrappers {
  datatype Option<T> = None | Some(value: T)
  {
    function GetOr(default: T): T
    {
      match this
      case None => default
      case Some(v) => v
    }
  }

  datatype Result<T, E> = Ok(value: T) | Err(error: E)

  /** The Python exception classes the core raises or lets escape. */
  datatype PyError =
    | ValueError
    | TypeError
    | AttributeError
    | KeyError
    | IndexError
    | ZeroDivisionError
    | OverflowError
    | RateLimitError
    /** Any exception a backend client (text generation, HTTP) raises and
        the core lets escape. */
    | BackendError

  /** Items already produced in front of the result for the rest. */
  function Prepend<T, E>(items: seq<T>, rest: Result<seq<T>, E>): Result<seq<T>, E>
  {
    match rest
    case Err(e) => Err(e)
    case Ok(more) => Ok(items + more)
  }

  lemma PrependNothing<T, E>(rest: Result<seq<T>, E>)
    ensures Prepend([], rest) == rest
  {
    if rest.Ok? {
      assert [] + rest.value == rest.value;
    }
  }

  lemma PrependMore<T, E>(items: seq<T>, more: seq<T>, rest: Result<seq<T>, E>)
    ensures Prepend(items, Prepend(more, rest)) == Prepend(items + more, rest)
  {
    if rest.Ok? {
      assert items + (more + rest.value) == items + more + rest.value;
    }
  }

  /** A non-empty sequence is its head followed by its tail. */
  lemma ConsSeq<T>(s: seq<T>)
    requires s != []
    ensures s == [s[0]] + s[1..]
  {
  }

  /** A non-empty sequence is its front followed by its last element. */
  lemma SnocSeq<T>(s: seq<T>)
    requires s != []
    ensures s == s[..|s| - 1] + [s[|s| - 1]]
  {
  }
}
