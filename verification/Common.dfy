/** Values shared by every component of the model. */
module Common {

  /** A Go pointer, or a map lookup with its second result. */
  datatype Option<+T> = None | Some(value: T)

  /** A Go (value, error) pair. */
  datatype Result<+T, +E> = Success(value: T) | Failure(error: E) {

    predicate IsFailure() {
      Failure?
    }

    function PropagateFailure<U>(): Result<U, E>
      requires Failure?
    {
      Failure(error)
    }

    function Extract(): T
      requires Success?
    {
      value
    }
  }

  /** Identities are strings; the empty string is Go's zero value and names nobody. */
  type Id = string

  const NOBODY: Id := ""

  /** What one database transaction did, as its caller sees it. */
  datatype CommitOutcome = Committed | RolledBack | ReplyLost

  function Min(a: int, b: int): int {
    if a <= b then a else b
  }

  function Max(a: int, b: int): int {
    if a >= b then a else b
  }

  ghost predicate NoDuplicates<T(!new)>(s: seq<T>) {
    forall i, j :: 0 <= i < j < |s| ==> s[i] != s[j]
  }

  /** What a loop has built so far in front of what a recursive rest still yields, if it yields anything. */
  ghost function Prefixed<T>(built: seq<T>, rest: Option<seq<T>>): (all: Option<seq<T>>)
    ensures built == [] ==> all == rest
  {
    if rest.None? then None
    else
      assert built == [] ==> built + rest.value == rest.value;
      Some(built + rest.value)
  }

  lemma OneMoreBuilt<T>(built: seq<T>, x: T, rest: Option<seq<T>>)
    ensures rest.Some? ==> Prefixed(built, Some([x] + rest.value)) == Prefixed(built + [x], rest)
  {
    if rest.Some? {
      assert built + ([x] + rest.value) == built + [x] + rest.value;
    }
  }
}
