// Small definitions every component uses.
module Common {

  datatype Option<T> = None | Some(value: T)

  /** How a stream that failed is ended: an error event of the old or the retryable kind, a proper end if that
      is honest, or no end at all. */
  datatype Mode = Legacy | Retryable | Graceful | Abort

  function Min(a: int, b: int): int { if a < b then a else b }

  function Max(a: int, b: int): int { if a < b then b else a }

  predicate Distinct<T(==)>(s: seq<T>) {
    forall i, j :: 0 <= i < j < |s| ==> s[i] != s[j]
  }
}
