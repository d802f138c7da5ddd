/** Small shared vocabulary: optional values, results with an error part, distinctness. */
module Common {

  datatype Option<T> = None | Some(value: T)

  /** The value of an operation, or the exception the Python code raises instead. */
  datatype Result<T, E> = Success(value: T) | Failure(error: E)

  /** No element occurs twice. */
  predicate Distinct<T(==)>(s: seq<T>) {
    forall i, j :: 0 <= i < j < |s| ==> s[i] != s[j]
  }
}
