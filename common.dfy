/** Small wrapper datatypes shared by both models of the game. */
module Common {

  /** An optional value: Swift's `T?`, Python's `T | None`. */
  datatype Option<T> = None | Some(value: T)

  /** A value or the error a Python call would raise instead of returning. */
  datatype Result<T, E> = Ok(value: T) | Err(error: E)

  /** The cards an optional card contributes to a pile count. */
  function OptionMultiset<T>(o: Option<T>): multiset<T>
  {
    if o.Some? then multiset{o.value} else multiset{}
  }
}
