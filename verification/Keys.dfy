/** Keys of rows and objects. */
module Keys {
  /** A key: nil, or a value of some type, of which one is its zero. */
  datatype Key = NilKey | KeyOf(id: int)

  predicate IsZero(k: Key) {
    k.NilKey? || k.id == 0
  }
}
