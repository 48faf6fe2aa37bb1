/** The conventional optional value, standing for a pointer that may be NULL. */
module Options {
  datatype Option<+T> = None | Some(value: T)

  /** Some statements are made of all values that are the same as the one given, so that a
      proof which only carries them along need not look into them. */
  ghost predicate Same<T(!new)>(a: T, b: T) {
    a == b
  }
}
