/** Optional values and thrown-exception results, standing in for Java's
    `Optional`, `null` returns and unchecked exceptions. */
module Options {

  /** `None` models an empty `Optional` or a `null` reference. */
  datatype Option<+T> = None | Some(value: T)

  /** The only exception the modelled code can raise: `Optional.get()` on an
      empty `Optional`. */
  datatype Exception = NoSuchElement

  /** A value, or the exception a Java call would have thrown instead. */
  datatype Result<+T> = Ok(value: T) | Thrown(error: Exception)
}
