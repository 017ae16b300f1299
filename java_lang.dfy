/** The few Java value types the blog API's data layer relies on. */
module JavaLang {

  /** A Java reference or boxed value that may be null. */
  datatype Option<+T> = None | Some(value: T)

  /** Java's `long`: the primitive id type of every entity. */
  newtype Long = x: int | -0x8000_0000_0000_0000 <= x < 0x8000_0000_0000_0000

  /** A `java.time.LocalDateTime`, counted in some fixed unit on the local time line.
      The model only copies and compares timestamps, so the unit does not matter. */
  type LocalDateTime = int

  /** The one exception the modelled code can raise. */
  datatype Exception = NullPointerException

  /** A call that either returns a value or throws. */
  datatype Result<+T> = Ok(value: T) | Err(error: Exception)
}
