/** The few Java notions the domain classes and the use case rely on:
    boxed (nullable) values, 64-bit `Long`, results that either carry a
    value or the exception a constructor throws. */
module Lang {

  /** A Java reference that may be `null`: `None` stands for `null`. */
  datatype Option<+T> = None | Some(value: T)

  /** A call that either returns a value or throws. */
  datatype Result<+T, +E> = Ok(value: T) | Err(error: E)

  const LONG_MIN: int := -0x8000_0000_0000_0000
  const LONG_MAX: int := 0x7FFF_FFFF_FFFF_FFFF

  /** The values of a Java `long`. No arithmetic is done on them in the core,
      only comparisons, so there is no wrap-around to model. */
  type Long = x: int | LONG_MIN <= x <= LONG_MAX

  /** `java.lang.IllegalArgumentException`, identified by its message. */
  datatype IllegalArgumentException = IllegalArgumentException(message: string)
}
