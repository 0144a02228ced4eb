/** Small types and constants shared by the models. */
module Common {
  datatype Option<+T> = None | Some(value: T)

  datatype Result<+T> = Ok(value: T) | Err

  /** time.Time{}, the zero time; clock readings are nanoseconds after it. */
  const ZERO_TIME: int := 0

  /** The largest time.Duration, about 292 years. */
  const MAX_DURATION: int := 0x7fff_ffff_ffff_ffff
}
