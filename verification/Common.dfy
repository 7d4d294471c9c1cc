/** Vocabulary shared by every other module. */
module Common {

  datatype Option<+T> = None | Some(value: T)

  /** A reading of the (monotone) clock, in nanoseconds. */
  type Time = int

  const SECOND: Time := 1_000_000_000
  const MINUTE: Time := 60 * SECOND
  const HOUR: Time := 60 * MINUTE

  lemma Units()
    ensures SECOND == 1_000_000_000 && MINUTE == 60_000_000_000 && HOUR == 3_600_000_000_000
  {
  }
}
