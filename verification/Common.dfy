/** Values shared by every module of the model. */
module Common {
  datatype Option<+T> = None | Some(value: T)

  /** Times and durations of the database and of Redis, in whole seconds. */
  const MINUTE := 60
  const HOUR := 60 * MINUTE
  const DAY := 24 * HOUR
}
