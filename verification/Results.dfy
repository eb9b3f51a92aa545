/** What a future is completed with: a value, or the error or exception that took its place. */
module Results {
  datatype Result = Value(value: int) | Error(error: int)
}
