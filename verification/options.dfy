/** The two shapes every other module uses: an optional value, and how a call ended. */
module Options {
  datatype Option<+T> = None | Some(value: T)

  /** How a call ended. `Fail` is an error return. `Crash` means that the process died
      somewhere in the call, so nothing of the caller's code runs after it. */
  datatype Outcome = Ok | Fail | Crash
}
