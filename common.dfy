/** Small wrappers shared by every simulator variant. */
module Common {

  /** A value that may be absent: an unparsable entry field, a retained pose that was never set. */
  datatype Option<+T> = None | Some(value: T)

  /** What a button handler reports. `Done` is the handler's effect taking place; the others are the
      information boxes (`AlreadyRunning`, `NoRun`), the caught `ValueError` of `start`
      (`InvalidInput`), a `ValueError` that escapes the handler (`Raised`) and a file dialog that
      was dismissed (`Cancelled`). */
  datatype Outcome = Done | AlreadyRunning | NoRun | InvalidInput | Raised | Cancelled
}
