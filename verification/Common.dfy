/** Types shared by all modules. */
module Common {
  datatype Option<+T> = None | Some(value: T)

  datatype Result<+T, +E> = Ok(value: T) | Err(error: E)

  type Byte = b: int | 0 <= b < 256

  // What one run's evidence may hold (internal/evidence/evidence.go:18-21).
  const MAX_BYTES: nat := 8 * 1024 * 1024
  const MAX_EVENTS: nat := 4096

  /** How an atomic publication ends: done, failed before the rename, or failed after it. */
  datatype SaveOutcome = Saved | Lost | Unsure

  /** What firecracker.InspectProcess says of a recorded identity. */
  datatype Inspection = Gone | Foreign | Alive
}
