/**
 Wrapper types and machine-integer ranges shared by the whole model.
 */
module Common {

  datatype Option<+T> = None | Some(value: T)

  /** The outcome of a Rust function that returns a `Result` whose error value no caller inspects. */
  datatype Result<+T> = Ok(value: T) | Err

  /** The outcome of a call that may panic. */
  datatype Outcome<+T> = Returned(value: T) | Panicked

  const TWO_32: nat := 0x1_0000_0000
  const TWO_63: nat := 0x8000_0000_0000_0000
  const TWO_64: nat := 0x1_0000_0000_0000_0000

  type u32 = x: int | 0 <= x < 0x1_0000_0000
  type u64 = x: int | 0 <= x < 0x1_0000_0000_0000_0000

  /** A Kubernetes workload, as the IP index and the metrics name it. */
  datatype Workload = Workload(name: string, namespace: string, kind: string)
}
