/** Definitions shared by the driver modules. */
module Common {
  datatype Option<+T> = None | Some(value: T)

  /** A byte value read from or written to an I/O port. */
  type Byte = x: int | 0 <= x < 0x100
}
