/** Machine-level types shared by the queue and scheduler models. */
module CTypes {

  /** A C `unsigned int` on the 32-bit-int platforms the simulator targets. */
  type U32 = x: int | 0 <= x < 0x1_0000_0000

  /** The largest value of a C `int`. */
  const IntMax: int := 0x7FFF_FFFF

  /** A value that may be absent, such as an out-parameter a call did not write. */
  datatype Option<+T> = None | Some(value: T)
}
