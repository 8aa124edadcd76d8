/** Machine-level value types shared by the TCS3472 model. */
module Base {

  /** An unsigned 8-bit register value (`uint8_t`). */
  type byte = x: int | 0 <= x < 0x100

  /** An unsigned 16-bit channel value (`uint16_t`). */
  type u16 = x: int | 0 <= x < 0x1_0000

  /** A value that may be absent, used for decoding a byte that need not be a valid code. */
  datatype Option<+T> = None | Some(value: T)
}
