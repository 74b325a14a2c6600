/** The fixed-width integer types that the translator's fields and events use. */
module MachineInts {
  const I32Limit: int := 0x8000_0000

  /** Event codes. */
  type u16 = x: int | 0 <= x < 0x1_0000
  /** Coordinates and their bounds. */
  type u32 = x: int | 0 <= x < 0x1_0000_0000
  /** Event values. */
  type i32 = x: int | -I32Limit <= x < I32Limit
  /** The tracking id. */
  type i8 = x: int | -0x80 <= x < 0x80
}
