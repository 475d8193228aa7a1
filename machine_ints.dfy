/** Fixed-width unsigned integers of the C++ source, as subset types of `int`. */
module MachineInts {
  const U8_LIMIT: int := 0x100
  const U16_LIMIT: int := 0x1_0000
  const U32_LIMIT: int := 0x1_0000_0000
  const U64_LIMIT: int := 0x1_0000_0000_0000_0000

  /** `uint8_t`, `u_int8_t`, `unsigned char` (the source's `Byte`). */
  type u8 = x: int | 0 <= x < U8_LIMIT
  /** `uint16_t`. */
  type u16 = x: int | 0 <= x < U16_LIMIT
  /** `unsigned long` on the 32-bit microcontroller targets. */
  type u32 = x: int | 0 <= x < U32_LIMIT
  /** `uint64_t`, the result of one draw of the 64-bit Mersenne twister. */
  type u64 = x: int | 0 <= x < U64_LIMIT
}
