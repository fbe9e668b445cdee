/** The fixed-width C/C++ integer types that appear in the modelled headers,
    as subset types of the unbounded integers. */
module CTypes {
  /** `int` / `cl_int`: 32-bit two's complement. */
  type Int32 = x: int | -0x8000_0000 <= x < 0x8000_0000

  /** `uint16_t`: image geometry and tolerance. */
  type UInt16 = x: int | 0 <= x < 0x1_0000

  /** `cl_ulong` / `cl_bitfield`, of which `cl_device_type` is an alias. */
  type UInt64 = x: int | 0 <= x < 0x1_0000_0000_0000_0000

  /** `size_t` on a 64-bit host: arithmetic on it wraps modulo this value. */
  const SizeModulus: int := 0x1_0000_0000_0000_0000
  type SizeT = x: int | 0 <= x < SizeModulus

  const Int32Max: int := 0x7FFF_FFFF

  datatype Option<+T> = None | Some(value: T)
}
