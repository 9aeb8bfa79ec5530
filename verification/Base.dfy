/** Shared by all modules: optional values and the widths of unsigned integers. */
module Base {

  datatype Option<T> = None | Some(value: T)

  const UINT16_MODULUS: nat := 0x1_0000
  const UINT32_MODULUS: nat := 0x1_0000_0000
  const UINT64_MODULUS: nat := 0x1_0000_0000_0000_0000
}
