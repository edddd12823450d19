/** System.Guid, as far as the service uses it: a 128-bit value and its "N" text form. */
module Guids {
  import opened Numerals

  type UInt32 = x: nat | x < 0x1_0000_0000
  type UInt16 = x: nat | x < 0x1_0000
  type Byte = x: nat | x < 0x100

  /** The fields of System.Guid in declaration order: `a` (int), `b` and `c` (short),
      then the bytes `d` to `k`. */
  datatype Guid = Guid(a: UInt32, b: UInt16, c: UInt16,
                       d: Byte, e: Byte, f: Byte, g: Byte, h: Byte, i: Byte, j: Byte, k: Byte)

  /** Guid.ToString("N"): 32 lowercase hex digits without hyphens, `a` first. */
  function ToStringN(x: Guid): (s: string)
    ensures |s| == 32 && AllLowerHex(s)
  {
    Hex(x.a, 8) + Hex(x.b, 4) + Hex(x.c, 4)
      + Hex(x.d, 2) + Hex(x.e, 2) + Hex(x.f, 2) + Hex(x.g, 2)
      + Hex(x.h, 2) + Hex(x.i, 2) + Hex(x.j, 2) + Hex(x.k, 2)
  }
}
