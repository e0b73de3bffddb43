/** Shared vocabulary of the save-storage model: bytes, 32-bit bus words and
    the optional seed buffer handed to device constructors. */
module Common {

  /** A `u8`: bit-vector so that flash programming can use bitwise AND. */
  type byte = bv8

  /** A `u32` bus address or offset, kept as an integer so that masking with
      `& 0xFFFF`, `& 0x00FFFFFF` and `>> 12` becomes `%` and `/` (see module Bits). */
  type u32 = x: int | 0 <= x < 0x1_0000_0000

  /** Rust's `Option<T>`, used for the optional seed bytes of a save file. */
  datatype Option<T> = None | Some(value: T)
}

/** The address arithmetic of the source is written with bit masks on `u32`;
    the model writes it with unsigned division and remainder. These lemmas
    state, on 32-bit words, that the two spellings agree. */
module Bits {

  /** `addr & 0xFFFF`: the offset inside one 64 KiB flash bank. */
  lemma LowHalfMask(x: bv32)
    ensures x & 0xFFFF == x % 0x1_0000
  {
  }

  /** `addr & 0x00FFFFFF`: the offset relative to a bus region. */
  lemma LowTwentyFourMask(x: bv32)
    ensures x & 0x00FF_FFFF == x % 0x100_0000
  {
  }

  /** `addr & 0xFF000000 == 0x0E000000`: the top byte selects the save region. */
  lemma SaveRegionTag(x: bv32)
    ensures (x & 0xFF00_0000 == 0x0E00_0000) <==> x / 0x100_0000 == 0x0E
  {
  }

  /** `(addr & 0xFFFF) >> 12`: the 4 KiB sector number inside a bank. */
  lemma SectorShift(x: bv32)
    ensures (x & 0xFFFF) >> 12 == (x % 0x1_0000) / 0x1000
  {
  }
}
