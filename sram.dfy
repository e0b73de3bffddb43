/** The battery-backed SRAM save chip (sram.rs): a fixed 64 KiB buffer with
    bounds-checked byte access. */
module SramStorage {
  import opened Common
  import SaveTypes

  /** The chip always holds exactly 64 KiB. */
  const SRAM_SIZE: nat := 0x1_0000

  /** `vec![0; 0x10000]`: the buffer of a blank chip. */
  function Zeroed(): (r: seq<byte>)
    ensures |r| == SRAM_SIZE
    ensures forall i | 0 <= i < |r| :: r[i] == 0
  {
    seq(SRAM_SIZE, _ => 0)
  }

  /** The buffer `Sram::new` builds from the optional seed bytes of a save file:
      the seed is kept only when it is exactly 64 KiB long. */
  function SramNew(seed: Option<seq<byte>>): (r: seq<byte>)
    ensures |r| == SRAM_SIZE
    ensures seed.Some? && |seed.value| == SRAM_SIZE ==> r == seed.value
    ensures !(seed.Some? && |seed.value| == SRAM_SIZE) ==> r == Zeroed()
  {
    match seed
    case None => Zeroed()
    case Some(bytes) => if |bytes| != SRAM_SIZE then Zeroed() else bytes
  }

  /** The byte `read(addr)` returns from buffer `data`: out-of-range offsets
      read as the sentinel 0xFF. */
  function SramRead(data: seq<byte>, addr: u32): byte
    requires |data| == SRAM_SIZE
  {
    if addr < SRAM_SIZE then data[addr] else 0xFF
  }

  /** The buffer after `write(addr, value)`: out-of-range offsets are ignored. */
  function SramWrite(data: seq<byte>, addr: u32, value: byte): (r: seq<byte>)
    requires |data| == SRAM_SIZE
    ensures |r| == SRAM_SIZE
    ensures forall i | 0 <= i < SRAM_SIZE && i != addr :: r[i] == data[i]
    ensures addr < SRAM_SIZE ==> r[addr] == value
    ensures addr >= SRAM_SIZE ==> r == data
  {
    if addr < SRAM_SIZE then data[addr := value] else data
  }

  /** Reading back after a write: an in-range write is seen at its own offset
      and nowhere else, an out-of-range one is seen nowhere. */
  lemma ReadAfterWrite(data: seq<byte>, addr: u32, value: byte, other: u32)
    requires |data| == SRAM_SIZE
    ensures SramRead(SramWrite(data, addr, value), other)
         == if other == addr && addr < SRAM_SIZE then value else SramRead(data, other)
  {
  }

  /** An SRAM chip. The vector is never replaced or resized, so it is a constant
      reference to an array whose bytes `Write` changes in place. */
  class Sram {
    const data: array<byte>

    ghost predicate Valid()
    {
      data.Length == SRAM_SIZE
    }

    /** `Sram::new(storage)`. */
    constructor (seed: Option<seq<byte>>)
      ensures Valid() && fresh(data)
      ensures data[..] == SramNew(seed)
    {
      var init := SramNew(seed);
      data := new byte[SRAM_SIZE](i requires 0 <= i < SRAM_SIZE => init[i]);
    }

    /** `Sram::default()`: a zero-filled chip. */
    constructor Default()
      ensures Valid() && fresh(data)
      ensures data[..] == Zeroed()
    {
      data := new byte[SRAM_SIZE](_ => 0);
    }

    function Read(addr: u32): (r: byte)
      reads data
      requires Valid()
      ensures r == SramRead(data[..], addr)
    {
      if addr < SRAM_SIZE then data[addr] else 0xFF
    }

    method Write(addr: u32, value: byte)
      requires Valid()
      modifies data
      ensures data[..] == SramWrite(old(data[..]), addr, value)
    {
      if addr < SRAM_SIZE {
        data[addr] := value;
      }
    }

    /** The raw image handed to the persistence layer: exactly what a read at
        each in-range offset returns. */
    function GetData(): (r: seq<byte>)
      reads data
      requires Valid()
      ensures |r| == SRAM_SIZE
      ensures forall addr: u32 | addr < SRAM_SIZE :: r[addr] == Read(addr)
    {
      data[..]
    }

    function GetType(): (t: SaveTypes.SaveType)
      ensures t == SaveTypes.SRAM
    {
      SaveTypes.SRAM
    }

    function StorageType(): (name: string)
      ensures name == "SRAM (64K)"
    {
      "SRAM (64K)"
    }
  }
}
