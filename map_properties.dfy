/** Properties of address routing and device substitution (map.rs). */
module MemoryProperties {
  import opened Common
  import SaveTypes
  import S = SramStorage
  import F = FlashStorage
  import opened SaveDevice
  import opened Memory

  /** Outside the save region a read returns 0xFF and a write leaves the
      device exactly as it was. */
  lemma OutsideWindowIgnored(d: DeviceValue, addr: u32, value: byte)
    requires ValueInvariant(d) && !InSaveWindow(addr)
    ensures MapRead(d, addr) == 0xFF
    ensures MapWrite(d, addr, value) == d
  {
  }

  /** Reading back through the map after an SRAM write in range: the written
      value, and every other address of the bus is unaffected. */
  lemma SramReadBackThroughMap(bytes: seq<byte>, addr: u32, value: byte, other: u32)
    requires |bytes| == S.SRAM_SIZE
    requires InSaveWindow(addr) && Relative(addr) < S.SRAM_SIZE
    ensures MapRead(MapWrite(SramValue(bytes), addr, value), addr) == value
    ensures Relative(other) != Relative(addr) || !InSaveWindow(other) ==>
      MapRead(MapWrite(SramValue(bytes), addr, value), other) == MapRead(SramValue(bytes), other)
  {
    S.ReadAfterWrite(bytes, Relative(addr), value, Relative(addr));
    S.ReadAfterWrite(bytes, Relative(addr), value, Relative(other));
  }

  /** SRAM rejects relative offsets of 0x10000 and above: they read 0xFF and
      writes to them are dropped. */
  lemma SramRejectsHighOffsets(bytes: seq<byte>, addr: u32, value: byte)
    requires |bytes| == S.SRAM_SIZE
    requires InSaveWindow(addr) && Relative(addr) >= S.SRAM_SIZE
    ensures MapRead(SramValue(bytes), addr) == 0xFF
    ensures MapWrite(SramValue(bytes), addr, value) == SramValue(bytes)
  {
  }

  /** The bus address in the save region with relative offset `offset`. */
  function SaveAddress(offset: nat): (addr: u32)
    requires offset < 0x100_0000
    ensures InSaveWindow(addr) && Relative(addr) == offset
  {
    SAVE_REGION * 0x100_0000 + offset
  }

  /** Flash aliases the save region modulo 0x10000: every address in it
      behaves, for reads and writes, as the address with the same low 16
      bits at the bottom of the region. */
  lemma FlashAliasesHighOffsets(f: F.FlashState, addr: u32, value: byte)
    requires F.Invariant(f) && InSaveWindow(addr)
    ensures var alias := SaveAddress(addr % 0x1_0000);
      && MapRead(FlashValue(f), addr) == MapRead(FlashValue(f), alias)
      && (MapWriteAllowed(FlashValue(f), addr) <==> MapWriteAllowed(FlashValue(f), alias))
      && (MapWriteAllowed(FlashValue(f), addr) ==>
           MapWrite(FlashValue(f), addr, value) == MapWrite(FlashValue(f), alias, value))
  {
    var alias := SaveAddress(addr % 0x1_0000);
    assert Relative(addr) % 0x1_0000 == addr % 0x1_0000;
    assert Relative(alias) == addr % 0x1_0000;
  }

  /** `None` installs a blank SRAM chip whatever seed is given. */
  lemma InstallNoneIgnoresSeed(seed: Option<seq<byte>>)
    ensures Install(SaveTypes.None, seed) == SramValue(S.Zeroed())
    ensures Install(SaveTypes.None, seed) == Install(SaveTypes.None, Option.None)
  {
  }

  /** The EEPROM kinds fall back to an SRAM chip built from the seed. */
  lemma InstallEepromFallsBack(saveType: SaveTypes.SaveType, seed: Option<seq<byte>>)
    requires saveType == SaveTypes.EEPROM4K || saveType == SaveTypes.EEPROM64K
    ensures Install(saveType, seed) == Install(SaveTypes.SRAM, seed)
    ensures ValueType(Install(saveType, seed)) == SaveTypes.SRAM
  {
  }

  /** `set_save_device(EEPROM4K, None)`: an SRAM device of 65536 zero bytes. */
  lemma EepromWithoutSeed()
    ensures var d := Install(SaveTypes.EEPROM4K, Option.None);
      && ValueType(d) == SaveTypes.SRAM
      && |ValueData(d)| == 0x1_0000
      && forall i | 0 <= i < 0x1_0000 :: ValueData(d)[i] == 0
  {
  }

  /** The two flash types install a fresh chip of 64 KiB or 128 KiB that waits
      for a command in data mode on bank 0, holding the seed when its length
      matches and erased bytes otherwise. */
  lemma InstallFlash(saveType: SaveTypes.SaveType, seed: Option<seq<byte>>)
    requires saveType == SaveTypes.Flash64K || saveType == SaveTypes.Flash128K
    ensures var size := if saveType == SaveTypes.Flash64K then 0x1_0000 else 0x2_0000;
      && Install(saveType, seed).FlashValue?
      && var f := Install(saveType, seed).flash;
      && f.state == F.Ready && f.readMode == F.Data && f.bank == 0
      && |f.data| == size
      && (seed.Some? && |seed.value| == size ==> f.data == seed.value)
      && (!(seed.Some? && |seed.value| == size) ==> forall i | 0 <= i < size :: f.data[i] == 0xFF)
  {
  }
}
