/** The save-device part of the GBA memory map (map.rs): it decodes the top
    byte of a bus address, forwards accesses in the save region to the active
    device with a 24-bit relative offset, and swaps the device wholesale. */
module Memory {
  import opened Common
  import SaveTypes
  import S = SramStorage
  import F = FlashStorage
  import opened SaveDevice

  /** The top address byte of the cartridge save region (0x0E000000). */
  const SAVE_REGION: nat := 0x0E

  /** `addr & 0xFF000000 == 0x0E000000`. */
  predicate InSaveWindow(addr: u32)
  {
    addr / 0x100_0000 == SAVE_REGION
  }

  /** `addr & 0x00FFFFFF`: the offset handed to the device. */
  function Relative(addr: u32): u32
  {
    addr % 0x100_0000
  }

  /** The device `set_save_device(save_type, data)` installs: it reports the
      requested type for SRAM and the two flash sizes, and SRAM for None and
      the unsupported EEPROM kinds. */
  function Install(saveType: SaveTypes.SaveType, seed: Option<seq<byte>>): (r: DeviceValue)
    ensures ValueInvariant(r)
    ensures ValueType(r) == match saveType
                            case Flash64K => SaveTypes.Flash64K
                            case Flash128K => SaveTypes.Flash128K
                            case _ => SaveTypes.SRAM
  {
    match saveType
    case None => SramValue(S.Zeroed())
    case SRAM => SramValue(S.SramNew(seed))
    case Flash64K => FlashValue(F.FlashNew(F.FLASH_64K, seed))
    case Flash128K => FlashValue(F.FlashNew(F.FLASH_128K, seed))
    case _ => SramValue(S.SramNew(seed))
  }

  /** `read_byte(addr)`. */
  function MapRead(d: DeviceValue, addr: u32): byte
    requires ValueInvariant(d)
  {
    if InSaveWindow(addr) then ValueRead(d, Relative(addr)) else 0xFF
  }

  predicate MapWriteAllowed(d: DeviceValue, addr: u32)
  {
    InSaveWindow(addr) ==> ValueWriteAllowed(d, Relative(addr))
  }

  /** `write_byte(addr, value)`. */
  function MapWrite(d: DeviceValue, addr: u32, value: byte): (r: DeviceValue)
    requires ValueInvariant(d) && MapWriteAllowed(d, addr)
    ensures ValueInvariant(r)
  {
    if InSaveWindow(addr) then ValueWrite(d, Relative(addr), value) else d
  }

  /** The memory map; of its regions only the save device is modelled. */
  class MemoryMap {
    var saveDevice: Device

    ghost predicate Valid()
      reads this, Footprint(saveDevice)
    {
      SaveDevice.Valid(saveDevice)
    }

    ghost function Model(): DeviceValue
      reads this, Footprint(saveDevice)
    {
      SaveDevice.Model(saveDevice)
    }

    /** `MemoryMap::new()`: a zero-filled SRAM chip. */
    constructor ()
      ensures Valid() && fresh(Footprint(saveDevice))
      ensures Model() == SramValue(S.Zeroed())
    {
      var sram := new S.Sram.Default();
      saveDevice := SramDev(sram);
    }

    /** Builds a new device and installs it, discarding the old one. */
    method SetSaveDevice(saveType: SaveTypes.SaveType, seed: Option<seq<byte>>)
      modifies this
      ensures Valid() && fresh(Footprint(saveDevice))
      ensures Model() == Install(saveType, seed)
    {
      if saveType == SaveTypes.None {
        var sram := new S.Sram.Default();
        saveDevice := SramDev(sram);
      } else if saveType == SaveTypes.SRAM {
        var sram := new S.Sram(seed);
        saveDevice := SramDev(sram);
      } else if saveType == SaveTypes.Flash64K {
        var flash := new F.Flash(64 * 1024, seed);
        saveDevice := FlashDev(flash);
      } else if saveType == SaveTypes.Flash128K {
        var flash := new F.Flash(128 * 1024, seed);
        saveDevice := FlashDev(flash);
      } else {
        // EEPROM4K and EEPROM64K are not implemented: fall back to SRAM.
        var sram := new S.Sram(seed);
        saveDevice := SramDev(sram);
      }
    }

    function ReadByte(addr: u32): (r: byte)
      reads this, Footprint(saveDevice)
      requires Valid()
      ensures ValueInvariant(Model())
      ensures r == MapRead(Model(), addr)
    {
      if addr / 0x100_0000 == 0x0E then ReadSave(addr) else 0xFF
    }

    function ReadSave(addr: u32): (r: byte)
      reads this, Footprint(saveDevice)
      requires Valid()
      ensures ValueInvariant(Model())
      ensures r == ValueRead(Model(), Relative(addr))
    {
      var relative := addr % 0x100_0000;
      SaveDevice.Read(saveDevice, relative)
    }

    method WriteByte(addr: u32, value: byte)
      requires Valid() && MapWriteAllowed(Model(), addr)
      modifies Footprint(saveDevice)
      ensures Valid()
      ensures Model() == MapWrite(old(Model()), addr, value)
    {
      if addr / 0x100_0000 == 0x0E {
        WriteSave(addr, value);
      }
    }

    method WriteSave(addr: u32, value: byte)
      requires Valid() && ValueWriteAllowed(Model(), Relative(addr))
      modifies Footprint(saveDevice)
      ensures Valid()
      ensures Model() == ValueWrite(old(Model()), Relative(addr), value)
    {
      var relative := addr % 0x100_0000;
      SaveDevice.Write(saveDevice, relative, value);
    }
  }
}
