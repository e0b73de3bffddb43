/** The `SaveDevice` capability (device.rs), closed over its two
    implementations: a device is either an SRAM chip or a flash chip, and each
    trait operation dispatches on which. */
module SaveDevice {
  import opened Common
  import SaveTypes
  import S = SramStorage
  import F = FlashStorage

  // ---------------------------------------------------------------------------
  // The device as a value

  /** The state of the installed device: an SRAM buffer, or a flash chip. */
  datatype DeviceValue = SramValue(bytes: seq<byte>) | FlashValue(flash: F.FlashState)

  ghost predicate ValueInvariant(d: DeviceValue)
  {
    match d
    case SramValue(bytes) => |bytes| == S.SRAM_SIZE
    case FlashValue(f) => F.Invariant(f)
  }

  /** `read(addr)`; it takes `&self`, so it yields a byte and no new device. */
  function ValueRead(d: DeviceValue, addr: u32): byte
    requires ValueInvariant(d)
  {
    match d
    case SramValue(bytes) => S.SramRead(bytes, addr)
    case FlashValue(f) => F.FlashRead(f, addr)
  }

  /** The only precondition a write has: a flash bank select goes to 0. */
  predicate ValueWriteAllowed(d: DeviceValue, addr: u32)
  {
    d.FlashValue? ==> F.WriteAllowed(d.flash, addr)
  }

  /** `write(addr, value)`, the one operation that changes a device; it keeps
      the device's kind, its invariant and its buffer length. */
  function ValueWrite(d: DeviceValue, addr: u32, value: byte): (r: DeviceValue)
    requires ValueInvariant(d) && ValueWriteAllowed(d, addr)
    ensures ValueInvariant(r)
    ensures r.SramValue? <==> d.SramValue?
    ensures |ValueData(r)| == |ValueData(d)|
  {
    match d
    case SramValue(bytes) => SramValue(S.SramWrite(bytes, addr, value))
    case FlashValue(f) => FlashValue(F.FlashWrite(f, addr, value))
  }

  /** `get_data()`: the raw buffer. */
  function ValueData(d: DeviceValue): seq<byte>
  {
    match d
    case SramValue(bytes) => bytes
    case FlashValue(f) => f.data
  }

  /** `get_type()`: it agrees with the buffer length, 64 KiB for SRAM and
      the small flash chip, 128 KiB for the large one. */
  function ValueType(d: DeviceValue): (t: SaveTypes.SaveType)
    requires ValueInvariant(d)
    ensures t == SaveTypes.SRAM <==> d.SramValue?
    ensures t == SaveTypes.Flash64K || t == SaveTypes.SRAM <==> |ValueData(d)| == 0x1_0000
    ensures t == SaveTypes.Flash128K <==> |ValueData(d)| == 0x2_0000
  {
    match d
    case SramValue(_) => SaveTypes.SRAM
    case FlashValue(f) => F.FlashGetType(f)
  }

  /** `storage_type()`: the display label of the device. */
  function ValueLabel(d: DeviceValue): (name: string)
    requires ValueInvariant(d)
    ensures d.SramValue? ==> name == "SRAM (64K)"
    ensures d.FlashValue? ==> name == F.FlashStorageType(d.flash)
  {
    match d
    case SramValue(_) => "SRAM (64K)"
    case FlashValue(f) => F.FlashStorageType(f)
  }

  // ---------------------------------------------------------------------------
  // The device as an object

  /** `Box<dyn SaveDevice>`: the one installed chip. */
  datatype Device = SramDev(sram: S.Sram) | FlashDev(flash: F.Flash)

  /** The objects a device's operations may touch. */
  ghost function Footprint(d: Device): set<object>
  {
    match d
    case SramDev(s) => {s, s.data}
    case FlashDev(f) => {f, f.data}
  }

  ghost predicate Valid(d: Device)
    reads Footprint(d)
  {
    match d
    case SramDev(s) => s.Valid()
    case FlashDev(f) => f.Valid()
  }

  ghost function Model(d: Device): DeviceValue
    reads Footprint(d)
  {
    match d
    case SramDev(s) => SramValue(s.data[..])
    case FlashDev(f) => FlashValue(f.Model())
  }

  function Read(d: Device, addr: u32): (r: byte)
    reads Footprint(d)
    requires Valid(d)
    ensures ValueInvariant(Model(d))
    ensures r == ValueRead(Model(d), addr)
  {
    match d
    case SramDev(s) => s.Read(addr)
    case FlashDev(f) => f.Read(addr)
  }

  method Write(d: Device, addr: u32, value: byte)
    requires Valid(d) && ValueWriteAllowed(Model(d), addr)
    modifies Footprint(d)
    ensures Valid(d)
    ensures Model(d) == ValueWrite(old(Model(d)), addr, value)
  {
    match d {
      case SramDev(s) => s.Write(addr, value);
      case FlashDev(f) => f.Write(addr, value);
    }
  }

  function GetData(d: Device): (r: seq<byte>)
    reads Footprint(d)
    requires Valid(d)
    ensures r == ValueData(Model(d))
  {
    match d
    case SramDev(s) => s.GetData()
    case FlashDev(f) => f.GetData()
  }

  function GetType(d: Device): (t: SaveTypes.SaveType)
    reads Footprint(d)
    requires Valid(d)
    ensures ValueInvariant(Model(d))
    ensures t == ValueType(Model(d))
  {
    match d
    case SramDev(s) => s.GetType()
    case FlashDev(f) => f.GetType()
  }

  function StorageType(d: Device): (name: string)
    reads Footprint(d)
    requires Valid(d)
    ensures ValueInvariant(Model(d))
    ensures name == ValueLabel(Model(d))
  {
    match d
    case SramDev(s) => s.StorageType()
    case FlashDev(f) => f.StorageType()
  }
}
