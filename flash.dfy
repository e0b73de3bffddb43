/** The command-driven NOR flash save chip (flash.rs): a 64 KiB (SST 39SF512)
    or 128 KiB (Sanyo LE26FV10N1TS) buffer, a bank register selecting a 64 KiB
    window of it, a read mode and the JEDEC unlock-sequence state machine that
    `write` drives. */
module FlashStorage {
  import opened Common
  import SaveTypes

  const BANK_SIZE: nat := 0x1_0000
  const SECTOR_SIZE: nat := 0x1000
  const FLASH_64K: nat := 64 * 1024
  const FLASH_128K: nat := 128 * 1024

  /** Whether a pending command is an erase sub-command. */
  datatype CommandContext = None | Erase

  /** The protocol state. `step` counts the unlock bytes seen so far. */
  datatype State =
    | WaitForCommand(step: nat, ctx: CommandContext)
    | WriteSingleByte
    | BankChange

  datatype ReadMode = Data | ChipId

  /** The whole state of one chip, as a value. */
  datatype FlashState = FlashState(state: State, readMode: ReadMode, bank: nat, data: seq<byte>)

  /** `WaitForCommand(0, None)`: where every completed command returns to. */
  const Ready: State := WaitForCommand(0, CommandContext.None)

  predicate KnownSize(size: nat)
  {
    size == FLASH_64K || size == FLASH_128K
  }

  /** What every constructed chip keeps: a supported buffer size, a bank whose
      64 KiB window lies inside the buffer, and an unlock step of at most 2. */
  ghost predicate Invariant(s: FlashState)
  {
    && KnownSize(|s.data|)
    && s.bank * BANK_SIZE + BANK_SIZE <= |s.data|
    && (s.state.WaitForCommand? ==> s.state.step <= 2)
  }

  /** `bank * 0x10000 + (addr & 0xFFFF)`: the buffer index an access targets. */
  function Offset(bank: nat, addr: u32): nat
  {
    bank * BANK_SIZE + addr % BANK_SIZE
  }

  /** `vec![0xFF; size]`: an erased buffer. */
  function Erased(size: nat): (r: seq<byte>)
    ensures |r| == size
    ensures forall i | 0 <= i < size :: r[i] == 0xFF
  {
    seq(size, _ => 0xFF)
  }

  /** `data[lo..hi].fill(0xFF)`. */
  function EraseRange(data: seq<byte>, lo: nat, hi: nat): (r: seq<byte>)
    requires lo <= hi <= |data|
    ensures |r| == |data|
    ensures forall i | 0 <= i < |data| :: r[i] == if lo <= i < hi then 0xFF else data[i]
  {
    data[..lo] + Erased(hi - lo) + data[hi..]
  }

  /** `Flash::new(size, storage)`: the seed is kept only when its length is
      exactly `size`; otherwise the chip starts erased. */
  function FlashNew(size: nat, seed: Option<seq<byte>>): (r: FlashState)
    ensures r.state == Ready && r.readMode == Data && r.bank == 0
    ensures |r.data| == size
    ensures seed.Some? && |seed.value| == size ==> r.data == seed.value
    ensures !(seed.Some? && |seed.value| == size) ==> r.data == Erased(size)
  {
    var data :=
      match seed
      case None => Erased(size)
      case Some(bytes) => if |bytes| != size then Erased(size) else bytes;
    FlashState(Ready, Data, 0, data)
  }

  /** The identification byte at bank-relative offset `addr` of a chip whose
      buffer holds `size` bytes: manufacturer and device code at offsets 0 and
      1 (SST 0xBF/0xD4 for 64 KiB, Sanyo 0x62/0x13 otherwise), 0 elsewhere. */
  function ChipIdByte(size: nat, addr: nat): byte
  {
    if size == FLASH_64K then
      if addr == 0 then 0xBF else if addr == 1 then 0xD4 else 0
    else
      if addr == 0 then 0x62 else if addr == 1 then 0x13 else 0
  }

  /** The byte `read(addr)` returns. */
  function FlashRead(s: FlashState, addr: u32): byte
  {
    var idx := Offset(s.bank, addr);
    match s.readMode
    case ChipId => ChipIdByte(|s.data|, addr % BANK_SIZE)
    case Data => if idx >= |s.data| then 0xFF else s.data[idx]
  }

  /** A bank-select write must go to address 0 (`assert_eq!(addr, 0)` on the
      masked address); every other write is accepted. */
  predicate WriteAllowed(s: FlashState, addr: u32)
  {
    s.state.BankChange? ==> addr % BANK_SIZE == 0
  }

  /** The state after `write(addr, value)`. The arms of the command match are
      tried in the order of the source, so 0x80, 0xA0 and 0xB0 are accepted in
      either context, 0x90 and 0xF0 only outside an erase, and a write that
      matches no arm leaves the whole chip as it was. */
  function FlashWrite(s: FlashState, addr: u32, value: byte): (r: FlashState)
    requires Invariant(s) && WriteAllowed(s, addr)
    ensures Invariant(r)
    ensures |r.data| == |s.data|
  {
    var a := addr % BANK_SIZE;
    var idx := s.bank * BANK_SIZE + a;
    match s.state
    case WaitForCommand(step, ctx) =>
      if step == 0 && a == 0x5555 && value == 0xAA then
        s.(state := WaitForCommand(1, ctx))
      else if step == 1 && a == 0x2AAA && value == 0x55 then
        s.(state := WaitForCommand(2, ctx))
      else if step == 2 && a == 0x5555 && value == 0x90 && ctx == CommandContext.None then
        s.(readMode := ChipId, state := Ready)
      else if step == 2 && a == 0x5555 && value == 0xF0 && ctx == CommandContext.None then
        s.(readMode := Data, state := Ready)
      else if step == 2 && a == 0x5555 && value == 0x80 then
        s.(state := WaitForCommand(0, Erase))
      else if step == 2 && a == 0x5555 && value == 0x10 && ctx == Erase then
        s.(data := Erased(|s.data|), state := Ready)
      else if step == 2 && value == 0x30 && ctx == Erase then
        var start := s.bank * BANK_SIZE + (a / SECTOR_SIZE) * SECTOR_SIZE;
        s.(data := EraseRange(s.data, start, start + SECTOR_SIZE), state := Ready)
      else if step == 2 && a == 0x5555 && value == 0xA0 then
        s.(state := WriteSingleByte)
      else if step == 2 && a == 0x5555 && value == 0xB0 then
        s.(state := BankChange)
      else
        s
    case WriteSingleByte =>
      if idx >= |s.data| then s
      else s.(data := s.data[idx := s.data[idx] & value], state := Ready)
    case BankChange =>
      // `(len / (64 * 1024)) as u8`
      var maxBanks := (|s.data| / BANK_SIZE) % 0x100;
      if value as int >= maxBanks then s.(state := Ready)
      else s.(bank := value as int, state := Ready)
  }

  /** `get_type`, a function of the buffer length alone. */
  function FlashGetType(s: FlashState): (t: SaveTypes.SaveType)
    requires KnownSize(|s.data|)
    ensures t == SaveTypes.Flash64K <==> |s.data| == FLASH_64K
    ensures t == SaveTypes.Flash128K <==> |s.data| == FLASH_128K
  {
    if |s.data| == FLASH_64K then SaveTypes.Flash64K else SaveTypes.Flash128K
  }

  /** `storage_type`, the display label, a function of the buffer length alone. */
  function FlashStorageType(s: FlashState): (name: string)
    requires KnownSize(|s.data|)
    ensures name == "FLASH (512K)" <==> |s.data| == FLASH_64K
    ensures name == "FLASH (1M)" <==> |s.data| == FLASH_128K
  {
    if |s.data| == FLASH_64K then "FLASH (512K)" else "FLASH (1M)"
  }

  /** `slice.fill(0xFF)` on `a[lo..hi]`, in place. */
  method Fill(a: array<byte>, lo: nat, hi: nat)
    requires lo <= hi <= a.Length
    modifies a
    ensures a[..] == EraseRange(old(a[..]), lo, hi)
  {
    var i := lo;
    while i < hi
      invariant lo <= i <= hi
      invariant forall k | 0 <= k < a.Length :: a[k] == if lo <= k < i then 0xFF else old(a[k])
    {
      a[i] := 0xFF;
      i := i + 1;
    }
  }

  /** A flash chip. The buffer is never replaced or resized, so it is a
      constant reference to an array whose bytes change in place. */
  class Flash {
    var state: State
    var readMode: ReadMode
    var bank: nat
    const data: array<byte>

    /** The chip's state as a value. */
    function Model(): FlashState
      reads this, data
    {
      FlashState(state, readMode, bank, data[..])
    }

    ghost predicate Valid()
      reads this, data
    {
      Invariant(Model())
    }

    /** `Flash::new(size, storage)`; only the two sizes a memory map asks for
        give a chip whose invariant holds. */
    constructor (size: nat, seed: Option<seq<byte>>)
      ensures fresh(data)
      ensures Model() == FlashNew(size, seed)
      ensures KnownSize(size) ==> Valid()
    {
      var init := FlashNew(size, seed).data;
      data := new byte[size](i requires 0 <= i < size => init[i]);
      state, readMode, bank := Ready, Data, 0;
    }

    function Read(addr: u32): (r: byte)
      reads this, data
      ensures r == FlashRead(Model(), addr)
    {
      var a := addr % BANK_SIZE;
      var idx := bank * BANK_SIZE + a;
      match readMode
      case ChipId => ChipIdByte(data.Length, a)
      case Data => if idx >= data.Length then 0xFF else data[idx]
    }

    method Write(addr: u32, value: byte)
      requires Valid() && WriteAllowed(Model(), addr)
      modifies this, data
      ensures Valid()
      ensures Model() == FlashWrite(old(Model()), addr, value)
    {
      match state {
        case WaitForCommand(step, ctx) => Command(step, ctx, addr, value);
        case WriteSingleByte => Program(addr, value);
        case BankChange => SelectBank(addr, value);
      }
    }

    /** The `WaitForCommand(step, ctx)` arm of `write`. */
    method Command(step: nat, ctx: CommandContext, addr: u32, value: byte)
      requires Valid() && state == WaitForCommand(step, ctx)
      modifies this, data
      ensures Valid()
      ensures Model() == FlashWrite(old(Model()), addr, value)
    {
      var a := addr % BANK_SIZE;
      if step == 0 && a == 0x5555 && value == 0xAA {
        state := WaitForCommand(1, ctx);
      } else if step == 1 && a == 0x2AAA && value == 0x55 {
        state := WaitForCommand(2, ctx);
      } else if step == 2 && a == 0x5555 && value == 0x90 && ctx == CommandContext.None {
        readMode := ChipId;
        state := Ready;
      } else if step == 2 && a == 0x5555 && value == 0xF0 && ctx == CommandContext.None {
        readMode := Data;
        state := Ready;
      } else if step == 2 && a == 0x5555 && value == 0x80 {
        state := WaitForCommand(0, Erase);
      } else if step == 2 && a == 0x5555 && value == 0x10 && ctx == Erase {
        Fill(data, 0, data.Length);
        assert data[..] == Erased(data.Length);
        state := Ready;
      } else if step == 2 && value == 0x30 && ctx == Erase {
        var sector := a / SECTOR_SIZE;
        var start := bank * BANK_SIZE + sector * SECTOR_SIZE;
        Fill(data, start, start + SECTOR_SIZE);
        state := Ready;
      } else if step == 2 && a == 0x5555 && value == 0xA0 {
        state := WriteSingleByte;
      } else if step == 2 && a == 0x5555 && value == 0xB0 {
        state := BankChange;
      }
    }

    /** The `WriteSingleByte` arm of `write`: flash programming can only clear
        bits, so the byte is ANDed with the value. */
    method Program(addr: u32, value: byte)
      requires Valid() && state == WriteSingleByte
      modifies this, data
      ensures Valid()
      ensures Model() == FlashWrite(old(Model()), addr, value)
    {
      var idx := bank * BANK_SIZE + addr % BANK_SIZE;
      if idx >= data.Length {
        return;
      }
      data[idx] := data[idx] & value;
      state := Ready;
    }

    /** The `BankChange` arm of `write`. */
    method SelectBank(addr: u32, value: byte)
      requires Valid() && state == BankChange && addr % BANK_SIZE == 0
      modifies this
      ensures Valid()
      ensures Model() == FlashWrite(old(Model()), addr, value)
    {
      var maxBanks := (data.Length / BANK_SIZE) % 0x100;
      if value as int >= maxBanks {
        state := Ready;
        return;
      }
      bank := value as int;
      state := Ready;
    }

    function GetData(): (r: seq<byte>)
      reads this, data
      ensures r == Model().data
    {
      data[..]
    }

    function GetType(): (t: SaveTypes.SaveType)
      reads this, data
      requires KnownSize(data.Length)
      ensures t == FlashGetType(Model())
    {
      if data.Length == 64 * 1024 then SaveTypes.Flash64K else SaveTypes.Flash128K
    }

    function StorageType(): (name: string)
      reads this, data
      requires KnownSize(data.Length)
      ensures name == FlashStorageType(Model())
    {
      if data.Length == 64 * 1024 then "FLASH (512K)" else "FLASH (1M)"
    }
  }
}
