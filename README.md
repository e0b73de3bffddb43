# GBA save storage, modelled in Dafny

This project models the save-storage subsystem of a Game Boy Advance emulator
(Rust), and proves properties of the model. The subsystem has four parts:

- **SRAM**: a fixed 64 KiB byte buffer with bounds-checked reads and writes.
- **Flash**: a 64 KiB (SST 39SF512) or 128 KiB (Sanyo LE26FV10N1TS) NOR flash
  chip. It has a bank register, a read mode (data or chip ID) and the JEDEC
  unlock-sequence state machine that bus writes drive. Commands are:
  `0x5555/0xAA`, `0x2AAA/0x55`, then a command byte for ID mode, erase, byte
  program or bank select.
- **The `SaveDevice` capability**: the trait both chips implement, closed here
  over its two implementations.
- **The memory map**: it decodes the top byte of a 32-bit bus address. It
  forwards save-region (`0x0E`) accesses to the installed device with a 24-bit
  relative offset, and swaps that device wholesale in `set_save_device`.

Each source file becomes two layers:

- **A value-level specification.**
  - `FlashState`, `FlashRead` and `FlashWrite` model the flash chip.
  - `SramRead` and `SramWrite`, over `seq<byte>`, model the SRAM chip.
  - `DeviceValue` with `ValueRead` and `ValueWrite` models the capability.
  - `Install`, `MapRead` and `MapWrite` model the memory map.
- **An imperative layer in the source's own shape.** The classes `Sram` and
  `Flash` work on a constant `array<byte>` that is changed in place (`&=`,
  `fill(0xFF)`). The class `MemoryMap` holds a `Device`, which is
  `SramDev(Sram) | FlashDev(Flash)`. Every method and query of these classes is
  proved to agree with the value-level function of the same operation.

The lemmas in `FlashProperties` and `MemoryProperties` state the protocol's
properties on the specification layer. They cover single transitions, whole
command sequences, and any sequence of writes (`Run`).

Modelling choices:

- Bytes are `bv8`, so that programming is a bitwise AND.
- Bus addresses are integers below 2^32. The source's masks
  `& 0xFFFF`, `& 0x00FFFFFF`, `& 0xFF000000 == 0x0E000000` and
  `(.. & 0xFFFF) >> 12` are written as `%` and `/`. The lemmas in module `Bits`
  prove, on `bv32`, that the two spellings agree.
- Two panics of the source are preconditions:
  - `assert_eq!(addr, 0)` in the bank-select state (flash.rs:180) becomes
    `WriteAllowed`;
  - the unsupported flash length in `get_type`/`storage_type` becomes
    `KnownSize`.
- The flash invariant, `Invariant`, has three parts. The length is 64 KiB or
  128 KiB, the bank's 64 KiB window lies inside the buffer, and the unlock step
  is at most 2. Every write preserves it (`FlashWrite`, `Run`). It is what keeps
  the indexing at flash.rs:145 and flash.rs:174 in bounds.
- A programming write whose index falls outside the buffer leaves the chip
  armed in `WriteSingleByte` (flash.rs:166-172), as in the source. Under the
  invariant that branch is unreachable.

Where the design description of the subsystem and the code differ, the
model follows the code:

- Commands 0x80, 0xA0 and 0xB0 are accepted in the erase context too. Their
  match arms have no context guard (`EraseContextQuirks`).
- Erasing takes a second unlock prefix after 0x80, because 0x80 returns the
  chip to step 0 (`ChipEraseSequence`, `SectorEraseSequence`).

## Model

| member | source | states |
|---|---|---|
| `Bits.LowHalfMask` | src/memory/storage/flash.rs:64 | `addr & 0xFFFF` is `addr % 0x10000` on 32-bit words |
| `Bits.LowTwentyFourMask` | src/memory/map.rs:70 | `addr & 0x00FFFFFF` is `addr % 0x1000000` |
| `Bits.SaveRegionTag` | src/memory/map.rs:49-50 | `addr & 0xFF000000 == 0x0E000000` holds exactly when `addr / 0x1000000 == 0x0E` |
| `Bits.SectorShift` | src/memory/storage/flash.rs:142 | `(addr & 0xFFFF) >> 12` is `(addr % 0x10000) / 0x1000` |
| `SramStorage.Zeroed` | src/memory/storage/sram.rs:61-65 | the blank SRAM buffer is 0x10000 zero bytes |
| `SramStorage.SramNew` | src/memory/storage/sram.rs:13-27 | the buffer is always 0x10000 bytes; the seed is kept exactly when it is 0x10000 long, otherwise all zeros |
| `SramStorage.SramWrite` | src/memory/storage/sram.rs:40-46 | an in-range write changes exactly `data[addr]` to the value; an out-of-range write changes nothing; the length never changes |
| `SramStorage.ReadAfterWrite` | src/memory/storage/sram.rs:31-46 | reading back after a write gives the written value at its offset (when in range) and the old byte everywhere else |
| `SramStorage.Sram.constructor` | src/memory/storage/sram.rs:13-27 | `Sram::new` allocates a fresh 64 KiB array holding `SramNew(seed)` |
| `SramStorage.Sram.Default` | src/memory/storage/sram.rs:61-65 | `Sram::default` allocates a fresh zero-filled 64 KiB array |
| `SramStorage.Sram.Read` | src/memory/storage/sram.rs:31-38 | returns `data[addr]` below 0x10000 and 0xFF otherwise, as `SramRead`; as a function it cannot change the buffer |
| `SramStorage.Sram.Write` | src/memory/storage/sram.rs:40-46 | the array afterwards is `SramWrite` of the array before |
| `SramStorage.Sram.GetData` | src/memory/storage/sram.rs:48-50 | the raw image is 0x10000 bytes and agrees with `Read` at every in-range offset |
| `SramStorage.Sram.GetType` | src/memory/storage/sram.rs:52-54 | the type is `SRAM` |
| `SramStorage.Sram.StorageType` | src/memory/storage/sram.rs:56-58 | the label is "SRAM (64K)" |
| `FlashStorage.Erased` | src/memory/storage/flash.rs:45-50 | `vec![0xFF; size]` has `size` bytes, all 0xFF |
| `FlashStorage.EraseRange` | src/memory/storage/flash.rs:145 | filling `[lo, hi)` sets exactly those bytes to 0xFF and keeps the length and every other byte |
| `FlashStorage.FlashNew` | src/memory/storage/flash.rs:37-59 | the buffer has `size` bytes: the seed when its length is `size`, else all 0xFF; the chip starts in `WaitForCommand(0, None)`, data mode, bank 0 |
| `FlashStorage.FlashWrite` | src/memory/storage/flash.rs:107-193 | every write keeps the invariant: the length stays 64 or 128 KiB, the bank stays below the number of banks, the step stays at most 2 |
| `FlashStorage.FlashGetType` | src/memory/storage/flash.rs:199-207 | 65536 bytes map to `Flash64K` and 131072 bytes to `Flash128K`, in both directions |
| `FlashStorage.FlashStorageType` | src/memory/storage/flash.rs:209-217 | 65536 bytes map to "FLASH (512K)" and 131072 bytes to "FLASH (1M)", in both directions |
| `FlashStorage.Fill` | src/memory/storage/flash.rs:138-145 | the in-place fill leaves the array equal to `EraseRange` of the old array |
| `FlashStorage.Flash.constructor` | src/memory/storage/flash.rs:37-59 | the new chip's state is `FlashNew(size, seed)` over a fresh array; its invariant holds for the two supported sizes |
| `FlashStorage.Flash.Read` | src/memory/storage/flash.rs:63-105 | returns `FlashRead` of the chip's state; as a function it changes no field |
| `FlashStorage.Flash.Write` | src/memory/storage/flash.rs:107-193 | the state afterwards is `FlashWrite` of the state before, and the invariant is kept |
| `FlashStorage.Flash.Command` | src/memory/storage/flash.rs:114-162 | the `WaitForCommand` arm, updating fields and the array in place, agrees with `FlashWrite` |
| `FlashStorage.Flash.Program` | src/memory/storage/flash.rs:164-177 | the `WriteSingleByte` arm (`data[idx] &= value`) agrees with `FlashWrite` |
| `FlashStorage.Flash.SelectBank` | src/memory/storage/flash.rs:179-191 | the `BankChange` arm agrees with `FlashWrite` |
| `FlashStorage.Flash.GetData` | src/memory/storage/flash.rs:195-197 | the raw image is the chip's whole buffer |
| `FlashStorage.Flash.GetType` | src/memory/storage/flash.rs:199-207 | agrees with `FlashGetType` |
| `FlashStorage.Flash.StorageType` | src/memory/storage/flash.rs:209-217 | agrees with `FlashStorageType` |
| `FlashProperties.UnlockAdvancesStep` | src/memory/storage/flash.rs:114-116 | `(0, 0x5555, 0xAA)` and `(1, 0x2AAA, 0x55)` advance the step by one; context, mode, bank and data are unchanged |
| `FlashProperties.UnrecognizedCommandIgnored` | src/memory/storage/flash.rs:114-161 | while waiting for a command, a write changes the chip if and only if it is in the table of recognized commands; any other write leaves state, mode, bank and data untouched (no reset to step 0) |
| `FlashProperties.EraseContextQuirks` | src/memory/storage/flash.rs:118-157 | in `WaitForCommand(2, Erase)`, 0x90 and 0xF0 are ignored, while 0x80, 0xA0 and 0xB0 are accepted as without an erase |
| `FlashProperties.ProgramClearsBits` | src/memory/storage/flash.rs:164-177 | programming sets `data[bank*0x10000 + (addr & 0xFFFF)]` (always in bounds) to `old & value`; all other bytes are unchanged; the state returns to `WaitForCommand(0, None)`; no bit becomes 1 |
| `FlashProperties.ChipErase` | src/memory/storage/flash.rs:136-140 | 0x10 at 0x5555 in an armed erase fills the whole buffer with 0xFF and resets the state, keeping bank and mode |
| `FlashProperties.SectorErase` | src/memory/storage/flash.rs:141-147 | 0x30 at any address in an armed erase fills exactly `[bank*0x10000 + ((addr & 0xFFFF) >> 12)*0x1000, +0x1000)`, which fits in the buffer; all other bytes are unchanged; the state resets |
| `FlashProperties.BankSelect` | src/memory/storage/flash.rs:179-191 | the bank becomes the value when it is below `len / 0x10000` and is unchanged otherwise; the state resets in both cases; data and mode are unchanged |
| `FlashProperties.DataReadInBounds` | src/memory/storage/flash.rs:93-103 | under the invariant a data-mode read never takes the out-of-bounds branch and returns `data[bank*0x10000 + (addr & 0xFFFF)]` |
| `FlashProperties.ChipIdIgnoresContents` | src/memory/storage/flash.rs:67-92 | an ID-mode read depends only on the chip size and the low 16 address bits, not on the bank or the stored bytes; offsets other than 0 and 1 read 0 |
| `FlashProperties.Run` | src/memory/storage/flash.rs:107-193 | after any sequence of writes the invariant still holds and the buffer length is unchanged |
| `FlashProperties.WriteClearsBitsOnly` | src/memory/storage/flash.rs:107-193 | a write that is not an erase command can only clear bits of the buffer |
| `FlashProperties.RunClearsBitsOnly` | src/memory/storage/flash.rs:164-177 | over any erase-free sequence of writes, every bit set at the end was set at the start |
| `FlashProperties.ProgramSequence` | src/memory/storage/flash.rs:114-176 | unlock, 0xA0, `write(b, v)` from step 0 in either context: the byte at `b` becomes `old & v`, and a data-mode read at `b` returns it |
| `FlashProperties.ChipEraseSequence` | src/memory/storage/flash.rs:114-140 | unlock, 0x80, unlock, 0x10 leaves every byte 0xFF with bank and mode kept |
| `FlashProperties.SectorEraseSequence` | src/memory/storage/flash.rs:114-147 | unlock, 0x80, unlock, 0x30 in sector n fills `[bank*0x10000 + n*0x1000, +0x1000)` with 0xFF and leaves all other bytes unchanged |
| `FlashProperties.BankSwitchSequence` | src/memory/storage/flash.rs:114-191 | unlock, 0xB0, `write(0, b)` with `b` below the bank count selects bank `b`; data-mode reads then target `b*0x10000 + (a & 0xFFFF)` |
| `FlashProperties.ChipIdSequence` | src/memory/storage/flash.rs:77-122 | unlock, 0x90 enters ID mode; offsets 0 and 1 then read 0xBF/0xD4 on the 64 KiB chip and 0x62/0x13 on the 128 KiB chip |
| `FlashProperties.ExitChipIdSequence` | src/memory/storage/flash.rs:123-130 | unlock, 0xF0 returns to data mode from either mode and changes nothing else |
| `SaveDevice.ValueWrite` | src/memory/storage/device.rs:15 | a write keeps the device's kind, its invariant and its buffer length |
| `SaveDevice.ValueType` | src/memory/storage/device.rs:17 | a device reports `SRAM` exactly when it is an SRAM chip; 64 KiB buffers report `SRAM` or `Flash64K`, 128 KiB buffers `Flash128K` |
| `SaveDevice.ValueLabel` | src/memory/storage/device.rs:18 | SRAM reports "SRAM (64K)"; flash reports the label of its size |
| `SaveDevice.Read` | src/memory/storage/device.rs:14 | dispatching `read` returns `ValueRead` of the device's state and, being a function, changes nothing |
| `SaveDevice.Write` | src/memory/storage/device.rs:15 | dispatching `write` leaves the device in `ValueWrite` of its old state, touching only that device's objects |
| `SaveDevice.GetData` | src/memory/storage/device.rs:16 | the raw image is the device's buffer |
| `SaveDevice.GetType` | src/memory/storage/device.rs:17 | agrees with `ValueType` |
| `SaveDevice.StorageType` | src/memory/storage/device.rs:18 | agrees with `ValueLabel` |
| `Memory.Install` | src/memory/map.rs:34-46 | the installed device satisfies its invariant and reports `Flash64K`/`Flash128K` for the flash types and `SRAM` for all others |
| `Memory.MapWrite` | src/memory/map.rs:59-67 | a write through the map keeps the device invariant |
| `Memory.MemoryMap.constructor` | src/memory/map.rs:23-32 | a new map holds a fresh zero-filled 64 KiB SRAM chip |
| `Memory.MemoryMap.SetSaveDevice` | src/memory/map.rs:34-46 | the freshly built device is `Install(saveType, seed)`, whatever was installed before |
| `Memory.MemoryMap.ReadByte` | src/memory/map.rs:48-57 | returns `MapRead` of the device: the device's read at `addr & 0x00FFFFFF` in the 0x0E region, 0xFF elsewhere |
| `Memory.MemoryMap.ReadSave` | src/memory/map.rs:69-72 | returns the device's read at the 24-bit relative offset |
| `Memory.MemoryMap.WriteByte` | src/memory/map.rs:59-67 | the device afterwards is `MapWrite` of the device before |
| `Memory.MemoryMap.WriteSave` | src/memory/map.rs:74-77 | the device afterwards is its write at the 24-bit relative offset |
| `MemoryProperties.OutsideWindowIgnored` | src/memory/map.rs:48-67 | outside the 0x0E region reads return 0xFF and writes leave the device completely unchanged |
| `MemoryProperties.SramReadBackThroughMap` | src/memory/map.rs:59-77 | after an in-range SRAM write through the map, reading the same address returns the value and other offsets are unaffected |
| `MemoryProperties.SramRejectsHighOffsets` | src/memory/map.rs:69-77 | relative offsets of 0x10000 and above read 0xFF from SRAM, and writes to them change nothing |
| `MemoryProperties.FlashAliasesHighOffsets` | src/memory/map.rs:69-77 | flash treats every save-region address like the one with the same low 16 bits at the region's bottom, for reads and writes |
| `MemoryProperties.InstallNoneIgnoresSeed` | src/memory/map.rs:36 | `None` installs a zero SRAM chip and ignores the seed |
| `MemoryProperties.InstallEepromFallsBack` | src/memory/map.rs:41-44 | `EEPROM4K` and `EEPROM64K` install what `SRAM` would, and the device reports `SRAM` |
| `MemoryProperties.EepromWithoutSeed` | src/memory/map.rs:41-44 | `set_save_device(EEPROM4K, None)` gives an SRAM device of 65536 zero bytes |
| `MemoryProperties.InstallFlash` | src/memory/map.rs:38-39 | the flash types install a 64 KiB or 128 KiB chip waiting at step 0 in data mode on bank 0, holding the seed when its length matches and 0xFF bytes otherwise |

## Left out

- Logging (`trace!`, `debug!`, `warn!`, `error!`): diagnostics only, with no effect on state.
- Serialization (the `serde`/`serde_bytes` derives) and the unused `std::io` imports: foreign library code. The model's `FlashState` holds exactly what a snapshot must hold.
- The other memory regions (`bios`, `wram`, `iwram`): no modelled operation reads or writes them. Accesses outside the save region are modelled as the source has them: 0xFF on read, no-op on write.
- `Arc`/`Mutex` and the `Send` bound: there is no concurrent logic. The trait object becomes the closed datatype `Device`.
- The panics: `assert_eq!(addr, 0)` (flash.rs:180) is the precondition `WriteAllowed`, and the unknown flash length (flash.rs:205, 215) is the precondition `KnownSize`. The model does not cover what happens after a panic.
- SaveDevice.GetType: requires the whole device invariant, where the source needs only a known flash length. Every device a memory map installs meets the invariant.
- SaveDevice.StorageType: requires the whole device invariant, for the same reason.
- Handing the old device back from `set_save_device` is not modelled: the source drops it, and `SetSaveDevice` discards it too.
