/** Properties of the flash protocol (flash.rs), stated on single writes and
    on whole command sequences. */
module FlashProperties {
  import opened Common
  import opened FlashStorage

  // ---------------------------------------------------------------------------
  // Single writes

  /** The two unlock bytes advance the step by one and keep the pending
      context; nothing else changes. */
  lemma UnlockAdvancesStep(s: FlashState, addr: u32, value: byte)
    requires Invariant(s) && s.state.WaitForCommand?
    requires || (s.state.step == 0 && addr % BANK_SIZE == 0x5555 && value == 0xAA)
             || (s.state.step == 1 && addr % BANK_SIZE == 0x2AAA && value == 0x55)
    ensures FlashWrite(s, addr, value) == s.(state := WaitForCommand(s.state.step + 1, s.state.ctx))
  {
  }

  /** The commands a waiting chip accepts, written as a table: the two unlock
      bytes, the context-free commands 0x80, 0xA0 and 0xB0, the ID-mode
      commands 0x90 and 0xF0 outside an erase, and the two erase commands
      inside one (sector erase at any address). */
  predicate Recognized(step: nat, ctx: CommandContext, a: nat, value: byte)
  {
    || (step == 0 && a == 0x5555 && value == 0xAA)
    || (step == 1 && a == 0x2AAA && value == 0x55)
    || (step == 2 && a == 0x5555 && value in {0x80, 0xA0, 0xB0})
    || (step == 2 && a == 0x5555 && value in {0x90, 0xF0} && ctx == CommandContext.None)
    || (step == 2 && a == 0x5555 && value == 0x10 && ctx == Erase)
    || (step == 2 && value == 0x30 && ctx == Erase)
  }

  /** A write while waiting for a command changes the chip exactly when it is
      a recognized command; any other write leaves state, read mode, bank and
      buffer as they were (the unlock sequence is not reset). */
  lemma UnrecognizedCommandIgnored(s: FlashState, addr: u32, value: byte)
    requires Invariant(s) && s.state.WaitForCommand?
    ensures FlashWrite(s, addr, value) == s
        <==> !Recognized(s.state.step, s.state.ctx, addr % BANK_SIZE, value)
  {
  }

  /** In an armed erase, 0x90 and 0xF0 are rejected while 0x80, 0xA0 and 0xB0
      are still accepted, because their arms carry no context guard. */
  lemma EraseContextQuirks(s: FlashState)
    requires Invariant(s) && s.state == WaitForCommand(2, Erase)
    ensures FlashWrite(s, 0x5555, 0x90) == s
    ensures FlashWrite(s, 0x5555, 0xF0) == s
    ensures FlashWrite(s, 0x5555, 0x80) == s.(state := WaitForCommand(0, Erase))
    ensures FlashWrite(s, 0x5555, 0xA0) == s.(state := WriteSingleByte)
    ensures FlashWrite(s, 0x5555, 0xB0) == s.(state := BankChange)
  {
  }

  /** Every bit set in `after` is also set in `before`: `after` arises from
      `before` by clearing bits only. */
  predicate BitsCleared(after: seq<byte>, before: seq<byte>)
  {
    |after| == |before| && forall i | 0 <= i < |after| :: after[i] & before[i] == after[i]
  }

  /** Programming ANDs the addressed byte of the current bank with the value,
      leaves every other byte alone and returns to `WaitForCommand(0, None)`;
      hence no bit that was 0 becomes 1. */
  lemma ProgramClearsBits(s: FlashState, addr: u32, value: byte)
    requires Invariant(s) && s.state == WriteSingleByte
    ensures var r := FlashWrite(s, addr, value); var i := Offset(s.bank, addr);
      && i < |s.data|
      && r == s.(data := s.data[i := s.data[i] & value], state := Ready)
      && BitsCleared(r.data, s.data)
  {
    var r := FlashWrite(s, addr, value);
    var i := Offset(s.bank, addr);
    assert r.data == s.data[i := s.data[i] & value];
    forall j | 0 <= j < |r.data|
      ensures r.data[j] & s.data[j] == r.data[j]
    {
      if j == i {
        AndClears(s.data[i], value);
      } else {
        SelfAnd(s.data[j]);
      }
    }
  }

  lemma AndClears(x: byte, v: byte)
    ensures (x & v) & x == x & v
  {
  }

  lemma SelfAnd(x: byte)
    ensures x & x == x
  {
  }

  /** Chip erase (0x10 at 0x5555 in an armed erase) fills the whole buffer. */
  lemma ChipErase(s: FlashState, addr: u32)
    requires Invariant(s) && s.state == WaitForCommand(2, Erase) && addr % BANK_SIZE == 0x5555
    ensures FlashWrite(s, addr, 0x10) == s.(data := Erased(|s.data|), state := Ready)
  {
  }

  /** The first buffer index of the 4 KiB sector that `addr` falls in, in the
      current bank. */
  function SectorStart(bank: nat, addr: u32): nat
  {
    bank * BANK_SIZE + (addr % BANK_SIZE) / SECTOR_SIZE * SECTOR_SIZE
  }

  /** Sector erase (0x30 at any address in an armed erase) fills exactly the
      addressed sector of the current bank and nothing else. */
  lemma SectorErase(s: FlashState, addr: u32)
    requires Invariant(s) && s.state == WaitForCommand(2, Erase)
    ensures var r := FlashWrite(s, addr, 0x30); var start := SectorStart(s.bank, addr);
      && start + SECTOR_SIZE <= |s.data|
      && r.state == Ready && r.bank == s.bank && r.readMode == s.readMode
      && |r.data| == |s.data|
      && forall i | 0 <= i < |s.data| ::
           r.data[i] == if start <= i < start + SECTOR_SIZE then 0xFF else s.data[i]
  {
  }

  /** A bank-select write takes the value as the new bank when the chip has
      that many banks and keeps the old bank otherwise; either way the command
      completes. */
  lemma BankSelect(s: FlashState, addr: u32, value: byte)
    requires Invariant(s) && s.state == BankChange && addr % BANK_SIZE == 0
    ensures var r := FlashWrite(s, addr, value);
      && r.state == Ready && r.readMode == s.readMode && r.data == s.data
      && r.bank == if (value as int) < |s.data| / BANK_SIZE then value as int else s.bank
  {
  }

  /** In data mode the invariant keeps the index inside the buffer, so the
      out-of-bounds sentinel is never returned: a read is exactly the byte at
      `bank * 0x10000 + (addr & 0xFFFF)`. */
  lemma DataReadInBounds(s: FlashState, addr: u32)
    requires Invariant(s) && s.readMode == Data
    ensures Offset(s.bank, addr) < |s.data|
    ensures FlashRead(s, addr) == s.data[Offset(s.bank, addr)]
  {
  }

  /** In ID mode a read depends only on the chip size and the low 16 address
      bits, never on the bank or the stored bytes, and every offset other than
      the two code bytes reads 0. */
  lemma ChipIdIgnoresContents(s: FlashState, t: FlashState, addr: u32, other: u32)
    requires s.readMode == ChipId && t.readMode == ChipId && |s.data| == |t.data|
    requires addr % BANK_SIZE == other % BANK_SIZE
    ensures FlashRead(s, addr) == FlashRead(t, other)
    ensures addr % BANK_SIZE > 1 ==> FlashRead(s, addr) == 0
  {
  }

  // ---------------------------------------------------------------------------
  // Command sequences

  /** One bus write to the chip. */
  datatype Cmd = Cmd(addr: u32, value: byte)

  /** The two-byte JEDEC unlock prefix. */
  const Unlock: seq<Cmd> := [Cmd(0x5555, 0xAA), Cmd(0x2AAA, 0x55)]

  /** No write of the sequence violates the bank-select address precondition. */
  ghost predicate CanRun(s: FlashState, cmds: seq<Cmd>)
    requires Invariant(s)
    decreases |cmds|
  {
    || cmds == []
    || (&& WriteAllowed(s, cmds[0].addr)
        && CanRun(FlashWrite(s, cmds[0].addr, cmds[0].value), cmds[1..]))
  }

  /** The chip after a sequence of writes: the invariant (supported size, bank
      inside the buffer) holds after any such sequence, and the buffer length
      never changes. */
  function Run(s: FlashState, cmds: seq<Cmd>): (r: FlashState)
    requires Invariant(s) && CanRun(s, cmds)
    ensures Invariant(r)
    ensures |r.data| == |s.data|
    decreases |cmds|
  {
    if cmds == [] then s
    else Run(FlashWrite(s, cmds[0].addr, cmds[0].value), cmds[1..])
  }

  /** Whether `c`, sent to a chip in state `s`, is a chip or sector erase. */
  predicate IsErase(s: FlashState, c: Cmd)
  {
    && s.state == WaitForCommand(2, Erase)
    && ((c.addr % BANK_SIZE == 0x5555 && c.value == 0x10) || c.value == 0x30)
  }

  /** No write of the sequence is an erase. */
  ghost predicate ErasesNothing(s: FlashState, cmds: seq<Cmd>)
    requires Invariant(s) && CanRun(s, cmds)
    decreases |cmds|
  {
    || cmds == []
    || (&& !IsErase(s, cmds[0])
        && ErasesNothing(FlashWrite(s, cmds[0].addr, cmds[0].value), cmds[1..]))
  }

  lemma BitsClearedTransitive(x: seq<byte>, y: seq<byte>, z: seq<byte>)
    requires BitsCleared(x, y) && BitsCleared(y, z)
    ensures BitsCleared(x, z)
  {
    forall i | 0 <= i < |x|
      ensures x[i] & z[i] == x[i]
    {
      AndTransitive(x[i], y[i], z[i]);
    }
  }

  lemma AndTransitive(x: byte, y: byte, z: byte)
    requires x & y == x && y & z == y
    ensures x & z == x
  {
  }

  /** A single write that is not an erase can only clear bits of the buffer. */
  lemma WriteClearsBitsOnly(s: FlashState, c: Cmd)
    requires Invariant(s) && WriteAllowed(s, c.addr) && !IsErase(s, c)
    ensures BitsCleared(FlashWrite(s, c.addr, c.value).data, s.data)
  {
    var r := FlashWrite(s, c.addr, c.value);
    if s.state == WriteSingleByte {
      ProgramClearsBits(s, c.addr, c.value);
    } else {
      assert r.data == s.data;
      forall i | 0 <= i < |r.data|
        ensures r.data[i] & s.data[i] == r.data[i]
      {
        SelfAnd(s.data[i]);
      }
    }
  }

  /** Flash programming never sets a bit: over any sequence of writes without
      an erase, every bit set at the end was already set at the start. */
  lemma {:induction false} RunClearsBitsOnly(s: FlashState, cmds: seq<Cmd>)
    requires Invariant(s) && CanRun(s, cmds) && ErasesNothing(s, cmds)
    ensures BitsCleared(Run(s, cmds).data, s.data)
    decreases |cmds|
  {
    if cmds == [] {
      forall i | 0 <= i < |s.data|
        ensures s.data[i] & s.data[i] == s.data[i]
      {
        SelfAnd(s.data[i]);
      }
    } else {
      var next := FlashWrite(s, cmds[0].addr, cmds[0].value);
      WriteClearsBitsOnly(s, cmds[0]);
      RunClearsBitsOnly(next, cmds[1..]);
      BitsClearedTransitive(Run(next, cmds[1..]).data, next.data, s.data);
    }
  }

  // ---------------------------------------------------------------------------
  // Complete commands, from a chip waiting at step 0

  /** The chip after the unlock prefix and one command byte at 0x5555. */
  function AfterCommand(s: FlashState, command: byte): (r: FlashState)
    requires Invariant(s) && s.state.WaitForCommand? && s.state.step == 0
    ensures Invariant(r)
  {
    var s1 := FlashWrite(s, 0x5555, 0xAA);
    var s2 := FlashWrite(s1, 0x2AAA, 0x55);
    FlashWrite(s2, 0x5555, command)
  }

  /** Unlock, 0xA0, then `write(b, v)`: the byte at the current bank's offset
      of `b` becomes its old value AND `v`, and a data-mode read at `b` then
      returns that. The prefix works from step 0 in either context. */
  lemma ProgramSequence(s: FlashState, b: u32, v: byte)
    requires Invariant(s) && s.state.WaitForCommand? && s.state.step == 0
    ensures var armed := AfterCommand(s, 0xA0);
      && armed.state == WriteSingleByte
      && var r := FlashWrite(armed, b, v); var i := Offset(s.bank, b);
      && i < |s.data|
      && r == s.(data := s.data[i := s.data[i] & v], state := Ready)
      && (s.readMode == Data ==> FlashRead(r, b) == FlashRead(s, b) & v)
  {
  }

  /** Unlock, 0x80, unlock, 0x10 at 0x5555: every byte of the buffer reads
      0xFF afterwards; bank and read mode are kept. */
  lemma ChipEraseSequence(s: FlashState)
    requires Invariant(s) && s.state.WaitForCommand? && s.state.step == 0
    ensures var armed := AfterCommand(s, 0x80);
      && armed.state == WaitForCommand(0, Erase)
      && AfterCommand(armed, 0x10) == s.(data := Erased(|s.data|), state := Ready)
  {
  }

  /** Unlock, 0x80, unlock, 0x30 at an address in sector n: exactly the bytes
      `[bank * 0x10000 + n * 0x1000, + 0x1000)` become 0xFF. */
  lemma SectorEraseSequence(s: FlashState, addr: u32)
    requires Invariant(s) && s.state.WaitForCommand? && s.state.step == 0
    ensures var armed := AfterCommand(s, 0x80);
      && armed.state == WaitForCommand(0, Erase)
      && var unlocked := FlashWrite(FlashWrite(armed, 0x5555, 0xAA), 0x2AAA, 0x55);
      && var r := FlashWrite(unlocked, addr, 0x30); var start := SectorStart(s.bank, addr);
      && r.state == Ready && r.bank == s.bank && r.readMode == s.readMode
      && |r.data| == |s.data| && start + SECTOR_SIZE <= |s.data|
      && forall i | 0 <= i < |s.data| ::
           r.data[i] == if start <= i < start + SECTOR_SIZE then 0xFF else s.data[i]
  {
    var armed := AfterCommand(s, 0x80);
    var unlocked := FlashWrite(FlashWrite(armed, 0x5555, 0xAA), 0x2AAA, 0x55);
    assert unlocked == s.(state := WaitForCommand(2, Erase));
    SectorErase(unlocked, addr);
  }

  /** Unlock, 0xB0, then `write(0, b)` with `b` below the number of banks:
      the bank becomes `b`, and data-mode reads at `a` then return the byte at
      `b * 0x10000 + (a & 0xFFFF)`. */
  lemma BankSwitchSequence(s: FlashState, b: byte, a: u32)
    requires Invariant(s) && s.state.WaitForCommand? && s.state.step == 0
    requires (b as int) < |s.data| / BANK_SIZE
    ensures var armed := AfterCommand(s, 0xB0);
      && armed.state == BankChange
      && var r := FlashWrite(armed, 0, b);
      && r == s.(bank := b as int, state := Ready)
      && (s.readMode == Data ==> FlashRead(r, a) == r.data[b as int * BANK_SIZE + a % BANK_SIZE])
  {
    var r := FlashWrite(AfterCommand(s, 0xB0), 0, b);
    if s.readMode == Data {
      DataReadInBounds(r, a);
    }
  }

  /** Unlock, 0x90 (outside an erase): offsets 0 and 1 read the
      manufacturer and device codes, SST 0xBF/0xD4 on the 64 KiB chip and
      Sanyo 0x62/0x13 on the 128 KiB chip. */
  lemma ChipIdSequence(s: FlashState)
    requires Invariant(s) && s.state == Ready
    ensures var r := AfterCommand(s, 0x90);
      && r == s.(readMode := ChipId)
      && (|s.data| == FLASH_64K ==> FlashRead(r, 0) == 0xBF && FlashRead(r, 1) == 0xD4)
      && (|s.data| == FLASH_128K ==> FlashRead(r, 0) == 0x62 && FlashRead(r, 1) == 0x13)
  {
  }

  /** Unlock, 0xF0 (outside an erase): back to data mode, from either mode. */
  lemma ExitChipIdSequence(s: FlashState)
    requires Invariant(s) && s.state == Ready
    ensures AfterCommand(s, 0xF0) == s.(readMode := Data)
  {
  }
}
