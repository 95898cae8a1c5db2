# partyboy hardware core in Dafny

A verified model of the hardware-register logic of the partyboy Game Boy /
Game Boy Color emulator, written in Rust. Each part is a small state
machine or bit-level function. The model states what it does and proves it:

- **CPU helpers** (`register.dfy`, `cpu_ops.dfy`): 16-bit register pairs, the ALU and its flags, DAA, rotates and shifts, the flag helpers, and the stack.
- **Interrupts and timer** (`interrupts.dfy`, `timer.dfy`): priority selection and vectors, and the DIV/TIMA timer with its falling-edge counting and delayed TMA reload.
- **Cartridges** (`cartridge_banks.dfy`, `cart_rom.dfy`, `mbc1.dfy`, `mbc2.dfy`, `mbc3.dfy`, `mbc5.dfy`, `cartridge.dfy`): header decoding, bank splitting, the ROM-only cartridge and the four bank controllers.
- **DMA** (`hdma.dfy`, `oam_dma.dfy`): HDMA/GDMA registers and block copying, the HBlank edge controller, and OAM DMA.
- **PPU** (`ppu.dfy`, `rgb.dfy`): the register file, the colour palette ports, the mode/LY state machine, the STAT interrupt, tile attributes, and BGR555 to RGB888 conversion.
- **Bus** (`bus.dfy`, `cgb_compat.dfy`): the memory-map router, work-RAM banking and echo, the OAM DMA gate, and 16-bit access.
- **APU** (`apu_envelope.dfy`, `apu_length.dfy`, `apu_sweep.dfy`, `apu_frame_sequencer.dfy`, `apu_noise.dfy`): the envelope, length counter, frequency sweep, frame sequencer, and the noise channel with its LFSR.
- **Small controllers** (`input.dfy`, `speed_controller.dfy`): the joypad matrix and the CGB speed switch.
- **Codecs** (`bitpacked.dfy`, `disassembler.dfy`, `d2array.dfy`): save-state byte packing, opcode bit fields and CB-prefix decoding, and 2-D array flattening.

The crate exists in several generations (`gameboy/`, `core/gameboy/`,
`partyboy-core/`). Each component is modelled from the copy cited in the
table below. The repository's Python helper scripts download test ROMs and
assemble command lines; they are not part of this model.

Conventions:
- `u8` and `u16` are `bv8` and `bv16`, so their wrap-around is that of the type.
- Addresses and counters that the source only compares or indexes with are `int` with their range stated.
- A Rust `panic!`, `unreachable!`, `expect` or out-of-range index that valid inputs can reach becomes a `Panic` result.
- Where the bus never passes an address to a component, that component's `requires` excludes the address instead.
- An operation that updates fields in place is a class method. Its `ensures` ties the new state to a pure function of the old state, and the lemmas are about that function.

## Model

| member | source | states |
|---|---|---|
| CpuRegister.Join | core/gameboy/src/cpu/register.rs:35-40 | the 16-bit value has `hi` in bits 8-15 and `lo` in bits 0-7 |
| CpuRegister.Split | core/gameboy/src/cpu/register.rs:42-50 | the two bytes, high byte times 256 plus low byte, make up the value |
| CpuRegister.SplitJoin | core/gameboy/src/cpu/register.rs:35-50 | converting a register to u16 and back gives the same register |
| CpuRegister.JoinSplit | core/gameboy/src/cpu/register.rs:35-50 | converting a u16 to a register and back gives the same value |
| CpuRegister.Register.New | core/gameboy/src/cpu/register.rs:21-25 | `new` stores `hi` and `lo` unchanged |
| CpuRegister.Register.FromU16 | core/gameboy/src/cpu/register.rs:42-50 | the new register's 16-bit value is the argument |
| CpuRegister.Register.AddAssign | core/gameboy/src/cpu/register.rs:52-59 | the 16-bit value grows by `rhs` modulo 2^16 |
| CpuRegister.Register.SubAssign | core/gameboy/src/cpu/register.rs:61-68 | the 16-bit value shrinks by `rhs` modulo 2^16 |
| CpuOps.FlagHelpersChangeOnlyTheirBit | partyboy-core/src/cpu/instructions/opcodes.rs:1404-1425 | `set_flag`, `clear_flag` and `set_flag_if_cond_else_clear` give the named flag its new value and keep every other bit of F |
| CpuOps.FlagsDetermineF | partyboy-core/src/cpu/instructions/opcodes.rs:1404-1434 | two F values with the same four flags and the same low nibble are equal |
| CpuOps.CarryBit | partyboy-core/src/cpu/instructions/opcodes.rs:579 | the carry operand is 1 exactly when C is set, else 0 |
| CpuOps.AddFlags | partyboy-core/src/cpu/instructions/opcodes.rs:557-574 | after ADD, C is set iff a + r > 255, H iff the low-nibble sum > 15, Z iff the 8-bit sum is 0, N is clear; the low nibble of F is kept |
| CpuOps.AdcFlags | partyboy-core/src/cpu/instructions/opcodes.rs:576-602 | after ADC, C and H hold the carries of a + r + carry out of bits 7 and 3, Z tests the wrapped sum, N is clear |
| CpuOps.AdcWithoutCarryIsAdd | partyboy-core/src/cpu/instructions/opcodes.rs:557-602 | with C clear, ADC sets the same F as ADD |
| CpuOps.SubFlags | partyboy-core/src/cpu/instructions/opcodes.rs:604-620 | after SUB, C is set iff r > a, H iff the low nibble of r exceeds that of a, Z iff a == r, N is set |
| CpuOps.SubBorrowsIffAddCarried | partyboy-core/src/cpu/instructions/opcodes.rs:557-620 | SUB of r from a + r borrows out of bits 7 and 3 exactly when the ADD carried out of them |
| CpuOps.SbcFlags | partyboy-core/src/cpu/instructions/opcodes.rs:622-648 | after SBC, C is set iff r + carry > a, H iff the low-nibble difference minus carry is negative, Z tests the wrapped difference, N is set |
| CpuOps.SbcWithoutCarryIsSub | partyboy-core/src/cpu/instructions/opcodes.rs:604-648 | with C clear, SBC sets the same F as SUB |
| CpuOps.AndFlags | partyboy-core/src/cpu/instructions/opcodes.rs:650-662 | after AND, Z iff a & r == 0, C and N clear, H set |
| CpuOps.XorFlags | partyboy-core/src/cpu/instructions/opcodes.rs:664-676 | after XOR, Z iff a == r; C, N and H clear |
| CpuOps.OrFlags | partyboy-core/src/cpu/instructions/opcodes.rs:678-690 | after OR, Z iff both operands are 0; C, N and H clear |
| CpuOps.CpFlags | partyboy-core/src/cpu/instructions/opcodes.rs:692-705 | after CP, Z iff a == r, C iff r > a, H iff the low nibble of r exceeds that of a, N set |
| CpuOps.CpSetsSubFlags | partyboy-core/src/cpu/instructions/opcodes.rs:604-620 | CP sets exactly the F that SUB sets (also lines 692-705) |
| CpuOps.IncFlags | partyboy-core/src/cpu/instructions/opcodes.rs:210-223 | INC keeps C and sets the other flags as an ADD of one does |
| CpuOps.DecFlags | partyboy-core/src/cpu/instructions/opcodes.rs:225-238 | DEC keeps C and sets the other flags as a SUB of one does |
| CpuOps.DaaFlags | partyboy-core/src/cpu/instructions/opcodes.rs:786-814 | after DAA, Z tests the adjusted A, H is clear, N is kept, and C is set iff it was set or an addition left A above 0x99 |
| CpuOps.BcdAdd | partyboy-core/src/cpu/instructions/opcodes.rs:786-814 | the reference decimal sum of two BCD bytes is a BCD byte |
| CpuOps.BcdSub | partyboy-core/src/cpu/instructions/opcodes.rs:786-814 | the reference decimal difference of two BCD bytes is a BCD byte |
| CpuOps.DaaAdjustsAdd | partyboy-core/src/cpu/instructions/opcodes.rs:798-807 | after an addition's flags, DAA gives the decimal sum, and C holds the decimal carry |
| CpuOps.DaaAdjustsSub | partyboy-core/src/cpu/instructions/opcodes.rs:790-797 | after a subtraction's flags, DAA gives the decimal difference, and C holds the decimal borrow |
| CpuOps.DaaAfterAdd | partyboy-core/src/cpu/instructions/opcodes.rs:557-574 | ADD of two BCD bytes followed by DAA yields their decimal sum and carry (also lines 786-814) |
| CpuOps.DaaAfterSub | partyboy-core/src/cpu/instructions/opcodes.rs:604-620 | SUB of two BCD bytes followed by DAA yields their decimal difference and borrow (also lines 786-814) |
| CpuOps.ShiftFlags | partyboy-core/src/cpu/instructions/opcodes.rs:1303-1402 | the rotate and shift helpers leave C holding the bit shifted out and Z the zero test, clear N and H, and keep the low nibble |
| CpuOps.RlcValue | partyboy-core/src/cpu/instructions/opcodes.rs:1303-1314 | `rlc` is the left rotation by one bit, bit 7 moving to bit 0, and is 0 exactly when v is 0 |
| CpuOps.RrcValue | partyboy-core/src/cpu/instructions/opcodes.rs:1316-1332 | `rrc` is the right rotation by one bit, bit 0 moving to bit 7 |
| CpuOps.RlcRrcInverse | partyboy-core/src/cpu/instructions/opcodes.rs:1303-1332 | RLC and RRC undo each other |
| CpuOps.RlValue | partyboy-core/src/cpu/instructions/opcodes.rs:1334-1344 | `rl` shifts v left and brings the old C into bit 0 |
| CpuOps.RrValue | partyboy-core/src/cpu/instructions/opcodes.rs:1346-1358 | `rr` shifts v right and brings the old C into bit 7 |
| CpuOps.RlRrInverse | partyboy-core/src/cpu/instructions/opcodes.rs:1334-1358 | RL followed by RR restores both the byte and the carry flag |
| CpuOps.SlaValue | partyboy-core/src/cpu/instructions/opcodes.rs:1360-1369 | `sla` shifts left and bit 0 becomes 0 |
| CpuOps.SraValue | partyboy-core/src/cpu/instructions/opcodes.rs:1371-1380 | `sra` keeps bit 7 and shifts the rest right |
| CpuOps.SrlValue | partyboy-core/src/cpu/instructions/opcodes.rs:1393-1402 | `srl` yields bit 7 = 0 and drops bit 0 |
| CpuOps.SwapValue | partyboy-core/src/cpu/instructions/opcodes.rs:1382-1391 | `swap` exchanges the two nibbles |
| CpuOps.SwapInvolution | partyboy-core/src/cpu/instructions/opcodes.rs:1382-1391 | swapping twice is the identity |
| CpuOps.BitFlags | partyboy-core/src/cpu/instructions/opcodes.rs:1189-1217 | after BIT b, Z is set iff bit b is clear, N clear, H set, C kept |
| CpuOps.ResValue | partyboy-core/src/cpu/instructions/opcodes.rs:1219-1244 | RES b clears bit b and keeps every other bit |
| CpuOps.SetValue | partyboy-core/src/cpu/instructions/opcodes.rs:1246-1271 | SET b sets bit b and keeps every other bit |
| CpuOps.BitAfterResSet | partyboy-core/src/cpu/instructions/opcodes.rs:1189-1271 | BIT b reads back what RES b and SET b wrote |
| CpuOps.Cpu.constructor | partyboy-core/src/cpu/instructions/opcodes.rs:1302 | the registers hold the given A, F and SP |
| CpuOps.Cpu.SetFlag | partyboy-core/src/cpu/instructions/opcodes.rs:1404-1407 | F gains the flag bit; A and SP are unchanged |
| CpuOps.Cpu.ClearFlag | partyboy-core/src/cpu/instructions/opcodes.rs:1409-1412 | F loses the flag bit; A and SP are unchanged |
| CpuOps.Cpu.SetFlagIfCondElseClear | partyboy-core/src/cpu/instructions/opcodes.rs:1419-1425 | F has the flag set iff the condition holds, other bits kept |
| CpuOps.Cpu.HandleZFlag | partyboy-core/src/cpu/instructions/opcodes.rs:1427-1434 | Z is set iff the value is 0, other bits kept |
| CpuOps.Cpu.Rlc | partyboy-core/src/cpu/instructions/opcodes.rs:1303-1314 | returns RlcValue; C from bit 7, Z from the input value, N and H cleared |
| CpuOps.Cpu.Rrc | partyboy-core/src/cpu/instructions/opcodes.rs:1316-1332 | returns RrcValue; C from bit 0, Z from the result, N and H cleared |
| CpuOps.Cpu.Rl | partyboy-core/src/cpu/instructions/opcodes.rs:1334-1344 | returns RlValue with the old C; C from bit 7 |
| CpuOps.Cpu.Rr | partyboy-core/src/cpu/instructions/opcodes.rs:1346-1358 | returns RrValue with the old C; C from bit 0 |
| CpuOps.Cpu.Sla | partyboy-core/src/cpu/instructions/opcodes.rs:1360-1369 | returns SlaValue; C from bit 7 |
| CpuOps.Cpu.Sra | partyboy-core/src/cpu/instructions/opcodes.rs:1371-1380 | returns SraValue; C from bit 0 |
| CpuOps.Cpu.Swap | partyboy-core/src/cpu/instructions/opcodes.rs:1382-1391 | returns SwapValue; C, N and H cleared, Z from the result |
| CpuOps.Cpu.Srl | partyboy-core/src/cpu/instructions/opcodes.rs:1393-1402 | returns SrlValue; C from bit 0 |
| CpuOps.Cpu.Add | partyboy-core/src/cpu/instructions/opcodes.rs:557-574 | A becomes the wrapped sum and F becomes AddFlags |
| CpuOps.Cpu.Adc | partyboy-core/src/cpu/instructions/opcodes.rs:576-602 | A becomes a + r + carry (wrapped) and F becomes AdcFlags |
| CpuOps.Cpu.Sub | partyboy-core/src/cpu/instructions/opcodes.rs:604-620 | A becomes the wrapped difference and F becomes SubFlags |
| CpuOps.Cpu.Sbc | partyboy-core/src/cpu/instructions/opcodes.rs:622-648 | A becomes a - r - carry (wrapped) and F becomes SbcFlags |
| CpuOps.Cpu.And | partyboy-core/src/cpu/instructions/opcodes.rs:650-662 | A becomes a & r and F becomes AndFlags |
| CpuOps.Cpu.Xor | partyboy-core/src/cpu/instructions/opcodes.rs:664-676 | A becomes a ^ r and F becomes XorFlags |
| CpuOps.Cpu.Or | partyboy-core/src/cpu/instructions/opcodes.rs:678-690 | A becomes the bitwise OR of a and r and F becomes OrFlags |
| CpuOps.Cpu.Cp | partyboy-core/src/cpu/instructions/opcodes.rs:692-705 | A is unchanged and F becomes CpFlags |
| CpuOps.Cpu.Daa | partyboy-core/src/cpu/instructions/opcodes.rs:786-814 | A and F become the decimal adjustment DaaValue and the flags DaaFlags, which the BCD lemmas above tie to decimal addition and subtraction |
| CpuOps.DaaAdjustAfterSub | partyboy-core/src/cpu/instructions/opcodes.rs:790-797 | the two subtractive adjustments, taken one after the other, give DaaValue |
| CpuOps.DaaAdjustAfterAdd | partyboy-core/src/cpu/instructions/opcodes.rs:798-808 | the two additive adjustments, taken one after the other, give DaaValue, and C is set exactly when the upper adjustment ran |
| CpuOps.Cpu.PushU8 | partyboy-core/src/cpu/instructions/opcodes.rs:1448-1451 | SP moves down one byte, wrapping, and the byte is stored at the new SP |
| CpuOps.Cpu.PopU8 | partyboy-core/src/cpu/instructions/opcodes.rs:1442-1446 | returns the byte at SP, and SP moves up one byte, wrapping |
| CpuOps.Cpu.PopU16 | partyboy-core/src/cpu/instructions/opcodes.rs:1436-1440 | returns the little-endian word at SP, and SP moves up two bytes |
| CpuOps.Cpu.PushR16 | partyboy-core/src/cpu/instructions/opcodes.rs:741-757 | the high byte is pushed first, so the pair lies little-endian at SP - 2 |
| CpuOps.Cpu.PopR16 | partyboy-core/src/cpu/instructions/opcodes.rs:724-739 | the low byte is popped first, then the high byte; SP moves up two |
| CpuOps.Cpu.PopAf | partyboy-core/src/cpu/instructions/opcodes.rs:716-739 | POP AF masks the low nibble of F to zero |
| CpuOps.PushPopR16RoundTrip | partyboy-core/src/cpu/instructions/opcodes.rs:724-757 | pushing a pair and popping it reads back the pushed bytes and restores SP, also when SP wraps (also lines 1442-1451) |
| CpuOps.Set | partyboy-core/src/cpu/instructions/opcodes.rs:1405-1407 | `set_flag` on F; its contract is in `FlagHelpersChangeOnlyTheirBit`: the named flag reads 1 and every other bit of F is kept |
| CpuOps.Clear | partyboy-core/src/cpu/instructions/opcodes.rs:1410-1412 | `clear_flag` on F; its contract is in `FlagHelpersChangeOnlyTheirBit`: the named flag reads 0 and every other bit of F is kept |
| CpuOps.SetIf | partyboy-core/src/cpu/instructions/opcodes.rs:1420-1425 | `set_flag_if_cond_else_clear` on F; its contract is in `FlagHelpersChangeOnlyTheirBit`: the named flag reads 1 exactly when the condition holds and every other bit of F is kept |
| CpuOps.DaaValue | partyboy-core/src/cpu/instructions/opcodes.rs:786-814 | A after DAA; its contract is in `DaaAdjustsAdd` and `DaaAdjustsSub`: after a BCD addition it is the decimal sum and after a BCD subtraction the decimal difference, modulo 100 |
| Interrupts.Index | partyboy-core/src/interrupts.rs:18-25 | each source has a bit position below 5, in priority order |
| Interrupts.Bit | partyboy-core/src/interrupts.rs:18-25 | a source's discriminant is the single bit at its position |
| Interrupts.Vector | partyboy-core/src/interrupts.rs:27-37 | the vectors are 0x40 + 8 x position: VBlank 0x40, Stat 0x48, Timer 0x50, Serial 0x58, Joypad 0x60 |
| Interrupts.BitsAndVectorsDistinct | partyboy-core/src/interrupts.rs:18-37 | different sources have different bits and different vectors |
| Interrupts.Latched | partyboy-core/src/interrupts.rs:79-109 | None exactly when enable & flags & 0x1F is 0; otherwise the lowest-numbered source that is both enabled and requested |
| Interrupts.NoneWhenEitherZero | partyboy-core/src/interrupts.rs:84 | nothing is latched while either register is 0 |
| Interrupts.RequestedEnabledIsServiced | partyboy-core/src/interrupts.rs:79-121 | after requesting an enabled source, some source is latched, and it is at least as urgent as the one requested |
| Interrupts.InterruptState.constructor | partyboy-core/src/interrupts.rs:52-61 | all registers 0 and both HALT flags false |
| Interrupts.InterruptState.EnableMaster | partyboy-core/src/interrupts.rs:63-65 | the master enable reads true; nothing else changes |
| Interrupts.InterruptState.DisableMaster | partyboy-core/src/interrupts.rs:67-69 | the master enable reads false; nothing else changes |
| Interrupts.InterruptState.ClearInterrupt | partyboy-core/src/interrupts.rs:111-113 | the source's IF bit is cleared and no other bit changes |
| Interrupts.InterruptState.RequestInterrupt | partyboy-core/src/interrupts.rs:115-121 | the source's IF bit is set and no other bit changes; `halt_interrupt_pending` becomes true iff HALT waits for IF |
| Timer.FreqBit | partyboy-core/src/timer.rs:26 | TAC's low two bits choose divider bit 9, 3, 5 or 7 (also line 67) |
| Timer.PeriodMask | partyboy-core/src/timer.rs:26 | the mask covers the divider bits up to and including the frequency bit (also lines 64-72) |
| Timer.FreqBitHighIsShift | partyboy-core/src/timer.rs:66-72 | the model's mask test is the source's `(div >> bit) & 1` |
| Timer.FallingEdgeOnPeriodBoundary | partyboy-core/src/timer.rs:41-47 | counting the divider up by one makes the selected bit fall exactly when the new count is a multiple of the period (also lines 64-72) |
| Timer.AfterIncrTima | partyboy-core/src/timer.rs:74-82 | TIMA counts up, wrapping; wrapping to 0 sets the overflow flag and zeroes the tick count; nothing else changes |
| Timer.AfterClock | partyboy-core/src/timer.rs:41-47 | DIV counts up, and TIMA counts exactly when the timer is enabled and the selected bit falls |
| Timer.AfterOverflowStep | partyboy-core/src/timer.rs:49-61 | the overflow count advances; the interrupt is requested exactly at count 1; DIV, TMA and TAC are unchanged |
| Timer.AfterTick | partyboy-core/src/timer.rs:41-62 | a whole tick keeps the overflow bookkeeping in range and counts DIV up |
| Timer.TimaCountsOnlyOnFallingEdge | partyboy-core/src/timer.rs:45-47 | away from an overflow, TIMA increments only when the timer is enabled and the selected DIV bit falls, and the interrupt comes only from a wrap (also lines 66-72) |
| Timer.AfterTicks | partyboy-core/src/timer.rs:41-62 | repeated ticks keep the overflow bookkeeping in range |
| Timer.OverflowReloadsFromTma | partyboy-core/src/timer.rs:49-62 | the tick on which TIMA wraps requests the interrupt; four ticks later TIMA holds TMA; the fifth ends the sequence with no further request (also lines 75-82) |
| Timer.OverflowStep | partyboy-core/src/timer.rs:49-61 | before the reload, an overflow tick advances the count without requesting the interrupt |
| Timer.TimerState.constructor | partyboy-core/src/timer.rs:19-30 | DIV starts at 8 and every other register at 0 |
| Timer.TimerState.Div | partyboy-core/src/timer.rs:32-34 | DIV reads the upper byte of the 16-bit divider |
| Timer.TimerState.IncrTima | partyboy-core/src/timer.rs:74-82 | the registers become AfterIncrTima of the old registers |
| Timer.TimerState.DivFallingEdgeOccured | partyboy-core/src/timer.rs:64-72 | reports whether the selected bit went from 1 to 0 |
| Timer.TimerState.ClockDivider | partyboy-core/src/timer.rs:41-47 | the registers become AfterClock of the old registers |
| Timer.TimerState.StepOverflow | partyboy-core/src/timer.rs:49-61 | the registers become AfterOverflowStep, and the timer IF bit is set exactly when it says so |
| Timer.TimerState.Tick | partyboy-core/src/timer.rs:41-62 | the registers become AfterTick, and the timer interrupt is requested exactly when it says so |
| Timer.TimerState.Read | partyboy-core/src/timer.rs:84-94 | 0xFF04 reads DIV, 0xFF05 TIMA, 0xFF06 TMA, and 0xFF07 reads TAC with bits 3-7 set |
| Timer.TimerState.Write | partyboy-core/src/timer.rs:96-131 | writing DIV resets it to 0 and may clock TIMA; a TIMA write is dropped once the overflow count reaches 5; TMA is stored; a TAC write clocks TIMA when the selected enabled bit stops being 1 |
| Timer.TimerEnabled | partyboy-core/src/timer.rs:37-39 | the timer runs exactly when TAC bit 2 is set |
| Timer.FallingEdge | partyboy-core/src/timer.rs:66-72 | the frequency bit TAC selects was 1 before and is 0 after; `FallingEdgeOnPeriodBoundary` states when that happens |
| Timer.Clocked | partyboy-core/src/timer.rs:41-47 | the tick from a state clocks TIMA when the timer is enabled and the incremented divider's frequency bit falls; `ClockedOnPeriodBoundary` states when that happens |
| Timer.ClockedOnPeriodBoundary | partyboy-core/src/timer.rs:45 | a tick clocks TIMA exactly when the timer is enabled and the new divider count is a multiple of the selected period (also lines 37-39, 66-72) |
| CartridgeBanks.Chunks | partyboy-core/src/cartridge/mod.rs:231-238 | `chunks_exact` of an image of `count` x `n` bytes gives `count` pieces of `n` bytes |
| CartridgeBanks.MulStep | partyboy-core/src/cartridge/mod.rs:230 | one bank fewer is `n` bytes fewer |
| CartridgeBanks.FlattenChunks | partyboy-core/src/cartridge/mod.rs:231-238 | the chunks laid end to end are the original image |
| CartridgeBanks.ChunkAt | partyboy-core/src/cartridge/mod.rs:231-238 | chunk `i` holds bytes `i * n` up to `i * n + n` of the image, so the banks come in order |
| CartridgeBanks.ZeroedBanks | partyboy-core/src/cartridge/mod.rs:251 | `count` RAM banks of 0x2000 zero bytes |
| CartridgeBanks.InitRomAndRam | partyboy-core/src/cartridge/mod.rs:224-258 | succeeds exactly when the ROM holds `num_rom_banks` x 0x4000 bytes and a supplied RAM `num_ram_banks` x 0x2000; then gives that many banks of those sizes |
| CartridgeBanks.InitRomAndRamKeepsImages | partyboy-core/src/cartridge/mod.rs:230-252 | the banks hold the images' bytes in order; without a RAM image every RAM byte is 0 |
| CartridgeBanks.RomBankMask | partyboy-core/src/cartridge/mbc3.rs:43-52 | the mask is an all-ones byte; for the standard bank counts up to 256 it is the count minus one |
| CartridgeBanks.MaskedBankExists | partyboy-core/src/cartridge/mbc2.rs:36-41 | for standard bank counts, a bank number inside the (possibly 4-bit) mask names a bank the cartridge has |
| CartRom.New | partyboy-core/src/cartridge/rom.rs:11-25 | succeeds exactly for a 0x8000-byte image, which becomes two 16 KiB banks laid out as the image |
| CartRom.ReadRomIsImage | partyboy-core/src/cartridge/rom.rs:29-35 | 0x0000-0x3FFF reads bank 0 and 0x4000-0x7FFF bank 1: the cartridge reads back its image byte for byte |
| Cartridge.RomBankCount | partyboy-core/src/cartridge/mod.rs:66-89 | codes 0x00-0x09 give 2-1024 banks, 0x52-0x54 give 72, 80 and 96, any other code panics |
| Cartridge.RomSizeDoubles | partyboy-core/src/cartridge/mod.rs:66-76 | each regular ROM size code doubles the bank count |
| Cartridge.RamBankCount | partyboy-core/src/cartridge/mod.rs:93-104 | codes 0x00, 0x02-0x05 give 0, 1, 4, 16 and 8 banks; any other code panics |
| Cartridge.KindOf | partyboy-core/src/cartridge/mod.rs:108-135 | type 0x00 is ROM only, 0x01-03 MBC1, 0x05-06 MBC2, 0x0F-13 MBC3, 0x19-1E MBC5, and the rest panic |
| Cartridge.DecodeHeader | partyboy-core/src/cartridge/mod.rs:53-104 | the header decodes exactly when the image reaches 0x149 and all three codes are known, to the three decoded values |
| Cartridge.NewController | partyboy-core/src/cartridge/mod.rs:111-129 | the controller of the given kind is built exactly when `init_rom_and_ram` succeeds, and a supplied RAM image reads back unchanged |
| Cartridge.New | partyboy-core/src/cartridge/mod.rs:53-136 | panics on a bad header; otherwise builds the controller the type code names, a ROM cartridge exactly for a 32 KiB image |
| Cartridge.ReadRom | partyboy-core/src/cartridge/mod.rs:138-146 | dispatches to the controller; a ROM cartridge reads its fixed banks (also partyboy-core/src/cartridge/rom.rs:29-35) |
| Cartridge.WriteRom | partyboy-core/src/cartridge/mod.rs:148-156 | dispatches to the controller, which stays well formed; a ROM cartridge changes nothing (also partyboy-core/src/cartridge/rom.rs:37-39) |
| Cartridge.ReadRam | partyboy-core/src/cartridge/mod.rs:158-166 | dispatches to the controller; a ROM cartridge reads 0 (also partyboy-core/src/cartridge/rom.rs:41-43) |
| Cartridge.WriteRam | partyboy-core/src/cartridge/mod.rs:168-176 | dispatches to the controller: a ROM cartridge ignores the write; MBC1, MBC3 and MBC5 write the mapped RAM bank when RAM is enabled, ignore the write when it is disabled and panic on a missing bank; MBC2 writes its RAM at the address's offset when RAM is enabled and ignores the write otherwise; every other register and the ROM stay (also partyboy-core/src/cartridge/rom.rs:45-47) |
| Cartridge.HasRam | partyboy-core/src/cartridge/mod.rs:198-200 | false only for the ROM cartridge |
| Cartridge.IterRam | partyboy-core/src/cartridge/mod.rs:178-196 | the RAM banks laid end to end, for every controller; the ROM cartridge panics |
| CartMbc2.RamOffset | partyboy-core/src/cartridge/mbc2.rs:105 | only the low nine address bits select a RAM cell (also line 114) |
| CartMbc2.SelectRomBank | partyboy-core/src/cartridge/mbc2.rs:78-85 | the low nibble, 0 counting as 1, cut to the mask: at most 4 bits |
| CartMbc2.Mbc2.constructor | partyboy-core/src/cartridge/mbc2.rs:43-58 | RAM disabled, bank 1 selected, and a zeroed RAM bank added when the header states none |
| CartMbc2.Mbc2.ReadRom | partyboy-core/src/cartridge/mbc2.rs:62-72 | bank 0 below 0x4000, the selected bank above; a bank the cartridge lacks panics |
| CartMbc2.Mbc2.WriteRom | partyboy-core/src/cartridge/mbc2.rs:74-98 | below 0x4000, address bit 8 chooses between ROM bank select and RAM enable (low nibble 0xA); 0x4000-0x7FFF changes nothing |
| CartMbc2.Mbc2.ReadRam | partyboy-core/src/cartridge/mbc2.rs:100-107 | 0xFF while disabled; otherwise the cell at the low nine address bits, upper nibble read as ones |
| CartMbc2.Mbc2.WriteRam | partyboy-core/src/cartridge/mbc2.rs:109-116 | dropped while disabled; otherwise stores the byte at the low nine address bits, and no other cell changes |
| CartMbc2.Mbc2.HasRam | partyboy-core/src/cartridge/mbc2.rs:47-49 | always true, since there is at least one RAM bank (also lines 118-120) |
| CartMbc2.RamMirrorsEvery512Bytes | partyboy-core/src/cartridge/mbc2.rs:100-107 | the 512 RAM cells repeat across the RAM window |
| CartMbc2.ReadRomNeverFailsForStandardSizes | partyboy-core/src/cartridge/mbc2.rs:36-41 | with a standard bank count, ROM reads never select a missing bank (also lines 62-72) |
| CartMbc2.New | partyboy-core/src/cartridge/mbc2.rs:30-58 | succeeds exactly when `init_rom_and_ram` does; RAM disabled, bank 1, at least one RAM bank |
| CartridgeBanks.EnableAfter | partyboy-core/src/cartridge/mbc3.rs:83-91 | a low nibble of 0xA enables, 0 disables, any other value keeps the latch (shared with MBC5) |
| Cartridge.KindOfCart | partyboy-core/src/cartridge/mod.rs:107-134 | the controller kind a cartridge was built as; exactly the plain ROM has no controller object |
| CartRom.ReadRom | partyboy-core/src/cartridge/rom.rs:29-35 | a ROM cartridge's image is 32 KiB and a read returns the byte at that offset of the image |
| CartMbc1.RomBankMaskLo | core/gameboy/src/cartridge/mbc1.rs:60-66 | one of the five low masks; for a standard count up to 32 banks it is the count minus one |
| CartMbc1.RomBankMaskHi | core/gameboy/src/cartridge/mbc1.rs:68-72 | 0x00, 0x20 or 0x60; for a standard count of 32-128 banks, joined with 0x1F it is the count minus one |
| CartMbc1.MaskedBankInRange | core/gameboy/src/cartridge/mbc1.rs:60-72 | a bank number inside both masks is a bank the cartridge has (also lines 114-115) |
| CartMbc1.LowBitsWriteInMasks | core/gameboy/src/cartridge/mbc1.rs:128-138 | a bank-low write keeps the selected bank inside the masks |
| CartMbc1.HighBitsWriteInMasks | core/gameboy/src/cartridge/mbc1.rs:144-145 | a bank-high write keeps the selected bank inside the masks (also lines 155-156) |
| CartMbc1.HighBitsWriteKeepsBanks | core/gameboy/src/cartridge/mbc1.rs:140-165 | in both modes the switchable bank stays inside the masks after a 0x4000-0x5FFF write |
| CartMbc1.WriteKeepsBankInMasks | core/gameboy/src/cartridge/mbc1.rs:124-180 | no ROM-area write moves the switchable bank outside the masks or the RAM bank above 3 |
| CartMbc1.LowBankZeroSelectsOne | core/gameboy/src/cartridge/mbc1.rs:131-137 | a low value of 0 selects bank 1; with the full low mask the low five bits never become 0; bits 5-6 stay |
| CartMbc1.FourRamBanksKeepRomBanks | core/gameboy/src/cartridge/mbc1.rs:147-151 | in mode 1 with four RAM banks, a 0x4000-0x5FFF write sets only the RAM bank |
| CartMbc1.Mbc1.constructor | core/gameboy/src/cartridge/mbc1.rs:76-93 | RAM disabled, registers 0, bank 1, mode 0, masks from the bank count |
| CartMbc1.Mbc1.MappedZeroBank | core/gameboy/src/cartridge/mbc1.rs:96-101 | bank 0 in mode 0; in mode 1 the high register inside the high mask |
| CartMbc1.Mbc1.MappedRamBank | core/gameboy/src/cartridge/mbc1.rs:103-108 | bank 0 in mode 0, the RAM bank register in mode 1 |
| CartMbc1.Mbc1.ReadRom | core/gameboy/src/cartridge/mbc1.rs:112-122 | the mapped zero bank below 0x4000, the switchable bank above; a missing bank panics |
| CartMbc1.Mbc1.WriteRom | core/gameboy/src/cartridge/mbc1.rs:124-180 | the registers become `AfterWriteRom` of the old ones; banks and masks stay, the switchable bank stays inside the masks |
| CartMbc1.Mbc1.SetRegs | core/gameboy/src/cartridge/mbc1.rs:124-180 | stores a register set that respects the masks, leaving banks and masks alone |
| CartMbc1.Mbc1.ReadRam | core/gameboy/src/cartridge/mbc1.rs:182-188 | 0xFF while disabled; otherwise the byte of the mapped RAM bank; a missing bank panics |
| CartMbc1.Mbc1.WriteRam | core/gameboy/src/cartridge/mbc1.rs:190-197 | dropped while disabled; otherwise the one byte changes, reads back, and every other address reads as before |
| CartMbc1.Mbc1.HasRam | core/gameboy/src/cartridge/mbc1.rs:199-201 | true exactly when there is a RAM bank |
| CartMbc1.ReadRomNeverFailsForStandardSizes | core/gameboy/src/cartridge/mbc1.rs:60-72 | with a standard bank count, ROM reads never select a missing bank (also lines 112-122) |
| CartMbc1.DisabledRamIsInert | core/gameboy/src/cartridge/mbc1.rs:182-185 | with RAM disabled every RAM read is 0xFF |
| CartMbc1.New | core/gameboy/src/cartridge/mbc1.rs:54-94 | succeeds exactly when `init_rom_and_ram` does; power-on registers over its banks |
| CartMbc1.RamEnableWrite | core/gameboy/src/cartridge/mbc1.rs:126 | RAM is enabled exactly when the low nibble is 0xA; nothing else changes |
| CartMbc1.SelectLow | core/gameboy/src/cartridge/mbc1.rs:134-137 | the bank keeps bits 5-6 and takes the masked low bits, which stay within the mask; a written 0 in bits 0-4 selects bit 0 when the mask allows it |
| CartMbc1.SelectHigh | core/gameboy/src/cartridge/mbc1.rs:144-145 | with a high mask clear of bits 0-4, the bank keeps bits 0-4 and takes high bits within the mask (also lines 155-156) |
| CartMbc1.RomBankLoWrite | core/gameboy/src/cartridge/mbc1.rs:128-138 | the low register takes 5 bits and the bank becomes `SelectLow` of the old bank; nothing else changes |
| CartMbc1.RomBankHiWrite | core/gameboy/src/cartridge/mbc1.rs:140-165 | RAM enable, low register and mode stay; a changed high register holds the value's 2 bits; the RAM bank changes only in mode 1 with 4 RAM banks; the zero bank changes only in mode 1 and to a multiple of 0x20 |
| CartMbc1.ModeWrite | core/gameboy/src/cartridge/mbc1.rs:167-173 | the mode is 1 exactly when bit 0 of the value is set; nothing else changes |
| CartMbc1.AfterWriteRom | core/gameboy/src/cartridge/mbc1.rs:124-180 | each register changes only through a write to its own address range: RAM enable below 0x2000, low register 0x2000-0x3FFF, high register, RAM bank and zero bank 0x4000-0x5FFF, mode 0x6000-0x7FFF |
| CartMbc3.SelectRomBank | partyboy-core/src/cartridge/mbc3.rs:93-100 | the value, 0 counting as 1, cut to the mask: never outside the mask |
| CartMbc3.ClockFields | partyboy-core/src/cartridge/mbc3.rs:112-118 | seconds and minutes below 60, hours below 24 |
| CartMbc3.Mbc3.constructor | partyboy-core/src/cartridge/mbc3.rs:56-68 | RAM and clock disabled, ROM bank 1, RAM bank 0, zeroed clock registers, latch memory 204 |
| CartMbc3.Mbc3.ReadRom | partyboy-core/src/cartridge/mbc3.rs:73-79 | bank 0 below 0x4000, the selected bank above; a missing bank panics |
| CartMbc3.Mbc3.SelectRamOrRtc | partyboy-core/src/cartridge/mbc3.rs:102-109 | 0-3 select a RAM bank and unmap the clock, 0x08-0x0C map the clock, other values change nothing |
| CartMbc3.Mbc3.LatchClock | partyboy-core/src/cartridge/mbc3.rs:111-121 | a write of 1 after a write of 0 copies the clock into the first three registers; each write is remembered |
| CartMbc3.Mbc3.WriteRom | partyboy-core/src/cartridge/mbc3.rs:81-125 | each of the four address ranges changes only its own registers, as above |
| CartMbc3.Mbc3.ReadRam | partyboy-core/src/cartridge/mbc3.rs:127-137 | 0xFF while disabled; otherwise the selected RAM bank even while the clock is mapped; a missing bank panics |
| CartMbc3.Mbc3.WriteRam | partyboy-core/src/cartridge/mbc3.rs:139-147 | dropped while disabled; otherwise the one byte changes, reads back, and every other address reads as before |
| CartMbc3.Mbc3.HasRam | partyboy-core/src/cartridge/mbc3.rs:149-151 | true exactly when there is a RAM bank |
| CartMbc3.ReadRomNeverFailsForStandardSizes | partyboy-core/src/cartridge/mbc3.rs:43-52 | with a standard bank count, ROM reads never select a missing bank (also lines 73-79) |
| CartMbc3.ReadRamNeverFailsWithFourBanks | partyboy-core/src/cartridge/mbc3.rs:102-104 | with four RAM banks an enabled RAM read never fails (also lines 127-137) |
| CartMbc3.New | partyboy-core/src/cartridge/mbc3.rs:37-69 | succeeds exactly when `init_rom_and_ram` does; power-on registers over its banks |
| CartMbc5.WithLowByte | partyboy-core/src/cartridge/mbc5.rs:84-87 | bit 8 stays, the low byte becomes the value inside the mask; the bank stays a 9-bit number |
| CartMbc5.WithHighBit | partyboy-core/src/cartridge/mbc5.rs:89-92 | the low byte stays, bit 8 becomes bit 0 of the value |
| CartMbc5.Mbc5.constructor | partyboy-core/src/cartridge/mbc5.rs:50-59 | RAM disabled, ROM bank 1, RAM bank 0, mask from the bank count |
| CartMbc5.Mbc5.ReadRom | partyboy-core/src/cartridge/mbc5.rs:64-70 | bank 0 below 0x4000, the selected 9-bit bank above; a missing bank panics |
| CartMbc5.Mbc5.WriteRom | partyboy-core/src/cartridge/mbc5.rs:72-104 | RAM enable, low byte, bit 8 or RAM bank (values above 0x0F ignored), each changing only its register; 0x6000-0x7FFF changes nothing |
| CartMbc5.Mbc5.ReadRam | partyboy-core/src/cartridge/mbc5.rs:106-112 | 0xFF while disabled; otherwise the selected RAM bank; a missing bank panics |
| CartMbc5.Mbc5.WriteRam | partyboy-core/src/cartridge/mbc5.rs:114-120 | dropped while disabled; otherwise the one byte changes, reads back, and every other address reads as before |
| CartMbc5.Mbc5.HasRam | partyboy-core/src/cartridge/mbc5.rs:122-124 | true exactly when there is a RAM bank |
| CartMbc5.LowThenHighSelectsBank | partyboy-core/src/cartridge/mbc5.rs:84-92 | writing the low byte and then bit 8 selects the bank they spell, whatever was selected before |
| CartMbc5.ReadRomFailsOnlyThroughBit8 | partyboy-core/src/cartridge/mbc5.rs:37-46 | with a standard bank count a read fails only when bit 8 selects a bank beyond a cartridge of at most 256 banks, and then it does fail (also lines 64-70, 89-92) |
| CartMbc5.New | partyboy-core/src/cartridge/mbc5.rs:31-60 | succeeds exactly when `init_rom_and_ram` does; power-on registers over its banks |
| CgbCompat.FromByte | core/gameboy/src/bus.rs:42-50 | 0x80 and only 0x80 marks a dual cartridge, 0xC0 and only 0xC0 a colour-only one, every other byte neither |
| HdmaTransfer.ControlWrite | partyboy-core/src/dma/hdma.rs:124-156 | during an HDMA a value with bit 7 clear only requests a stop and stores val with bit 7 set; any other write starts a transfer of `(val & 0x7F) + 1` blocks of the kind bit 7 names, which then counts consistently |
| HdmaTransfer.Advance | partyboy-core/src/dma/hdma.rs:227-247 | one word keeps the counters well formed: the bytes left a 16-bit value, the bytes of the block a whole number of words short of a block |
| HdmaTransfer.AdvanceCounters | partyboy-core/src/dma/hdma.rs:227-235 | after one word the bytes left drop by two modulo 2^16 (the 16-bit subtraction) and the bytes of the block move on by two modulo a block |
| HdmaTransfer.AdvanceCounting | partyboy-core/src/dma/hdma.rs:227-247 | without a stop the transfer keeps its kind and count until the last word, ends there with 0xFF, and each finished block lowers `hdma5` by one |
| HdmaTransfer.StopEndsAtBlockBoundary | partyboy-core/src/dma/hdma.rs:240-243 | a pending stop ends the transfer exactly at the next block boundary, with bit 7 of `hdma5` set |
| HdmaTransfer.AdvanceN | partyboy-core/src/dma/hdma.rs:209-250 | successive words keep the counters well formed |
| HdmaTransfer.BlocksDone | partyboy-core/src/dma/hdma.rs:230-235 | at most one block per word |
| HdmaTransfer.RunsToCompletion | partyboy-core/src/dma/hdma.rs:138-142 | a started transfer stays under way for fewer words than it holds and ends after its last word with `hdma5` 0xFF (also lines 227-247) |
| HdmaTransfer.BlocksDoneCount | partyboy-core/src/dma/hdma.rs:230-235 | every eighth word completes a block: after `k` words the blocks completed are the floor of (bytes of the block + 2k) / 16 |
| HdmaTransfer.StartedTransferCopiesAllBlocks | partyboy-core/src/dma/hdma.rs:124-156 | a transfer of `(val & 0x7F) + 1` blocks completes exactly that many in eight words each and then ends (also lines 209-250) |
| HdmaTransfer.SourceAddress | partyboy-core/src/dma/hdma.rs:98-100 | the source address is a 16-bit value built from its two registers |
| HdmaTransfer.DestAddress | partyboy-core/src/dma/hdma.rs:102-104 | the destination address always lies in VRAM, 0x8000-0x9FFF (also line 116) |
| HdmaTransfer.Hdma.constructor | partyboy-core/src/dma/hdma.rs:49-70 | idle, `hdma5` 0xFF, registers and addresses 0, colour-only mode |
| HdmaTransfer.Hdma.SetConsoleCompatibility | partyboy-core/src/dma/hdma.rs:73-75 | stores the mode |
| HdmaTransfer.Hdma.ReadU8 | partyboy-core/src/dma/hdma.rs:77-91 | 0xFF on the monochrome console and for 0xFF51-0xFF54; 0xFF55 reads `hdma5` |
| HdmaTransfer.Hdma.SetCounters | partyboy-core/src/dma/hdma.rs:138-142 | stores the transfer bookkeeping |
| HdmaTransfer.Hdma.WriteU8 | partyboy-core/src/dma/hdma.rs:93-160 | ignored on the monochrome console; each address changes only its register and address, with the low nibbles and the destination's top bits cleared; 0xFF55 acts as `ControlWrite` |
| HdmaTransfer.Hdma.WriteSource | partyboy-core/src/dma/hdma.rs:107-114 | stores the source registers and their address |
| HdmaTransfer.Hdma.WriteDest | partyboy-core/src/dma/hdma.rs:115-122 | stores the destination registers and their VRAM address |
| HdmaTransfer.Hdma.IsActive | partyboy-core/src/dma/hdma.rs:162-168 | true exactly while an HDMA (not a GDMA) runs |
| HdmaTransfer.Hdma.TickHdma | partyboy-core/src/dma/hdma.rs:198-250 | panics exactly for an unreadable source, a destination off the bank, or a failed read; otherwise copies two bytes into the VRAM bank and nothing else, advances the counters and both addresses by two, and reports a completed block |
| HdmaTransfer.Hdma.HandleStopRequest | partyboy-core/src/dma/hdma.rs:252-256 | clears the request, ends the transfer and sets bit 7 of `hdma5` |
| HdmaTransfer.TrackEdge | partyboy-core/src/dma/hdma.rs:291-306 | the latch is high exactly in HBlank, and entering HBlank gives a fresh edge |
| HdmaTransfer.ConsumeEdge | partyboy-core/src/dma/hdma.rs:282-289 | only a fresh edge is consumed, and it is then used up |
| HdmaTransfer.EdgeConsumedOncePerHBlank | partyboy-core/src/dma/hdma.rs:282-306 | over any run of PPU modes the edges consumed are at most the HBlank entries, plus one still fresh at the start |
| HdmaTransfer.HdmaController.constructor | partyboy-core/src/dma/hdma.rs:269-278 | waiting, clock 4, a fresh edge |
| HdmaTransfer.HdmaController.TryConsumeRisingEdge | partyboy-core/src/dma/hdma.rs:282-289 | as `ConsumeEdge` |
| HdmaTransfer.HdmaController.HandleHdma | partyboy-core/src/dma/hdma.rs:308-374 | waiting: starts only between instructions, for an HDMA, on a fresh edge, with a wind-up; in a block: one word every fourth cycle, then waits for HBlank or goes idle; waiting for HBlank: serves a stop at once, else starts the next block on a fresh edge |
| HdmaTransfer.HdmaController.StartOnEdge | partyboy-core/src/dma/hdma.rs:345-370 | starts a block only between instructions, for a running HDMA, on a fresh HBlank edge, which it uses up, with the wind-up added to the clock; otherwise nothing changes |
| HdmaTransfer.HdmaController.CopyCycle | partyboy-core/src/dma/hdma.rs:310-326 | counts the clock down and on its last cycle copies one word (`Advance` of the counters), reloads the clock and, after a finished block, waits for HBlank while the HDMA goes on and is idle otherwise |
| HdmaTransfer.HdmaController.WaitForHBlank | partyboy-core/src/dma/hdma.rs:327-338 | serves a pending stop at once (idle, transfer ended, bit 7 of `hdma5` set); otherwise starts the next block on a fresh edge and else changes nothing |
| HdmaTransfer.HdmaController.CurrentlyCopying | partyboy-core/src/dma/hdma.rs:376-381 | true exactly inside an HDMA block or while a GDMA runs |
| Rgb.ConstMono | gameboy/src/ppu/rgb.rs:24-30 | all three channels carry the given intensity |
| Rgb.Expand5 | gameboy/src/ppu/rgb.rs:44-46 | the five bits move to the top of the byte and their top three bits repeat below them |
| Rgb.Expand5Ends | gameboy/src/ppu/rgb.rs:43-49 | black stays 0 and full intensity becomes 255 |
| Rgb.Expand5Monotone | gameboy/src/ppu/rgb.rs:43-49 | the expansion keeps the order of intensities |
| Rgb.Convert555To888 | gameboy/src/ppu/rgb.rs:43-49 | every channel is expanded the same way |
| Rgb.FromBgr555 | gameboy/src/ppu/rgb.rs:32-39 | red comes from bits 0-4, green from bits 5-9, blue from bits 10-14 |
| Rgb.FromBgr555RoundTrip | gameboy/src/ppu/rgb.rs:32-39 | the 15-bit entry is recovered from the colour: only bit 15 is lost |
| PpuUnit.ModeBits | partyboy-core/src/ppu/mod.rs:127-132 | the four modes are encoded 0-3 |
| PpuUnit.ModeOfBits | partyboy-core/src/ppu/mod.rs:134-145 | decoding the two mode bits inverts the encoding |
| PpuUnit.BGMapFlagsFrom | partyboy-core/src/ppu/mod.rs:164-174 | the tile bank is 0 or 1 and the palette number 0-7 |
| PpuUnit.BGMapAttributes | partyboy-core/src/ppu/mod.rs:164-174 | the attribute byte carrying given flags leaves the unused bit 4 clear |
| PpuUnit.BGMapFlagsRoundTrip | partyboy-core/src/ppu/mod.rs:164-174 | decoding the byte built from some flags gives those flags back |
| PpuUnit.BGMapAttributesRoundTrip | partyboy-core/src/ppu/mod.rs:164-174 | every bit of the attribute byte but bit 4 is decoded |
| PpuUnit.FlipTileValue | partyboy-core/src/ppu/mod.rs:576-591 | column `val` of a tile counted from the other edge, `7 - val` |
| PpuUnit.FlipTileValueInvolution | partyboy-core/src/ppu/mod.rs:576-591 | flipping twice restores the column, and the flip is one-to-one |
| PpuUnit.Shade | partyboy-core/src/ppu/mod.rs:473-490 | the shade of colour `i` is bit pair `i` of a palette register, 0-3 |
| PpuUnit.ShadesRebuildPalette | partyboy-core/src/ppu/mod.rs:473-490 | the four shades put back together are the register |
| PpuUnit.WithLyLyc | partyboy-core/src/ppu/mod.rs:560-566 | STAT bit 2 is set exactly when LY equals LYC, and no other bit changes |
| PpuUnit.WithModeStat | partyboy-core/src/ppu/mod.rs:568-570 | STAT bits 0-1 then read back as the mode, and no other bit changes (also lines 572-574) |
| PpuUnit.StatWrite | partyboy-core/src/ppu/mod.rs:458-459 | only bits 3-6 of STAT take the written value |
| PpuUnit.StatLineNeedsASelectBit | partyboy-core/src/ppu/mod.rs:703-731 | with all select bits clear the STAT line stays low |
| PpuUnit.HBlankStep | partyboy-core/src/ppu/mod.rs:609-628 | at cycle 456 LY moves on with the coincidence bit updated; line 144 enters VBlank, requests the VBlank interrupt and marks a frame; other lines enter OAM search |
| PpuUnit.VBlankStep | partyboy-core/src/ppu/mod.rs:630-652 | four cycles into line 153 LY reads 0 early; each line end moves LY on until 153, after which OAM search starts a new frame with the window line counter cleared |
| PpuUnit.OamStep | partyboy-core/src/ppu/mod.rs:654-693 | at cycle 1 the window-line latch compares WY with LY; at cycle 80 pixel transfer starts; LY and the line clock stay |
| PpuUnit.VramStep | partyboy-core/src/ppu/mod.rs:695-701 | once the pixel pipeline finishes the line, HBlank starts |
| PpuUnit.HBlankKeepsLinesInRange | partyboy-core/src/ppu/mod.rs:609-628 | the end of a visible line keeps LY in range, and VBlank is entered from line 143 only |
| PpuUnit.VBlankKeepsLinesInRange | partyboy-core/src/ppu/mod.rs:630-652 | VBlank keeps LY within 144-153, or at 0 while line 153 ends early, and leaves with LY 0 |
| PpuUnit.StepKeepsLinesInRange | partyboy-core/src/ppu/mod.rs:739-756 | every cycle keeps LY inside the range of its mode, and the VBlank interrupt comes from line 143 only |
| PpuUnit.EarlyFlagSurvivesVisibleLines | partyboy-core/src/ppu/mod.rs:609-628 | no cycle outside VBlank touches the early-line-153 flag (also lines 654-701) |
| PpuUnit.ResetTimingAsWritten | partyboy-core/src/ppu/mod.rs:396-405 | LY, both clocks and the STAT mode bits go to 0 and OAM search is the mode; the early-line-153 flag is kept |
| PpuUnit.ResetTiming | partyboy-core/src/ppu/mod.rs:396-405 | the same reset with the early flag cleared; it satisfies the line invariant |
| PpuUnit.ResetAsWrittenKeepsEarlyLine | partyboy-core/src/ppu/mod.rs:396-405 | a reset while line 153 reads LY 0 breaks the line invariant, and the next VBlank then leaves at line 144 with LY outside the visible range (also lines 630-652) |
| PpuUnit.ColorPalette.constructor | partyboy-core/src/ppu/mod.rs:307-321 | palette RAM all 0xFF, index register 0xFF, index 0, no auto-increment |
| PpuUnit.ColorPalette.ReadSpecification | partyboy-core/src/ppu/mod.rs:424 | the index register reads with bits 6-7 set (also line 426) |
| PpuUnit.ColorPalette.ReadData | partyboy-core/src/ppu/mod.rs:425 | the data port reads the palette byte at the index (also line 427) |
| PpuUnit.ColorPalette.WriteSpecification | partyboy-core/src/ppu/mod.rs:496-502 | the index is the low six bits and bit 7 sets auto-increment (also lines 523-529) |
| PpuUnit.ColorPalette.WriteData | partyboy-core/src/ppu/mod.rs:503-521 | stores the byte at the index and nowhere else, re-decodes only the colour it belongs to, and with auto-increment moves the index on, wrapping 63 to 0 (also lines 530-548) |
| PpuUnit.NextPaletteIndex | partyboy-core/src/ppu/mod.rs:516-517 | the index moves on by one and wraps from 63 to 0 |
| PpuUnit.AutoIncrementCycles | partyboy-core/src/ppu/mod.rs:515-520 | up to 64 auto-incrementing writes move the index on by one each, wrapping once past 63, so 64 writes visit every palette byte once and return to the start |
| PpuUnit.IterateIndex | partyboy-core/src/ppu/mod.rs:515-520 | the index stays within 0-63 |
| PpuUnit.AfterRegisterWrite | partyboy-core/src/ppu/mod.rs:462-464 | the addressed plain register takes the value, LY ignores the write, the VRAM bank register keeps only bit 0 with all other bits set (also lines 472, 491-494) |
| PpuUnit.Ppu.constructor | partyboy-core/src/ppu/mod.rs:269-331 | registers cleared, VRAM bank register 0xFE, identity DMG palettes, OAM search on line 0, LCD marked powered off |
| PpuUnit.Ppu.SetConsoleCompatibility | partyboy-core/src/ppu/mod.rs:363-370 | stores the mode here and in the HDMA registers; the monochrome console sets the STAT offset to 4 |
| PpuUnit.Ppu.ConsumeDrawFlag | partyboy-core/src/ppu/mod.rs:382-386 | reports a finished frame once and clears the flag |
| PpuUnit.Ppu.VramBank | partyboy-core/src/ppu/mod.rs:389 | bit 0 of the bank register selects the bank (also line 393) |
| PpuUnit.Ppu.ReadVram | partyboy-core/src/ppu/mod.rs:388-390 | the byte of the selected bank |
| PpuUnit.Ppu.WriteVram | partyboy-core/src/ppu/mod.rs:392-394 | one byte of the selected bank changes; the other bank is untouched |
| PpuUnit.Ppu.GetModeStat | partyboy-core/src/ppu/mod.rs:572-574 | the mode shown in STAT bits 0-1 |
| PpuUnit.Ppu.ReadU8 | partyboy-core/src/ppu/mod.rs:407-433 | LCDC, SCY, SCX, LY, LYC, DMA, BGP, OBP0, OBP1, WY, WX and the VRAM bank read as stored; STAT reads with bit 7 set, the palette index registers with bits 6-7 set, the data ports the byte at the index, 0xFF6C as 0xFF |
| PpuUnit.Ppu.SetTiming | partyboy-core/src/ppu/mod.rs:739-756 | stores the line timing |
| PpuUnit.CycleFlags | partyboy-core/src/ppu/mod.rs:739-756 | the interrupt flags after one cycle: the VBlank bit set when VBlank was entered, the STAT bit set when the STAT line rose, every other bit as before |
| PpuUnit.RequestVBlankIf | partyboy-core/src/ppu/mod.rs:747-750 | the VBlank bit is or'd into the flags exactly when VBlank was entered; IME and IE are untouched |
| PpuUnit.Ppu.UpdateStatIrqConditions | partyboy-core/src/ppu/mod.rs:703-737 | the STAT interrupt is requested only on a rising combined condition, which is remembered; nothing else changes in the interrupt state |
| PpuUnit.Ppu.Tick | partyboy-core/src/ppu/mod.rs:739-756 | nothing while the LCD is off; otherwise one cycle of the line timing, the STAT line re-evaluated, and the interrupt flags exactly `CycleFlags` of the old flags, VBlank entry and a rising STAT line; IME and IE are untouched and the line invariant is kept |
| PpuUnit.Ppu.StepLine | partyboy-core/src/ppu/mod.rs:744-752 | both clocks advance and the mode handler runs, as the timing step function says, keeping the line invariant; the flag reports entry into VBlank |
| PpuUnit.Ppu.RaiseLineInterrupts | partyboy-core/src/ppu/mod.rs:747-754 | the new interrupt flags are exactly `CycleFlags` of the old flags, VBlank entry and a rising STAT line, so the VBlank request stays raised; IME and IE are untouched; the STAT line state is the combined condition of the new STAT, LY and LYC |
| PpuUnit.Ppu.WritePalette | partyboy-core/src/ppu/mod.rs:475-477 | the four shades of the value go into the palette |
| PpuUnit.Ppu.WriteLcdc | partyboy-core/src/ppu/mod.rs:437-457 | stores LCDC; switching the LCD on clears the powered-off mark, switching it off resets the line timing through the corrected `ResetTiming` (first Findings row), which also clears the early line-153 mark |
| PpuUnit.Ppu.WriteRegister | partyboy-core/src/ppu/mod.rs:462-464 | the registers become `AfterRegisterWrite` of the old ones (also lines 472, 491-494) |
| PpuUnit.Ppu.WriteStat | partyboy-core/src/ppu/mod.rs:458-461 | only bits 3-6 change, and the STAT line is re-evaluated |
| PpuUnit.Ppu.WriteLyc | partyboy-core/src/ppu/mod.rs:465-471 | stores LYC; while the LCD is on the coincidence bit follows it at once |
| PpuUnit.Ppu.WriteDmgPalette | partyboy-core/src/ppu/mod.rs:473-490 | the addressed DMG palette register and its four shades change, the other two stay |
| PpuUnit.Ppu.WriteColorRegister | partyboy-core/src/ppu/mod.rs:496-554 | 0xFF68/0xFF6A set the palette's specification, index and auto-increment; 0xFF69/0xFF6B write the byte at the index, recompute only that colour from its BGR555 pair, keep every other byte and colour, and advance the index when auto-increment is on; the other palette is unchanged; 0xFF6C bit 0 chooses coordinate order |
| PpuUnit.VramBankRegisterReadsBank | partyboy-core/src/ppu/mod.rs:422 | the bank register reads back its bit 0 with every other bit set (also line 494) |
| PpuUnit.StatIrqLine | partyboy-core/src/ppu/mod.rs:704-729 | the line is high exactly when the select bit of the current mode is set (bit 3 for HBlank, 4 for VBlank, 5 for OAM, none for VRAM) or bit 6 is set and LY equals LYC |
| PpuUnit.StepTiming | partyboy-core/src/ppu/mod.rs:739-753 | one cycle of the clocks and the mode handler with the LCD on; the VBlank interrupt is raised only when HBlank gives way to VBlank |
| OamDmaUnit.TransferStep | gameboy/src/dma/oam.rs:45-60 | every fourth cycle of a running transfer the index moves on by one and the transfer ends after byte 160; otherwise only the cycle counter moves; an idle transfer is unchanged |
| OamDmaUnit.QueueStep | gameboy/src/dma/oam.rs:62-72 | the queue runs down; when it reaches 0 a transfer starts at the queued page from byte 0, replacing one still running |
| OamDmaUnit.Step | gameboy/src/dma/oam.rs:44-73 | the counters stay well formed |
| OamDmaUnit.StepN | gameboy/src/dma/oam.rs:44-73 | the counters stay well formed over any number of cycles |
| OamDmaUnit.Queued | gameboy/src/dma/oam.rs:30-33 | five cycles are queued for the written page |
| OamDmaUnit.QueueCountsDown | gameboy/src/dma/oam.rs:62-66 | while the queue runs down it keeps the queued page |
| OamDmaUnit.QueueStartsTransfer | gameboy/src/dma/oam.rs:30-33 | a write starts its transfer exactly five cycles later at its page, and not earlier (also lines 62-72) |
| OamDmaUnit.StepNAdd | gameboy/src/dma/oam.rs:44-73 | `a` cycles then `b` cycles are `a + b` cycles |
| OamDmaUnit.FourCyclesCopyOneByte | gameboy/src/dma/oam.rs:45-60 | four cycles of a running transfer copy exactly one byte, on the fourth |
| OamDmaUnit.TransferCopiesWholeTable | gameboy/src/dma/oam.rs:45-60 | after `4 * k` cycles `k` bytes are copied, and the transfer runs exactly until 160 |
| OamDmaUnit.IdleStepIsStill | gameboy/src/dma/oam.rs:44-73 | with nothing running or queued a cycle changes nothing |
| OamDmaUnit.OamDma.constructor | gameboy/src/dma/oam.rs:14-27 | the register reads 0xFF and nothing runs |
| OamDmaUnit.OamDma.SetCounters | gameboy/src/dma/oam.rs:44-73 | stores the counters |
| OamDmaUnit.OamDma.ReadU8 | gameboy/src/dma/oam.rs:35-37 | the last value written |
| OamDmaUnit.OamDma.WriteU8 | gameboy/src/dma/oam.rs:39-42 | the register keeps the value and the counters become `Queued` of the old ones |
| MemoryBus.WorkRamRegion | core/gameboy/src/bus.rs:156-160 | 0xC000-0xCFFF and its echo reach bank 0, 0xD000-0xDFFF and its echo the selected bank, at an offset below 0x1000 (also lines 213-221) |
| MemoryBus.IoReadRegion | core/gameboy/src/bus.rs:175-194 | the I/O addresses in the order of `read_u8`'s arms; an unclaimed one reads the I/O byte at its own offset |
| MemoryBus.ReadRegion | core/gameboy/src/bus.rs:139-197 | the boot ROM overlays 0x0000-0x00FF and 0x0200-0x08FF while enabled; every offset fits its storage |
| MemoryBus.IoWriteRegion | core/gameboy/src/bus.rs:234-286 | the I/O addresses in the order of `write_u8`'s arms; an unclaimed one writes the I/O byte at its own offset |
| MemoryBus.WriteRegion | core/gameboy/src/bus.rs:199-289 | the boot ROM is never written; every offset fits its storage |
| MemoryBus.EchoAliasesWorkRam | core/gameboy/src/bus.rs:156-160 | 0xE000-0xFDFF reach the same bytes as 0x2000 lower, for reads and writes (also lines 213-221) |
| MemoryBus.PlainRamRoutesAlike | core/gameboy/src/bus.rs:156-160 | work, echo and high RAM route the same way for reads and writes, to storage the bus owns (also lines 195, 213-221, 287) |
| MemoryBus.ReadAndWriteRoutesDiffer | core/gameboy/src/bus.rs:139-289 | with the boot ROM off, reads and writes route alike except at 0xFF01, 0xFF03, 0xFF4C, 0xFF50 and 0xFF6C |
| MemoryBus.WorkRamBankFor | core/gameboy/src/bus.rs:278-284 | bank 1-7: the low three bits, 0 selecting 1 |
| MemoryBus.CompatibilityAfterWrite | core/gameboy/src/bus.rs:253-260 | 0x80 or 0xC0 selects colour mode, anything else monochrome |
| MemoryBus.Join16 | core/gameboy/src/bus.rs:291-293 | the low and high bytes of the joined word are the two bytes |
| MemoryBus.Join16Split | core/gameboy/src/bus.rs:295-301 | splitting a word and joining the bytes restores it |
| MemoryBus.Bus.constructor | core/gameboy/src/bus.rs:87-116 | zeroed RAM, work RAM bank 1, the boot ROM mapped in, colour mode |
| MemoryBus.Bus.CellOf | core/gameboy/src/bus.rs:156-160 | the work or high RAM cell a plain RAM address reaches lies inside its storage (also line 195) |
| MemoryBus.Bus.ReadU8 | core/gameboy/src/bus.rs:139-197 | device addresses read from their owner; plain RAM reads its cell; OAM reads 0xFF during OAM DMA and above 0xFE9F; IF reads with bits 5-7 set |
| MemoryBus.Bus.WriteWorkRam | core/gameboy/src/bus.rs:213-221 | one work RAM byte changes |
| MemoryBus.Bus.WriteOwned | core/gameboy/src/bus.rs:213-287 | each bus-owned address changes only its storage or register; OAM is not written during OAM DMA; 0xFF70 and 0xFF4C store their decoded values |
| MemoryBus.Bus.WriteU8 | core/gameboy/src/bus.rs:199-289 | device writes are handed on unchanged and leave the bus alone; a plain RAM byte reads back and no other plain RAM cell changes |
| MemoryBus.Bus.ReadU16 | core/gameboy/src/bus.rs:291-293 | little-endian: the byte at the address low, the next byte high |
| MemoryBus.Bus.WriteU16 | core/gameboy/src/bus.rs:295-301 | over plain RAM the word reads back and no other cell changes |
| MemoryBus.Bus.DmaTick | gameboy/src/dma/oam.rs:44-73 | the counters take one step; on a copy cycle the byte read through the bus lands at the index of the sprite table and nowhere else |
| ApuEnvelope.DirectionFrom | core/gameboy/src/apu/envelope.rs:11-19 | 0 decreases, 1 increases, any other value fails |
| ApuEnvelope.Decode | core/gameboy/src/apu/envelope.rs:45-59 | the period is bits 0-2, the start volume bits 4-7, bit 3 chooses increase; the timer is full and the volume at its start |
| ApuEnvelope.Stepped | core/gameboy/src/apu/envelope.rs:61-73 | one step towards 15 or 0, held at that end |
| ApuEnvelope.Step | core/gameboy/src/apu/envelope.rs:79-95 | the envelope stays well formed and its settings stay |
| ApuEnvelope.StepN | core/gameboy/src/apu/envelope.rs:79-95 | the same over any number of clocks |
| ApuEnvelope.ZeroPeriodHoldsVolume | core/gameboy/src/apu/envelope.rs:80-82 | with period 0 no clock changes anything |
| ApuEnvelope.StepNAdd | core/gameboy/src/apu/envelope.rs:79-95 | `a` clocks then `b` clocks are `a + b` clocks |
| ApuEnvelope.TimerCountsDown | core/gameboy/src/apu/envelope.rs:84-86 | before the timer runs out it counts down and the volume holds |
| ApuEnvelope.OnePeriodStepsOnce | core/gameboy/src/apu/envelope.rs:84-95 | the volume steps exactly once when the timer runs out, and the timer restarts a full period |
| ApuEnvelope.VolumeAfterPeriods | core/gameboy/src/apu/envelope.rs:79-95 | after `k` whole periods the volume has moved `k` steps in its direction, stopping at 0 or 15 |
| ApuEnvelope.Envelope.constructor | core/gameboy/src/apu/envelope.rs:32-42 | silent, decreasing, period 0 |
| ApuEnvelope.Envelope.Init | core/gameboy/src/apu/envelope.rs:45-59 | the envelope becomes the one NRx2 describes |
| ApuEnvelope.Envelope.CurrentVol | core/gameboy/src/apu/envelope.rs:75-77 | the current volume, at most 15 |
| ApuEnvelope.Envelope.Tick | core/gameboy/src/apu/envelope.rs:79-95 | the state becomes `Step` of the old one |
| ApuLength.LengthModeFrom | core/gameboy/src/apu/length.rs:43-51 | 0 is infinite, 1 timed, anything else fails |
| ApuLength.Loaded | core/gameboy/src/apu/length.rs:20-23 | the counter runs with the base length minus the loaded length, 16-bit wrapping; it is safe exactly unless the two are equal |
| ApuLength.Clocked | core/gameboy/src/apu/length.rs:26-34 | a stopped counter reports nothing; a running one loses one and reports and stops exactly on reaching 0; a running counter at 0 underflows |
| ApuLength.TickN | core/gameboy/src/apu/length.rs:26-34 | clocks that go through keep the counter safe |
| ApuLength.RunsOutAfterTimer | core/gameboy/src/apu/length.rs:26-34 | a counter with `n` clocks left reports running out on the `n`-th clock and not before |
| ApuLength.Length.constructor | core/gameboy/src/apu/length.rs:12-18 | stopped, timer 0, the given base |
| ApuLength.Length.Init | core/gameboy/src/apu/length.rs:20-23 | the state becomes `Loaded` of the old one |
| ApuLength.Length.Tick | core/gameboy/src/apu/length.rs:26-34 | the state and report are those of `Clocked`, or the underflow |
| ApuLength.ChannelInitIsSafe | core/gameboy/src/apu/noise_channel.rs:32 | a counter of base 64 loaded with the low six bits of NRx1 holds 1-64 clocks and never underflows (also lines 64-65) |
| ApuSweep.SweepDirectionFrom | core/gameboy/src/apu/sweep.rs:11-19 | 0 increases, 1 decreases, anything else fails |
| ApuSweep.New | core/gameboy/src/apu/sweep.rs:46-59 | period bits 4-6, bit 3 the direction, slope bits 0-2; the sweep runs when period or slope is non-zero; a zero period times out after 8 |
| ApuSweep.ShiftRight | core/gameboy/src/apu/sweep.rs:66 | `x >> n` never exceeds `x`, and is smaller for `n > 0` |
| ApuSweep.CalcFreq | core/gameboy/src/apu/sweep.rs:65-79 | a new frequency is at most 2047; past 2047 the sweep switches off and gives none; only an increase can overflow 16 bits |
| ApuSweep.DecreaseStaysInRange | core/gameboy/src/apu/sweep.rs:65-79 | a decreasing sweep always gives a frequency no higher than the old one, non-zero for a non-zero slope |
| ApuSweep.ZeroSlopeDoublesOrClears | core/gameboy/src/apu/sweep.rs:65-79 | with slope 0 a decrease gives 0 and an increase doubles the frequency or switches off |
| ApuSweep.IncreaseNeverLowers | core/gameboy/src/apu/sweep.rs:65-79 | an increase from at most 2047 never overflows and never lowers the frequency |
| ApuSweep.Tick | core/gameboy/src/apu/sweep.rs:81-113 | the settings never change and the timer stays in range |
| ApuSweep.StoppedSweepPassesThrough | core/gameboy/src/apu/sweep.rs:82-84 | a stopped sweep passes the frequency through and changes nothing |
| ApuSweep.WaitingSweepPassesThrough | core/gameboy/src/apu/sweep.rs:86-92 | until the timer runs out only the timer changes |
| ApuSweep.TickNoneIffSwitchedOff | core/gameboy/src/apu/sweep.rs:81-113 | from at most 2047 a tick never overflows, gives none exactly when it switches the sweep off, and a new frequency is at most 2047 |
| ApuSweep.Sweep.constructor | core/gameboy/src/apu/sweep.rs:46-59 | the state is `New` of the register and frequency |
| ApuSweep.Sweep.IsEnabled | core/gameboy/src/apu/sweep.rs:61-63 | whether the sweep runs |
| ApuSweep.Sweep.CalcFreqStep | core/gameboy/src/apu/sweep.rs:65-79 | the state and result are those of `CalcFreq` |
| ApuSweep.Sweep.TickStep | core/gameboy/src/apu/sweep.rs:81-113 | the state and result are those of `Tick` |
| SpeedController.Toggled | core/gameboy/src/cpu/speed_controller.rs:52-55 | a switch always changes the speed |
| SpeedController.ToggleTwice | core/gameboy/src/cpu/speed_controller.rs:52-55 | two switches restore the starting speed |
| SpeedController.Key1 | core/gameboy/src/cpu/speed_controller.rs:58-60 | bit 7 is set exactly in double speed, bit 0 exactly when a switch is armed, bits 1-6 read as 1 |
| SpeedController.Key1Determines | core/gameboy/src/cpu/speed_controller.rs:58-60 | KEY1 tells all four controller states apart |
| SpeedController.CpuSpeedController.constructor | core/gameboy/src/cpu/speed_controller.rs:22-28 | single speed, nothing armed, the given compatibility |
| SpeedController.CpuSpeedController.IsDoubleSpeed | core/gameboy/src/cpu/speed_controller.rs:30-32 | true exactly in double speed |
| SpeedController.CpuSpeedController.SetConsoleCompatibility | core/gameboy/src/cpu/speed_controller.rs:34-36 | stores the compatibility and nothing else |
| SpeedController.CpuSpeedController.SetPrepareSpeedSwitch | core/gameboy/src/cpu/speed_controller.rs:38-43 | stores the armed flag, which is then what the controller reports |
| SpeedController.CpuSpeedController.IsSpeedSwitchPrepared | core/gameboy/src/cpu/speed_controller.rs:45-47 | the armed flag |
| SpeedController.CpuSpeedController.SwitchSpeed | core/gameboy/src/cpu/speed_controller.rs:49-56 | an armed switch toggles the speed and disarms |
| SpeedController.CpuSpeedController.ReadKey1 | core/gameboy/src/cpu/speed_controller.rs:58-60 | the register is `Key1` of the state |
| SpeedController.SwitchTwice | core/gameboy/src/cpu/speed_controller.rs:38-60 | arming and switching twice restores the speed and the KEY1 reading |
| ApuFrameSequencer.ComponentsOverOneRound | core/gameboy/src/apu/frame_sequencer.rs:23-31 | over one round of eight steps the length counters are clocked on the odd steps, the sweep on steps 2 and 6, the envelopes on step 7, and sweep and envelope never together |
| ApuFrameSequencer.NextCycle | core/gameboy/src/apu/frame_sequencer.rs:53-58 | the step advances by one modulo 8 |
| ApuFrameSequencer.Clocked | core/gameboy/src/apu/frame_sequencer.rs:60-89 | both latches take the new DIV bits; on a falling edge of the bit chosen by the speed the current step's components are returned and the step advances, otherwise the step holds and nothing is clocked |
| ApuFrameSequencer.Run | core/gameboy/src/apu/frame_sequencer.rs:60-89 | any run of ticks keeps the step in 0-7 |
| ApuFrameSequencer.FallingEdges | core/gameboy/src/apu/frame_sequencer.rs:33-35 | a run has at most one falling edge per value |
| ApuFrameSequencer.RunCountsFallingEdges | core/gameboy/src/apu/frame_sequencer.rs:60-89 | after any run of DIV values the step has advanced once per falling edge of the clocking bit, modulo 8 |
| ApuFrameSequencer.FrameSequencer.constructor | core/gameboy/src/apu/frame_sequencer.rs:45-51 | step 0, both latches low |
| ApuFrameSequencer.FrameSequencer.StepCycle | core/gameboy/src/apu/frame_sequencer.rs:53-58 | the step becomes `NextCycle` of the old step |
| ApuFrameSequencer.FrameSequencer.Tick | core/gameboy/src/apu/frame_sequencer.rs:60-89 | the new state and the clocked components are those of `Clocked` |
| ApuNoise.Pow2 | core/gameboy/src/apu/noise_channel.rs:142 | the factor of a left shift is at least 1 |
| ApuNoise.Divisor | core/gameboy/src/apu/noise_channel.rs:146-151 | code 0 divides by 8, any other code by 16 times the code; the divisor is a multiple of 8 between 8 and 112 |
| ApuNoise.ReloadPeriod | core/gameboy/src/apu/noise_channel.rs:142 | the timer reload is at least 8 cycles, so the timer never reloads to 0 (also line 159) |
| ApuNoise.NewGenerator | core/gameboy/src/apu/noise_channel.rs:128-144 | the divisor code is bits 0-2, the width bit 3, the shift bits 4-7; the register starts at fifteen ones and the timer a full period ahead; the generator is well formed |
| ApuNoise.Width15Feedback | core/gameboy/src/apu/noise_channel.rs:161 | in 15-bit mode bits 0-13 are the old bits shifted down and bit 14 is bit 0 XOR bit 1 (also line 164) |
| ApuNoise.Width7Feedback | core/gameboy/src/apu/noise_channel.rs:161 | in 7-bit mode every bit but bit 6 is the old bit shifted down and bit 6 is bit 0 XOR bit 1 (also line 163) |
| ApuNoise.LfsrStaysLive | core/gameboy/src/apu/noise_channel.rs:161-165 | a live register (within 15 bits, not zero, and in 7-bit mode not zero in bits 0-6) stays live |
| ApuNoise.GenTick | core/gameboy/src/apu/noise_channel.rs:153-166 | a tick keeps the generator well formed (the timer never underflows) and never changes its settings |
| ApuNoise.GenTickN | core/gameboy/src/apu/noise_channel.rs:153-166 | any number of ticks keeps the generator well formed and its settings |
| ApuNoise.RegisterHoldsUntilTimeout | core/gameboy/src/apu/noise_channel.rs:154-157 | before the timer runs out only the timer moves |
| ApuNoise.RegisterStepsOncePerPeriod | core/gameboy/src/apu/noise_channel.rs:153-166 | when the timer runs out the register steps exactly once and the timer reloads a full period |
| ApuNoise.GenSample | core/gameboy/src/apu/noise_channel.rs:168-170 | the sample is 0 or 1, and 1 exactly when bit 0 of the register is clear |
| ApuNoise.WhiteNoiseGenerator.constructor | core/gameboy/src/apu/noise_channel.rs:128-144 | the state is `NewGenerator` of the register value |
| ApuNoise.WhiteNoiseGenerator.Rebuild | core/gameboy/src/apu/noise_channel.rs:57 | the state becomes `NewGenerator` of NR43 (also line 72) |
| ApuNoise.WhiteNoiseGenerator.Tick | core/gameboy/src/apu/noise_channel.rs:153-166 | the new state is `GenTick` of the old |
| ApuNoise.WhiteNoiseGenerator.Sample | core/gameboy/src/apu/noise_channel.rs:168-170 | the sample is `GenSample` of the state |
| ApuNoise.InitialChannel | core/gameboy/src/apu/noise_channel.rs:27-39 | the new channel is silent and well formed |
| ApuNoise.ReadChannel | core/gameboy/src/apu/noise_channel.rs:41-49 | reads succeed exactly for 0xFF20-0xFF23, any other address panics |
| ApuNoise.WriteChannel | core/gameboy/src/apu/noise_channel.rs:51-77 | writes succeed exactly for 0xFF20-0xFF23 and keep the channel well formed |
| ApuNoise.AfterNr44 | core/gameboy/src/apu/noise_channel.rs:59-74 | NR44 is stored, its bit 6 selects the length mode, and the channel stays well formed |
| ApuNoise.Triggered | core/gameboy/src/apu/noise_channel.rs:68-73 | a trigger enables the channel, restarts the envelope from NR42, rebuilds the generator from NR43, and changes nothing else |
| ApuNoise.ReadAfterWrite | core/gameboy/src/apu/noise_channel.rs:41-77 | every register reads back what was written, except that NR44 reads its bits other than 6 as 1 |
| ApuNoise.TriggerWithLength | core/gameboy/src/apu/noise_channel.rs:59-74 | NR44 with bits 6 and 7 enables the channel in timed mode with `64 - (NR41 & 0x3F)` clocks to run, the envelope at NR42's start volume and the register reseeded |
| ApuNoise.TickChannel | core/gameboy/src/apu/noise_channel.rs:83-97 | a silent channel does not change; a tick never enables a channel and never changes the registers or the length mode |
| ApuNoise.LengthClocks | core/gameboy/src/apu/noise_channel.rs:83-97 | length clocks keep the channel well formed and its length mode |
| ApuNoise.SilencedWhenLengthRunsOut | core/gameboy/src/apu/noise_channel.rs:88-90 | a running timed channel sounds for exactly as many length clocks as its counter holds |
| ApuNoise.TriggeredChannelRunsOut | core/gameboy/src/apu/noise_channel.rs:59-97 | after a trigger with the length enabled the channel sounds for `64 - (NR41 & 0x3F)` length clocks and is then silent |
| ApuNoise.NoiseChannel.constructor | core/gameboy/src/apu/noise_channel.rs:27-39 | the state is `InitialChannel` |
| ApuNoise.NoiseChannel.ReadU8 | core/gameboy/src/apu/noise_channel.rs:41-49 | the result is `ReadChannel` of the state |
| ApuNoise.NoiseChannel.Enabled | core/gameboy/src/apu/noise_channel.rs:79-81 | the enabled flag of the state |
| ApuNoise.NoiseChannel.WriteU8 | core/gameboy/src/apu/noise_channel.rs:51-77 | the new state is `WriteChannel` of the old; a panicking write changes nothing |
| ApuNoise.NoiseChannel.WriteNr44 | core/gameboy/src/apu/noise_channel.rs:59-74 | the new state is `AfterNr44` of the old |
| ApuNoise.NoiseChannel.Trigger | core/gameboy/src/apu/noise_channel.rs:68-73 | the new state is `Triggered` of the old |
| ApuNoise.NoiseChannel.Tick | core/gameboy/src/apu/noise_channel.rs:83-97 | the new state is `TickChannel` of the old |
| ApuNoise.LfsrStep | core/gameboy/src/apu/noise_channel.rs:161-165 | one step of the register; its contract is in `Width15Feedback`, `Width7Feedback` and `LfsrStaysLive`: the bits shift down, the feedback bit is bit 0 XOR bit 1, and a live register stays live |
| Joypad.BitIndex | core/gameboy/src/input.rs:52-78 | every key reads on one of bits 0-3 |
| Joypad.ButtonAt | core/gameboy/src/input.rs:52-58 | each of bits 0-3 carries exactly one button |
| Joypad.DirectionAt | core/gameboy/src/input.rs:61-67 | each of bits 0-3 carries exactly one direction |
| Joypad.WithLevel | core/gameboy/src/input.rs:86-112 | the chosen key takes the new level and every other key keeps its own |
| Joypad.PressThenRelease | core/gameboy/src/input.rs:86-112 | pressing and then releasing a released key restores the keys |
| Joypad.Joyp | core/gameboy/src/input.rs:49-84 | bits 6 and 7 always read 1; a column other than 0x10, 0x20 or 0x30 reads 0xC0 |
| Joypad.SelectedColumnReadsItsKeys | core/gameboy/src/input.rs:49-84 | with one column selected each of its keys reads on its own bit, 0 exactly when pressed, and bits 4-5 read 0 |
| Joypad.BothColumnsCombineKeys | core/gameboy/src/input.rs:70-78 | with both columns selected a bit reads 0 exactly when both keys on it are pressed (corrected read) |
| Joypad.AsWrittenDiffersOnlyOnBothColumns | core/gameboy/src/input.rs:49-84 | the read as written agrees with the corrected read for every column but 0x30 |
| Joypad.AsWrittenIgnoresRight | core/gameboy/src/input.rs:70-78 | as written, with both columns selected, A pressed alone clears bit 0 although Right is released, while B alone leaves bit 1 set; the corrected read keeps bit 0 set |
| Joypad.Input.constructor | core/gameboy/src/input.rs:30-43 | all keys released, both columns selected |
| Joypad.Input.SetColumnLine | core/gameboy/src/input.rs:45-47 | only bits 4 and 5 of the written value are kept |
| Joypad.JoypAsWritten | core/gameboy/src/input.rs:49-84 | the read as written: bits 6-7 read 1; with both columns selected bit 0 is A's level alone, with Right left out, and, when Right's level is 0 or 1, bits 1-7 agree with the corrected read |
| Joypad.Input.ReadJoyp | core/gameboy/src/input.rs:49-84 | the register is the corrected `Joyp` of the keys and column (second Findings row), with bits 6-7 set |
| Joypad.Input.KeyDown | core/gameboy/src/input.rs:86-99 | the key becomes pressed, no other key changes, and the call reports true |
| Joypad.Input.KeyUp | core/gameboy/src/input.rs:101-112 | the key becomes released and no other key changes |
| Joypad.Input.ReleaseAllKeys | core/gameboy/src/input.rs:114-123 | every key is released |
| BitPacked.Pow256UpToEight | common/src/bitpacked.rs:12 | eight bytes fit a 64-bit word (also lines 23, 32) |
| BitPacked.WordOf | common/src/bitpacked.rs:23 | the bytes packed into a word, lowest first, stay below 256 to the byte count (also lines 28-32) |
| BitPacked.BytesOfSnoc | common/src/bitpacked.rs:54-56 | the low `n + 1` bytes of a word are the low `n` then byte `n` |
| BitPacked.BytesOf | common/src/bitpacked.rs:48 | a word gives exactly the requested number of bytes (also line 55) |
| BitPacked.ByteAtWordOf | common/src/bitpacked.rs:23 | byte `i` of a packed word is the `i`-th byte packed (also lines 32, 48, 55) |
| BitPacked.BytesOfWordOf | common/src/bitpacked.rs:23 | taking a packed word apart gives back its bytes (also lines 32, 48, 55) |
| BitPacked.Words | common/src/bitpacked.rs:17-34 | one word per eight bytes, rounded up |
| BitPacked.Pack | common/src/bitpacked.rs:14-37 | the byte count is the state's length and there are `ceil(len / 8)` words |
| BitPacked.Flat | common/src/bitpacked.rs:48 | whole words give eight bytes each |
| BitPacked.FlatAppend | common/src/bitpacked.rs:44-49 | the bytes of two runs of words are the bytes of each in turn |
| BitPacked.Unpacked | common/src/bitpacked.rs:39-62 | unpacking panics exactly when the byte count leaves a remainder and there are no words |
| BitPacked.FirstChunk | common/src/bitpacked.rs:17-25 | a state of at least eight bytes packs as its first chunk's word, then the rest's words |
| BitPacked.FirstChunkFlat | common/src/bitpacked.rs:17-25 | the whole chunks' bytes are the first chunk's, then the rest's |
| BitPacked.FlatSingle | common/src/bitpacked.rs:48 | one word gives its eight bytes |
| BitPacked.PrefixSplit | common/src/bitpacked.rs:17 | the first `8(q+1)` bytes are the first chunk then the next `8q` |
| BitPacked.WordsLayout | common/src/bitpacked.rs:14-37 | the leading words hold the whole chunks, and a remainder is the last word's low bytes |
| BitPacked.UnpackPack | common/src/bitpacked.rs:65-83 | `unpack(pack(x)) == x` for every state, with or without a remainder |
| BitPacked.Unpack | common/src/bitpacked.rs:39-62 | the loop computes `Unpacked` |
| Disassembler.X | partyboy-disassembler/src/opcode/parts.rs:16-18 | x is at most 3 |
| Disassembler.Y | partyboy-disassembler/src/opcode/parts.rs:20-22 | y is at most 7 |
| Disassembler.Z | partyboy-disassembler/src/opcode/parts.rs:24-26 | z is at most 7 |
| Disassembler.P | partyboy-disassembler/src/opcode/parts.rs:28-30 | p is at most 3 |
| Disassembler.Q | partyboy-disassembler/src/opcode/parts.rs:32-34 | q is at most 1 |
| Disassembler.PartsRecombine | partyboy-disassembler/src/opcode/parts.rs:15-35 | x, y and z put back together give the byte, and y is p followed by q |
| Disassembler.PartsCover | partyboy-disassembler/src/opcode/parts.rs:15-26 | any x, y and z within their widths are the fields of one byte |
| Disassembler.Register8From | partyboy-disassembler/src/opcode/register.rs:18-32 | codes 0-7 name an operand and any other value panics |
| Disassembler.Register8Code | partyboy-disassembler/src/opcode/register.rs:5-16 | every operand's discriminant is at most 7 |
| Disassembler.Register8RoundTrip | partyboy-disassembler/src/opcode/register.rs:5-32 | codes 0-7 and operands correspond one to one |
| Disassembler.ShiftIndex | partyboy-disassembler/src/opcode/mod.rs:63-97 | rotations and shifts take positions 0-7, bit operations 8 |
| Disassembler.SpanAt | partyboy-disassembler/src/opcode/span.rs:7-14 | the span covers the one byte at the offset |
| Disassembler.TokenizeCbPrefix | partyboy-disassembler/src/tokenizer/tokenize_cb_prefix.rs:8-52 | the instruction records the prefixed byte and the one-byte span at the offset |
| Disassembler.CbFieldsDecode | partyboy-disassembler/src/tokenizer/tokenize_cb_prefix.rs:8-52 | the operand's code is z; x = 0 gives the rotation or shift at position y; x = 1, 2, 3 give BIT, RES, SET of bit y |
| Disassembler.DecodeThenEncode | partyboy-disassembler/src/tokenizer/tokenize_cb_prefix.rs:8-52 | every byte after the prefix decodes to a valid opcode that encodes back to the byte |
| Disassembler.EncodeThenDecode | partyboy-disassembler/src/tokenizer/tokenize_cb_prefix.rs:8-52 | every valid CB opcode is what its encoding decodes to, so decoding is one to one onto the CB opcodes |
| D2Arrays.ConcatLength | partyboy-core/src/common/mod.rs:56-68 | `m` rows of `n` bytes flatten to `m * n` bytes |
| D2Arrays.ConcatIndex | partyboy-core/src/common/mod.rs:56-68 | flattening is row-major: byte `n` of row `m` lands at `m * N + n` |
| D2Arrays.Chunks | partyboy-core/src/common/mod.rs:46 | the first `m` chunks of `n` bytes are `m` rows of `n` bytes |
| D2Arrays.ChunksOfConcat | partyboy-core/src/common/mod.rs:41-68 | cutting flattened rows into chunks gives back the rows |
| D2Arrays.ChunksPrefix | partyboy-core/src/common/mod.rs:46 | chunks read only the bytes they cover |
| D2Arrays.ConcatOfChunks | partyboy-core/src/common/mod.rs:41-68 | flattening the chunks gives back the bytes they cover |
| D2Arrays.D2Array.Rows | partyboy-core/src/common/mod.rs:21-23 | the rows hold the array's bytes, each row as wide as the array |
| D2Arrays.D2Array.NewZeroed | partyboy-core/src/common/mod.rs:25-31 | a fresh array of the given shape, all zero |
| D2Arrays.D2Array.Flatten | partyboy-core/src/common/mod.rs:56-68 | the vector is the rows one after another, `rows * cols` bytes |
| D2Arrays.D2Array.CopyRow | partyboy-core/src/common/mod.rs:49 | row `m` becomes the chunk and every other row keeps its bytes |
| D2Arrays.Unflatten | partyboy-core/src/common/mod.rs:41-54 | succeeds exactly when the row width is non-zero and the vector covers every row; each row is then the vector's next chunk |
| D2Arrays.ChunkStep | partyboy-core/src/common/mod.rs:46 | the chunk after the first `m` is the next `n` bytes |
| D2Arrays.UnflattenFlatten | partyboy-core/src/common/mod.rs:126-153 | flattening an array and reading it back restores every row |

## Left out

- The CPU execution engine (`cpu/mod.rs` tick/exec and the instruction cache): it is a table of closures over the whole bus. The step semantics it calls are modelled in `CpuOps`.
- `Interrupts::tick` and HALT wake-up timing: they belong to the execution engine.
- Audio `sample()` functions and `Rgb::byuu_correction`: they compute floating point. `GenSample` models the integer part of the noise sample.
- Serde, snapshot and `load_rom`/`take_rom` plumbing, including `SerializableD2Array`'s serde attributes: serialisation wrappers.
- The PPU pixel FIFO, fetcher, sprite scan in `oam()` and frame buffer: these are large and coupled to VRAM contents. The mode/LY timing and registers around them are modelled, and the FIFO's completion is a boolean parameter.
- The MBC3 real-time clock: it reads the wall clock, which is a `now` parameter of the latch.
- The HDMA source bytes come from the bus; they are a function parameter.
- `Hdma::tick_gdma`, the general-purpose copy loop the bus runs, is not modelled. Only its start through the FF55 write and the `currently_copying` test are.
- `cgb_palette.rs`: a large constant lookup table.
- The square and sample channels and the `Apu` top level: their register logic repeats the envelope, length and sweep models.
- Bus forwarding to devices the bus does not own (cartridge, PPU, APU, timer, serial): reads are a function parameter, and writes are reported to the caller.
- The serial handler, `hdma_copy_word` and the PPU tick wiring in the bus: glue code over devices.
- The disassembler's winnow-based tokenizers (`tokenize_x_*.rs`): they depend on an external parser library. Only the bit fields and the CB-prefix decoding are modelled.
- `Span`'s `usize` overflow at `offset + 1` is not modelled: offsets are unbounded `nat`.
- The `u64` cycle clocks are unbounded integers; they cannot overflow in practice.
- A method whose pure counterpart returns `Panic` leaves its object's state unspecified.
- Integer overflows that only debug builds catch are modelled as the release build's wrap-around: the `hdma5` decrement, the `bytes_to_transfer` counter, the address after 0xFFFF in `read_u16`/`write_u16`, the PPU's `ly += 1`, the timer's `div += 1` (partyboy-core/src/timer.rs:43) and its `tima += 1` (partyboy-core/src/timer.rs:76); the TIMA overflow test `tima == 0` at line 78 relies on that wrap.
- ApuSweep.CalcFreq: a `u16` overflow of an increasing sweep is a `Panic` rather than a wrap, since it panics in a debug build and cannot happen from a frequency of at most 2047.
- SpeedController.CpuSpeedController.SwitchSpeed: it requires an armed switch, which the source only checks with `debug_assert!`.
- CartRom.ReadRom: it requires an address below 0x8000; the bus never passes another, so the source's panic for other addresses is not modelled.
- Cartridge.WriteRom: the dispatching method promises only that the controller stays well formed. Each controller's own `WriteRom` states its new state exactly.
- D2Arrays.Unflatten: when it panics, it returns no array, since the partially filled array is local to the conversion.
- PpuUnit.Ppu.WriteLcdc: it resets the timing through the corrected `ResetTiming`, which clears the early line-153 mark; the source's `reset` keeps it, so the two differ when the LCD is switched off during line 153 after LY already reads 0.
- Joypad.Input.ReadJoyp: it returns the corrected `Joyp`, which combines Right into bit 0; the source leaves Right out, so with both columns selected and A pressed alone (Right released) the source reads bit 0 as 0 and the model as 1.
- CpuOps.Cpu.PushU8: the stack is a flat 64 KiB memory, not the bus, so it promises its contract for every SP; in the source that holds only where the stack lies in plain RAM, since a byte written to 0xFF00 reaches the joypad, which keeps only bits 4-5, and a write below 0x8000 goes to the cartridge's bank registers.
- CpuOps.Cpu.PopU8: the stack is a flat 64 KiB memory, not the bus, so it promises its contract for every SP; in the source that holds only where the stack lies in plain RAM, since a byte written to 0xFF00 reaches the joypad, which keeps only bits 4-5, and a write below 0x8000 goes to the cartridge's bank registers.
- CpuOps.Cpu.PopU16: the stack is a flat 64 KiB memory, not the bus, so it promises its contract for every SP; in the source that holds only where the stack lies in plain RAM, since a byte written to 0xFF00 reaches the joypad, which keeps only bits 4-5, and a write below 0x8000 goes to the cartridge's bank registers.
- CpuOps.Cpu.PushR16: the stack is a flat 64 KiB memory, not the bus, so it promises its contract for every SP; in the source that holds only where the stack lies in plain RAM, since a byte written to 0xFF00 reaches the joypad, which keeps only bits 4-5, and a write below 0x8000 goes to the cartridge's bank registers.
- CpuOps.Cpu.PopR16: the stack is a flat 64 KiB memory, not the bus, so it promises its contract for every SP; in the source that holds only where the stack lies in plain RAM, since a byte written to 0xFF00 reaches the joypad, which keeps only bits 4-5, and a write below 0x8000 goes to the cartridge's bank registers.
- CpuOps.PushPopR16RoundTrip: the round trip is proved over the flat stack memory for every SP; in the source it holds only where the stack lies in plain RAM, since a byte written to 0xFF00 reaches the joypad, which keeps only bits 4-5, and a write below 0x8000 goes to the cartridge's bank registers.
- BitPacked: bytes are modelled as integers on a little-endian host. `from_ne_bytes` on a big-endian host is not modelled.

## Findings

| source | as written | input that shows it | evidently intended | confidence | as-written member | corrected member |
|---|---|---|---|---|---|---|
| partyboy-core/src/ppu/mod.rs:396-405 | `reset` (the LCD switched off) clears LY, the clocks and the mode but not `ly_153_early` | switch the LCD off during line 153 after LY already reads 0; in the next frame VBlank ends at LY 144 (mod.rs:640-650), going straight to OAM search, and pixel transfer on that line indexes `frame_buffer[144*160+lx]` out of range (mod.rs:904-905), which panics | `reset` clears `ly_153_early` too | medium, not executed | PpuUnit.ResetTimingAsWritten, PpuUnit.ResetAsWrittenKeepsEarlyLine | PpuUnit.ResetTiming |
| core/gameboy/src/input.rs:70-78 | with both columns selected, bit 0 carries only A; Right is left out, while bits 1-3 combine a button and a direction | select both columns (0x30) and press A alone: bit 0 reads 0 although Right is released, while B alone leaves bit 1 at 1 | bit 0 combines A and Right like the other bits combine their pairs | medium, not executed | Joypad.JoypAsWritten, Joypad.AsWrittenIgnoresRight | Joypad.Joyp |
