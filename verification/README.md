# Peripherals of yasimavr

yasimavr simulates AVR microcontrollers. Each peripheral is a set of fields changed by three kinds
of handlers: writes and reads of its registers, timers that fire, and signals from other parts.
This project models the peripherals whose handlers make up a protocol, and proves what those
protocols promise over whole runs.

Every module has the same shape. A datatype holds the fields, a datatype lists the events, one
function per handler gives the new state, `Step` sends an event to its handler and `Run` (or a
trace, or `StateAt`) takes a sequence of events. Theorems are about these functions. Beside them a
class holds the same fields as variables and has one method per handler, written as the source
writes it, loops included; each method is proved to turn `View()`, the value of the fields, into
what the function says.

| file | what it models |
|---|---|
| `xt_intctrl.dfy` | the three-level interrupt controller with its round-robin scan and the request cache of the core |
| `avr_nvm.dfy` | self-programming of the flash, page buffer, EEPROM, CPU halt and read-while-write |
| `xt_nvm.dfy` | the AND-accumulating page buffer and the erase and write commands |
| `xt_sections.dfy` | the flash sections set by the fuses and the access rights between them |
| `nvm_memory.dfy` | the memory blocks both programming controllers act on |
| `xt_wdt.dfy`, `avr_wdt.dfy` | the window watchdog and the watchdog with a timed change sequence |
| `xt_clock.dfy` | the main clock switch and its lock |
| `avr_usi.dfy` | the universal serial interface |
| `spi_endpoint.dfy`, `xt_spi.dfy` | an SPI device bit by bit, and the buffered SPI controller frame by frame |
| `timer_counter.dfy` | the counter shared by the timers, in its single-tick and its batched form |
| `xt_timer_a.dfy`, `xt_timer_b.dfy` | the double-buffered registers of timer A, the capture modes of timer B |
| `bits.dfy`, `subsequences.dfy`, `arith.dfy` | bytes as bits, subsequences, division by a page size |

## Reading the models

- A timer of a peripheral is a field that says whether it is scheduled, and its firing is an event
  that may come at any later moment. Where the moments matter (both watchdogs) time is a field and
  the order in which due timers fire is that of the cycle manager's queue.
- A register is as many fields as it has used bits, in a datatype of its own where that is clearer.
  `reset` methods include the zeroing of the registers that the core does first.
- Pins, the section access check of the core, external frequencies and received bytes are
  parameters of the events.
- Assumptions on a configuration are the `Valid` predicates of the `Config` datatypes: the page size
  is even and divides the flash size, EEPROM and user row pages are not larger than a flash page,
  there are at most 256 interrupt vectors.

## Where the code departs from what one would expect

The models follow the code. These are its surprises, each stated as a lemma or an if-and-only-if:

- Interrupt vector 0 is never recorded in LVL0PRI, so once raised it starves, even under round-robin
  scheduling, every level 0 vector that is not above LVL0PRI in the table, and all of them while
  LVL0PRI is zero (`StarvesIff`); and its handler is entered with no STATUS bit set (`NestingIff`).
- With a zero page delay the CPU is halted by a page operation and never woken (`NoLostWakeUp`,
  `LostIff`).
- A refused field of EECR does not keep its former value, as the comments on those lines say: it is
  written with the low bits of the former register (`RefusedFields`). So any write to EECR during an
  EEPROM operation makes EEPE read zero, and with EERIE set raises the ready interrupt too early
  (`BusyBitReads`, `WriteWhileBusy`).
- An EEPROM read by the unlocking write or inside the command window leaves the window open without
  its timer, and nothing else does (`WindowWasUnlocked`, `ReadLeavesWindowOpen`).
- Bytes loaded for the user row beyond the page size of the EEPROM are not programmed
  (`UserrowReachedIff`).
- Erasing an EEPROM byte past the end erases the last byte (`EepromCommandOutOfRange`).
- The LPM branches for lock bits and signature are unreachable: the command field has fewer bits
  than the bit that would disable the direct mode (`LpmMeetsOnlyPageOperations`).
- A write of a flash page without an erase overwrites it, although the comment on `spm_write` in
  `lib_core/src/core/sim_memory.cpp` says that bits are only cleared (`FlashWriteOverwrites`).
- USICLK is a strobe bit and always reads zero where the code tests it (`UsiclkNeverSet`).
- An SPI frame received with the queue full is dropped without BUFOVF, which only a write to DATA
  sets (`FrameEndDropsIff`, `SilentLossIff`), and leaving buffer mode drops DREIF
  (`CtrlBKeepsDreIff`).
- A buffered update of CMP1 or CMP2 of timer A that does not come with PER or CMP0 reaches the
  register but not the counter (`UpdateReachesCounter`).
- CMPxBUF writes set the valid bit in CTRLFSET twice and in CTRLFCLR never (`ValidBitsDiffer`,
  `ClearingIsCosmetic`).
- A manual tick of a counter going down mistakes the largest value for an event, also when the
  counter restarts from a top at that value (`SameEventsIff`, `SameRunsIff`).
- In the 8-bit pulse width mode of timer B the compare channel gets all of CCMP, so that the output
  stays high unless the high byte is zero (`PwmOutput`).
- A WDR synchronisation under way when the XT watchdog is stopped starts it again if it has a window
  (`StoppedIff`), and a reserved period in the fuse leaves the window alone to run out
  (`ResetWithoutWdr`).
- Leaving the reset mode of the AVR watchdog with WDIE kept set stops its interrupt mode
  (`InterruptModeIsLiveIff`).

## Model

| member | source | states |
|---|---|---|
| XtIntCtrl.NoStarvation | lib_arch_xt/src/arch_xt_misc.cpp:131-157 | Round-robin has no starvation, over every run of raises, cancellations, acknowledges, RETIs and register writes: while a vector waits raised with LVL0RR set, and vector 0 is not raised or is behind it in the order, at most as many other level 0 vectors are acknowledged as lie ahead of it, hence at most vector count less one; level 1 and NMI acknowledges and moves of LVL1VEC do not count |
| XtIntCtrl.Level0AckComesCloser | lib_arch_xt/src/arch_xt_misc.cpp:131-157 | The measure: each acknowledge of another level 0 vector strictly lowers the number of vectors ahead of the waiting one |
| XtIntCtrl.RotatingPast | lib_arch_xt/src/arch_xt_misc.cpp:144-150 | If `w` is served before `v` in the modular order after LVL0PRI, then setting LVL0PRI to `w` strictly lowers (v - LVL0PRI - 1) modulo the vector count |
| XtIntCtrl.StarvesIff | lib_arch_xt/src/arch_xt_misc.cpp:131-237 | Exactly when a vector starves: with LVL0RR set, no handler running and only level 0 vectors raised, a raised vector is never served, however many requests are acknowledged and returned from, if and only if vector 0 is raised and LVL0PRI is zero or, modulo the vector count, at or above that vector |
| XtIntCtrl.Starvation | lib_arch_xt/src/arch_xt_misc.cpp:131-237 | And then it starves in every run, whatever the scheduling mode and whatever else is raised, that leaves vector 0 raised and does not write LVL0PRI or LVL1VEC in its favour |
| XtIntCtrl.BeforeResetIff | lib_arch_xt/src/arch_xt_misc.cpp:222-237 | Why: a vector is before vector 0 in the order if and only if LVL0PRI is not zero and, modulo the vector count, below it; and vector 0, never recorded in LVL0PRI, never goes to the end |
| XtIntCtrl.ResetVectorStarvesOthers | lib_arch_xt/src/arch_xt_misc.cpp:131-157 | An instance: with vector 0 raised and LVL0PRI zero, any number of acknowledge and return rounds serves nothing else |
| XtIntCtrl.NestingIsAStack | lib_arch_xt/src/arch_xt_misc.cpp:131-255 | Over every run that never raises vector 0, the STATUS bits are exactly the levels on a stack of entered handlers whose levels strictly increase; an acknowledge pushes the level of the vector, a RETI pops the last one entered |
| XtIntCtrl.NestingIff | lib_arch_xt/src/arch_xt_misc.cpp:131-255 | Over every run, whatever is raised, the STATUS bits are throughout the levels of the stack of entered handlers if and only if vector 0 is never acknowledged |
| XtIntCtrl.AckKeepsStackIff | lib_arch_xt/src/arch_xt_misc.cpp:131-157 | One acknowledge keeps the STATUS bits equal to the stack if and only if the vector is not 0, whose handler is entered with no bit set |
| XtIntCtrl.ResetVectorBreaksNesting | lib_arch_xt/src/arch_xt_misc.cpp:131-157 | The condition of NestingIff can fail: from the initial state, raising vector 0 and one acknowledge are enough |
| XtIntCtrl.RaisedIff | lib_core/src/core/sim_interrupt.cpp:123-190 | Over every run a vector with a source is raised if and only if the last of the events that raise or withdraw it is a raise, or there is none and it was raised at the start: acknowledges and returns do not count |
| XtIntCtrl.UnusedIff | lib_core/src/core/sim_interrupt.cpp:172-190 | A vector without a source is raised if and only if it was and no reset came |
| XtIntCtrl.RequestIff | lib_arch_xt/src/arch_xt_misc.cpp:195-237 | At all times a request is pending if and only if a vector above the executing level is raised, and no raised vector has a higher priority than the one requested |
| XtIntCtrl.RaiseRequests | lib_core/src/core/sim_interrupt.cpp:172-180 | Raising a vector with a source above the executing level registers it and requests an interrupt at once, of its priority or a higher one |
| XtIntCtrl.RequestedVector | lib_arch_xt/src/arch_xt_misc.cpp:195-237 | Which vector is requested, from the bits alone: 1 unless the NMI runs, then that of LVL1VEC unless level 1 runs, then with nothing running the first raised in the order after LVL0PRI, by index if that is zero |
| XtIntCtrl.AckEnters | lib_arch_xt/src/arch_xt_misc.cpp:131-150 | Acknowledging sets the NMI bit for vector 1, the level 1 bit for LVL1VEC, the level 0 bit for the others but vector 0, and no other bit |
| XtIntCtrl.RequestPlace | lib_arch_xt/src/arch_xt_misc.cpp:160-271 | A request names the slot of its vector, or in compact mode the slot of its priority, the highest first, in the table of the section that IVSEL and the application start select |
| XtIntCtrl.SettingsHold | lib_arch_xt/src/arch_xt_misc.cpp:125-128 | CTRLA and LVL1VEC hold what was last written to them, zero after a reset, in every run |
| XtIntCtrl.Lvl0PriHolds | lib_arch_xt/src/arch_xt_misc.cpp:125-150 | LVL0PRI holds the last of what was written, the level 0 vector acknowledged under round-robin, and the zero of a reset |
| XtIntCtrl.StepKeepsCoherent | lib_core/src/core/sim_interrupt.cpp:161-190 | Every step leaves the cached interrupt request equal to the one a fresh scan computes, including the cancellation that rescans only when the cancelled vector is the cached one |
| XtIntCtrl.WithdrawingAnotherVector | lib_core/src/core/sim_interrupt.cpp:182-190 | Withdrawing a vector other than the one to be served does not change which one is served: why that shortcut is sound |
| XtIntCtrl.ServedVectorIsUnique | lib_arch_xt/src/arch_xt_misc.cpp:195-237 | The priority rules (NMI, then level 1, then the first level 0 vector after LVL0PRI in circular order) never select two vectors |
| XtIntCtrl.Progress | lib_arch_xt/src/arch_xt_misc.cpp:195-237 | A raised vector of a level above the one executing is never left without a served vector |
| XtIntCtrl.ScanVisits | lib_arch_xt/src/arch_xt_misc.cpp:222-237 | Step `i` of the circular scan visits exactly the vector of rank `i - 1` in the order after LVL0PRI |
| XtIntCtrl.RankIsInjective | lib_arch_xt/src/arch_xt_misc.cpp:222-237 | No two vectors have the same rank in the circular order |
| XtIntCtrl.LeastRank | lib_arch_xt/src/arch_xt_misc.cpp:222-237 | Among raised vectors one has strictly least rank: the scan has something to stop at |
| XtIntCtrl.InterruptController.GetNextVector | lib_arch_xt/src/arch_xt_misc.cpp:195-237 | The two scan loops return the vector selected by the declarative priority rules, with its level, and none only when none is above the executing level |
| XtIntCtrl.InterruptController.GetNextIrq | lib_arch_xt/src/arch_xt_misc.cpp:160-192 | The request combines the served vector with the address of its slot in the vector table |
| XtIntCtrl.InterruptController.CpuAckIrq | lib_arch_xt/src/arch_xt_misc.cpp:131-157 | Acknowledging sets the STATUS bit of the level served and, under round-robin, records the vector as last served; the vector stays raised |
| XtIntCtrl.InterruptController.CpuReti | lib_arch_xt/src/arch_xt_misc.cpp:243-255 | RETI clears the highest level executing and recomputes the request |
| XtIntCtrl.InterruptController.RaiseInterrupt | lib_core/src/core/sim_interrupt.cpp:172-180 | Raising a used vector recomputes the request; an unused one is refused |
| XtIntCtrl.InterruptController.CancelInterrupt | lib_core/src/core/sim_interrupt.cpp:182-190 | Cancelling recomputes the request only when it concerns the cached vector, and the state is as if it always did |
| XtIntCtrl.InterruptController.UpdateIrq | lib_core/src/core/sim_interrupt.cpp:161-164 | The cached request becomes the one a scan finds |
| XtIntCtrl.InterruptController.DoReset | lib_core/src/core/sim_interrupt.cpp:44-53 | All requests are withdrawn and the cache cleared |
| XtIntCtrl.InterruptController.GetTableBase | lib_arch_xt/src/arch_xt_misc.cpp:258-271 | The vector table is at the base of the section selected by IVSEL and the application start |
| NvmMemory.ErasedBytes | lib_core/src/core/sim_memory.cpp:94-113 | Erasing, byte by byte: the bytes from the base on, cut off at the end, or the last byte for a base past the end, become 0xFF and unprogrammed, and no other |
| NvmMemory.CopiedBytes | lib_core/src/core/sim_memory.cpp:264-273 | Copying a buffer, byte by byte, over the same range |
| NvmMemory.SelectedErased | lib_core/src/core/sim_memory.cpp:122-135 | Erasing selected bytes, byte by byte, over the same range |
| NvmMemory.SelectedProgrammed | lib_core/src/core/sim_memory.cpp:264-282 | Programming selected bytes, byte by byte, over the same range: the AND of both, and programmed |
| NvmMemory.EraseThenProgram | lib_core/src/core/sim_memory.cpp:122-282 | Writing a buffer over an erase of the same selected bytes leaves exactly the buffer there and everything else unchanged |
| NvmMemory.FirstAreSelected | lib_core/src/core/sim_memory.cpp:264-282 | Programming the selected bytes of a clipped range one after the other is programming them all at once: each selected byte is ANDed once and the others stay |
| NvmMemory.ProgramOnlyClearsBits | lib_core/src/core/sim_memory.cpp:264-282 | A selective write without an erase can only clear bits |
| NvmMemory.ErasingOneByte | lib_core/src/core/sim_memory.cpp:31-113 | Erasing one byte clips its address: past the end it is the last byte that is erased |
| NvmMemory.NonVolatileMemory.Erase | lib_core/src/core/sim_memory.cpp:105-113 | The clipped range reads 0xFF and is unprogrammed, the rest is unchanged |
| NvmMemory.NonVolatileMemory.EraseSelected | lib_core/src/core/sim_memory.cpp:122-135 | The same for the selected bytes only |
| NvmMemory.NonVolatileMemory.SpmWrite | lib_core/src/core/sim_memory.cpp:246-252 | The byte is ANDed in and marked programmed; an address outside does nothing |
| NvmMemory.NonVolatileMemory.SpmWriteSelected | lib_core/src/core/sim_memory.cpp:264-282 | The selected bytes of the buffer are ANDed in at the clipped base |
| NvmMemory.NonVolatileMemory.SpmCopy | lib_core/src/core/sim_memory.cpp:264-282 | With an empty selection the bytes are copied instead |
| AvrNvm.PageProgramming | lib_arch_avr/src/arch_avr_nvm.cpp:342-430 | Page programming is correct: in every run, after an accepted page erase, anything that does not change the flash, and an accepted page write to the same page (same quotient of the even address by the page size), each address with that quotient holds the first byte loaded at its remainder since the buffer was last cleared, 0xFF where there was none, and every other address is as before the erase |
| AvrNvm.BufferIsLog | lib_arch_avr/src/arch_avr_nvm.cpp:370-399 | At all times, whatever windows time out, the page buffer is the first-write-wins image of the loads since it was last cleared |
| AvrNvm.FirstLoadOfAppend | lib_arch_avr/src/arch_avr_nvm.cpp:371-380 | A later load to an offset already loaded does not become the first one |
| AvrNvm.PageErased | lib_arch_avr/src/arch_avr_nvm.cpp:382-390 | An accepted page erase turns the addresses with the quotient of the addressed one, and no others, to 0xFF |
| AvrNvm.PageWritten | lib_arch_avr/src/arch_avr_nvm.cpp:391-399 | An accepted page write ANDs the loaded bytes into the addresses with the quotient of the addressed one, each by its remainder, and changes no others |
| AvrNvm.LoadOffsetIs | lib_arch_avr/src/arch_avr_nvm.cpp:342-380 | A word goes to the remainder of its even address by the page size |
| AvrNvm.WindowHasCommand | lib_arch_avr/src/arch_avr_nvm.cpp:134-160 | The command that an SPM instruction finds in the window is that of the SPMCR write that opened it, in every run |
| AvrNvm.OnlyPageCommandsChangeFlash | lib_arch_avr/src/arch_avr_nvm.cpp:317-430 | No event but an accepted page erase or page write changes the flash |
| AvrNvm.FlashUntouched | lib_arch_avr/src/arch_avr_nvm.cpp:317-430 | The same over runs |
| AvrNvm.InterlockAlwaysHolds | lib_arch_avr/src/arch_avr_nvm.cpp:101-528 | In every reachable state, resets included, EEPROM phase Write implies SPM phase Idle; a halted CPU or a disabled direct LPM implies SPM phase Write |
| AvrNvm.LpmMeetsOnlyPageOperations | lib_arch_avr/src/arch_avr_nvm.cpp:237-314 | So an LPM never crashes for want of an operation and never meets the command window: its lock bit and signature branches are unreachable |
| AvrNvm.NoLostWakeUp | lib_arch_avr/src/arch_avr_nvm.cpp:406-456 | From power-on, in every run a halt, a halted CPU or a disabled direct LPM comes with SPM phase Write and its timer scheduled, if and only if both page delays are positive |
| AvrNvm.LostIff | lib_arch_avr/src/arch_avr_nvm.cpp:406-456 | Why: a halted CPU stays halted in every run without a reset if and only if the timer of the page operation is not scheduled |
| AvrNvm.HaltingRunHalts | lib_arch_avr/src/arch_avr_nvm.cpp:406-430 | A concrete run halts the CPU, with the timer scheduled exactly when the delay of the command is positive |
| AvrNvm.WindowsAlwaysClose | lib_arch_avr/src/arch_avr_nvm.cpp:134-214 | With positive delays an open command window always has its timer scheduled, in every reachable state |
| AvrNvm.SpmcrAlwaysTells | lib_arch_avr/src/arch_avr_nvm.cpp:134-160 | In every reachable state SPMEN reads one exactly from the opening of the window to the end of the operation, the command bits tell the command then and zero otherwise, and the section busy bit is set exactly while LPM goes through the controller |
| AvrNvm.PageOperationBlocks | lib_arch_avr/src/arch_avr_nvm.cpp:400-430 | A page operation in the read-while-write section leaves the CPU running and LPM indirect; any other halts the CPU; its timer is scheduled if its delay is positive |
| AvrNvm.LpmWaits | lib_arch_avr/src/arch_avr_nvm.cpp:237-260 | During it an LPM in that section halts the CPU until the timer ends it, and one elsewhere is served |
| AvrNvm.CrashIff | lib_arch_avr/src/arch_avr_nvm.cpp:317-345 | An SPM instruction crashes the device if and only if its address is outside the flash in the window, or it comes outside the window or from code that may not write and that is not ignored; what is neither accepted nor a crash changes nothing |
| AvrNvm.ResultTells | lib_arch_avr/src/arch_avr_nvm.cpp:317-430 | The result is minus one for a crash, one for an accepted command, zero otherwise |
| AvrNvm.SignatureIsIgnored | lib_arch_avr/src/arch_avr_nvm.cpp:342-404 | The signature command changes nothing and leaves the window open |
| AvrNvm.ResetClears | lib_arch_avr/src/arch_avr_nvm.cpp:101-116 | What a reset leaves, on both sides |
| AvrNvm.SpmReadyIff | lib_arch_avr/src/arch_avr_nvm.cpp:134-160 | When the flash ready interrupt is raised, after each event, and what SPMIE holds: raised by a write with SPMIE that leaves the flash side idle and by the end of an operation, lowered by an acknowledge while an operation runs or SPMIE is clear |
| AvrNvm.EepromCommandInRange | lib_arch_avr/src/arch_avr_nvm.cpp:459-503 | An EEPROM command changes the addressed byte only: to the data, to 0xFF, or to the AND of both, by mode |
| AvrNvm.EepromCommandOutOfRange | lib_arch_avr/src/arch_avr_nvm.cpp:459-503 | Other bytes are safe from a command, for every content, if and only if the address exists or the mode is write-only: an erase past the end clears the last byte |
| AvrNvm.WrittenIsRead | lib_arch_avr/src/arch_avr_nvm.cpp:162-503 | The EEPROM round trip, over every run: the byte that an erase-and-write strobe programs at an address is what a read of that address returns, as long as no other strobe comes between |
| AvrNvm.DataRegisters | lib_arch_avr/src/arch_avr_nvm.cpp:187-503 | EEAR and EEDR hold what was last written, zero after a reset; a read puts the byte at EEAR in EEDR, 0xFF if there is none |
| AvrNvm.OnlyStrobesChangeEeprom | lib_arch_avr/src/arch_avr_nvm.cpp:459-503 | Nothing but an accepted strobe changes the EEPROM |
| AvrNvm.StrobeSchedules | lib_arch_avr/src/arch_avr_nvm.cpp:459-503 | The timer of an operation is scheduled if its mode has a positive delay, and the mode is kept |
| AvrNvm.ResetRestoresMode | lib_arch_avr/src/arch_avr_nvm.cpp:101-116 | A reset during an operation puts back EEPE and, in EEPM, the mode its strobe was given, whatever was written since |
| AvrNvm.EeReadyIff | lib_arch_avr/src/arch_avr_nvm.cpp:162-214 | When the EEPROM ready interrupt is raised, after each event, and what EERIE holds |
| AvrNvm.EachWriteIsUnlocked | lib_arch_avr/src/arch_avr_nvm.cpp:162-185 | In every run, resets and reads included, an unlocking write to EECR comes between two EEPROM programming operations, and before the first: a strobe never starts two |
| AvrNvm.UnlockAlwaysWorks | lib_arch_avr/src/arch_avr_nvm.cpp:162-172 | And no operation locks out the next: in every reachable state with the CPU running and the EEPROM idle, a write to EECR opens the window if and only if it has EEMPE set and EEPE clear |
| AvrNvm.WindowWasUnlocked | lib_arch_avr/src/arch_avr_nvm.cpp:162-195 | An open window goes back to the write that unlocked it, with no programming operation since; EEMPE reads one in it if and only if EECR has not been written since and that write did not also read; and its timer, which closes it, is scheduled if and only if neither that write nor any since has EERE set |
| AvrNvm.BusyBitReads | lib_arch_avr/src/arch_avr_nvm.cpp:101-185 | During a programming operation EEPE reads one if and only if EECR has not been written since the strobe that started it, or since the last reset, which puts the bit back |
| AvrNvm.WriteWhileBusy | lib_arch_avr/src/arch_avr_nvm.cpp:162-206 | What such a write leaves: the operation and its timer go on, EEPE and EEMPE read zero, EEPM holds the low bits of the former register, and the ready interrupt is raised at once if EERIE is set |
| AvrNvm.BitsAlwaysTell | lib_arch_avr/src/arch_avr_nvm.cpp:162-214 | In every reachable state EEMPE is set only inside the window with its timer running, and EEPE only during a programming operation |
| AvrNvm.StrobeLeaves | lib_arch_avr/src/arch_avr_nvm.cpp:174-206 | The strobe that starts an operation leaves EEPE set, and EEMPE and EEPM zero |
| AvrNvm.RefusedFields | lib_core/src/core/sim_peripheral.h:448-451 | Why refused fields do not keep their value: they are written with the whole former register, so that one bit gets EERE, always zero, and EEPM gets the two low bits |
| AvrNvm.ResetSparesEepromWrite | lib_arch_avr/src/arch_avr_nvm.cpp:101-116 | A reset leaves an EEPROM write in progress, puts EEPE and the programming mode back, and its timer still ends it |
| AvrNvm.ReadLeavesWindowOpen | lib_arch_avr/src/arch_avr_nvm.cpp:187-195 | An instance with the timer gone: an EEPROM read inside the window clears EEMPE and cancels the timer but not the window: however long after, an EEPE strobe still starts a write |
| AvrNvm.Controller.WriteSpmcrReg | lib_arch_avr/src/arch_avr_nvm.cpp:136-160 | A write to SPMCR opens the four-cycle window with the command, unless an operation or EEPROM write runs, in which case the register keeps its value |
| AvrNvm.Controller.ProcessNvmWrite | lib_arch_avr/src/arch_avr_nvm.cpp:317-430 | An SPM instruction: the result, and the whole new state, on every branch including the two crashes and the ignored cases |
| AvrNvm.Controller.PerformCommand | lib_arch_avr/src/arch_avr_nvm.cpp:342-404 | The effect of the command on the buffer and the flash |
| AvrNvm.Controller.StartCommand | lib_arch_avr/src/arch_avr_nvm.cpp:406-430 | The phase, the timer, and the halt or the read-while-write lock that follow it |
| AvrNvm.Controller.ProcessNvmRead | lib_arch_avr/src/arch_avr_nvm.cpp:237-260 | An LPM instruction that reaches the controller |
| AvrNvm.Controller.SpmTimerNext | lib_arch_avr/src/arch_avr_nvm.cpp:433-456 | The end of the window or of the page operation |
| AvrNvm.Controller.StartEepromCommand | lib_arch_avr/src/arch_avr_nvm.cpp:459-503 | An EEPROM command: memory, data register, timer and recorded mode |
| AvrNvm.Controller.WriteEecrReg | lib_arch_avr/src/arch_avr_nvm.cpp:162-206 | One write to the register that holds the five EEPROM control bits, through all the rules in the order of the source, refused fields written with the low bits of the former register |
| AvrNvm.Controller.EeTimerNext | lib_arch_avr/src/arch_avr_nvm.cpp:506-528 | The end of the window or of the EEPROM write |
| AvrNvm.Controller.ClearSpmBuffer | lib_arch_avr/src/arch_avr_nvm.cpp:228-232 | Every byte of the buffer reads 0xFF and is unloaded |
| AvrNvm.Controller.DoReset | lib_arch_avr/src/arch_avr_nvm.cpp:101-116 | Everything but an EEPROM write in progress is reset |
| AvrNvm.Controller.InterruptAckHandler | lib_arch_avr/src/arch_avr_nvm.cpp:531-546 | A ready interrupt stays raised while its side is ready and enabled |
| XtNvm.BufferIsLog | lib_arch_xt/src/arch_xt_nvm.cpp:351-476 | Over every run of accepted and refused writes, commands and resets, the buffer holds at each offset the AND of the bytes accepted there since it was last cleared, 0xFF where none was, all to one block, and the page is that of the last write |
| XtNvm.AndKeepsCommonBits | lib_arch_xt/src/arch_xt_nvm.cpp:359-410 | What AND accumulation means: bits are kept at an offset if and only if every byte written there has them |
| XtNvm.AndOfAppend | lib_arch_xt/src/arch_xt_nvm.cpp:400-402 | A write changes the image at its own offset only |
| XtNvm.LogEntryIs | lib_arch_xt/src/arch_xt_nvm.cpp:359-385 | The entry of a write holds the quotient and the remainder of its address by the page size of its block |
| XtNvm.BoundIff | lib_arch_xt/src/arch_xt_nvm.cpp:385-411 | From a free buffer, a sequence of writes leaves it free if none is let through, bound to a block if all are to it, and invalid if they are to two blocks or to none of the three |
| XtNvm.BlockErases | lib_arch_xt/src/arch_xt_nvm.cpp:432-452 | The chip and EEPROM erase commands turn those blocks to 0xFF whatever the buffer is bound to, and leave the buffer and the rest |
| XtNvm.EmptiedBy | lib_arch_xt/src/arch_xt_nvm.cpp:351-543 | A reset, a buffer erase and every page command that is carried out leave the buffer free and empty |
| XtNvm.FlashEraseWrite | lib_arch_xt/src/arch_xt_nvm.cpp:413-543 | After any run, an erase-write with the buffer bound to the flash gives each address with the quotient of the last address written the AND of the writes at its remainder, 0xFF where none was, and leaves the others |
| XtNvm.EepromEraseWrite | lib_arch_xt/src/arch_xt_nvm.cpp:413-543 | After any run, an erase-write with the buffer bound to the EEPROM changes exactly the bytes written, at the quotient of the last address written and their remainders, to that image |
| XtNvm.UserrowReachedIff | lib_arch_xt/src/arch_xt_nvm.cpp:480-524 | Erase-write of the user row after any run: every byte written reaches it, whatever it holds, if and only if every byte was written below the page size of the EEPROM, which the command uses for it |
| XtNvm.UserrowCommand | lib_arch_xt/src/arch_xt_nvm.cpp:480-524 | The user row byte by byte: those written below the page size of the EEPROM become the AND of the writes, the others stay |
| XtNvm.FlashCommand | lib_arch_xt/src/arch_xt_nvm.cpp:479-543 | Each of the three page commands on a flash page, byte by byte |
| XtNvm.BytesCommand | lib_arch_xt/src/arch_xt_nvm.cpp:479-543 | Each of the three page commands on EEPROM or user row bytes: only bytes loaded are affected, and a plain write ANDs |
| XtNvm.FlashWriteOverwrites | lib_arch_xt/src/arch_xt_nvm.cpp:479-543 | A flash page write without an erase gives the same bytes as an erase-write: it copies instead of clearing bits |
| XtNvm.MixedBlocksAreRefused | lib_arch_xt/src/arch_xt_nvm.cpp:359-410 | After a write to a second block no write is accepted and no page command has an effect, until the buffer is erased or the device reset |
| XtNvm.Controller.WriteNvm | lib_arch_xt/src/arch_xt_nvm.cpp:359-410 | A write to a data space window: accepted and ANDed in, or refused and the buffer invalidated, with the result code |
| XtNvm.Controller.ExecuteCommand | lib_arch_xt/src/arch_xt_nvm.cpp:413-476 | Each command on the buffer and the three memories, and when it is refused |
| XtNvm.Controller.FlashPageCommand | lib_arch_xt/src/arch_xt_nvm.cpp:479-543 | Erase, write or both of the flash page |
| XtNvm.Controller.BytesPageCommand | lib_arch_xt/src/arch_xt_nvm.cpp:479-543 | Erase, write or both of the loaded bytes of the EEPROM or user row |
| XtNvm.Controller.ClearBuffer | lib_arch_xt/src/arch_xt_nvm.cpp:351-356 | The buffer is free, every byte 0xFF |
| XtSections.RightsAreExact | lib_arch_xt/src/arch_xt_nvm.cpp:151-188 | The exact rights: after a reset with any fuses and any run of fetches and CTRLB writes, once an instruction of page p is fetched, a page may be written if and only if p is in boot and the page in application code with APCWP clear, or p is in boot or application code and the page in application data; read unless p is outside boot and the page in a boot section whose lock is in force; and the fetch was allowed unless p is in such a section |
| XtSections.ApcwpIff | lib_arch_xt/src/arch_xt_nvm.cpp:313-338 | Between resets APCWP is set if and only if it was or a one was written to it |
| XtSections.BootlockIff | lib_arch_xt/src/arch_xt_nvm.cpp:313-338 | Between resets BOOTLOCK is set if and only if it was or boot code wrote a one to it |
| XtSections.LockTakesEffect | lib_arch_xt/src/arch_xt_nvm.cpp:562-578 | The lock comes into force with the first fetch outside the boot section after BOOTLOCK is set, and not before |
| XtSections.ProtectionAlwaysHolds | lib_arch_xt/src/arch_xt_nvm.cpp:313-338 | In every reachable state APCWP set implies that no section may write the application code; BOOTLOCK set with no pending lock implies that the application has no rights on the boot section and that it is not fetchable; a lock is pending only while the boot section executes; the page map agrees with the rights |
| XtSections.RightsOnlyShrink | lib_arch_xt/src/arch_xt_nvm.cpp:313-578 | Between resets rights are only taken away and APCWP and BOOTLOCK never go back to zero |
| XtSections.AppCodeStaysProtected | lib_arch_xt/src/arch_xt_nvm.cpp:313-338 | Once APCWP is set no page of application code is writable, in any later state before a reset and from any section |
| XtSections.BootStaysLocked | lib_arch_xt/src/arch_xt_nvm.cpp:562-578 | Once BOOTLOCK is set, code outside the boot section can neither read nor write nor enter it, in any later state before a reset |
| XtSections.SectionsTileFlash | lib_arch_xt/src/arch_xt_nvm.cpp:151-188 | The three sections computed from the fuses tile the flash in order, the boot section is never empty, and the fuses decide exactly when each of the other two is |
| XtSections.SectionManager.ConfigureFlashSections | lib_arch_xt/src/arch_xt_nvm.cpp:151-188 | Limits and rights after a reset |
| XtSections.SectionManager.WriteCtrlbReg | lib_arch_xt/src/arch_xt_nvm.cpp:313-338 | The two sticky bits and what they change |
| XtSections.SectionManager.SectionLeft | lib_arch_xt/src/arch_xt_nvm.cpp:562-578 | Leaving the boot section applies a pending lock |
| XtSections.SectionManager.UpdateCurrentSection | lib_core/src/core/sim_memory.cpp:421-459 | Entering a section rebuilds the page map, after the lock it may trigger |
| XtSections.SectionManager.FetchAddress | lib_core/src/core/sim_memory.cpp:410-418 | A fetch enters the section of its page and says whether it is allowed |
| XtSections.SectionManager.PageToSection | lib_core/src/core/sim_memory.cpp:351-363 | The search by limits finds the section that contains the page |
| XtWdt.ResetWithoutWdr | lib_arch_xt/src/arch_xt_wdt.cpp:76-160 | A program that never executes WDR is reset after exactly the cycles of the period and the window of the fuse, by the table 8, 16, ... 8192, or never if the period is zero or both are reserved; a reserved period alone leaves the window running |
| XtWdt.PeriodLasts | lib_arch_xt/src/arch_xt_wdt.cpp:149-158 | A period setting p without a window lasts two to the power of p + 2 cycles, 8 for the first |
| XtWdt.NoResetIffInWindow | lib_arch_xt/src/arch_xt_wdt.cpp:107-182 | The window theorem: with a locked configuration of a valid period, a run requests no reset if and only if the completed synchronisations are each less than period plus window after the one before, the first counted from the start, and all but the first at least the window after it |
| XtWdt.InWindowMeansGaps | lib_arch_xt/src/arch_xt_wdt.cpp:160-182 | The condition spelled out as bounds on every gap and on the time since the last |
| XtWdt.LockedByFuse | lib_arch_xt/src/arch_xt_wdt.cpp:76-182 | The window theorem from a reset with a period in the fuse, in those cycles |
| XtWdt.LockedByProgram | lib_arch_xt/src/arch_xt_wdt.cpp:107-182 | The window theorem, in those cycles, from a program that sets a valid period and locks the watchdog, even while it runs and a synchronisation is under way |
| XtWdt.DelayIsCycles | lib_arch_xt/src/arch_xt_wdt.cpp:149-158 | The computed delays are the cycles of the table, none for the reserved settings |
| XtWdt.StoppedIff | lib_arch_xt/src/arch_xt_wdt.cpp:107-182 | Writing a period of zero or a reserved one stops the watchdog for good if and only if no synchronisation is under way or the window is zero; otherwise the synchronisation starts the window and the device is reset after it |
| XtWdt.OffByFuse | lib_arch_xt/src/arch_xt_wdt.cpp:76-105 | With a period of zero in the fuse no WDR instruction starts the watchdog |
| XtWdt.LockIff | lib_arch_xt/src/arch_xt_wdt.cpp:76-147 | LOCK is set if and only if the fuse has a period or a one was written to it since the reset |
| XtWdt.LockedSettingsStay | lib_arch_xt/src/arch_xt_wdt.cpp:119-127 | Once it is, CTRLA keeps its value until the reset |
| XtWdt.GuardingTick | lib_arch_xt/src/arch_xt_wdt.cpp:160-182 | One cycle: time out at the limit, reset for a synchronisation that is early, restart, or wait |
| XtWdt.ResetSticks | lib_arch_xt/src/arch_xt_wdt.cpp:160-167 | A reset request is not withdrawn before the reset |
| XtWdt.TimeOnlyAdvances | lib_arch_xt/src/arch_xt_wdt.cpp:107-182 | Completed synchronisations are in the future of the state they are computed from |
| XtWdt.Watchdog.WatchdogReset | lib_arch_xt/src/arch_xt_wdt.cpp:107-116 | A WDR starts a three-cycle synchronisation unless one runs or the watchdog is off |
| XtWdt.Watchdog.WriteCtrlaReg | lib_arch_xt/src/arch_xt_wdt.cpp:119-138 | A write to CTRLA restarts or stops the timer, and is refused when locked |
| XtWdt.Watchdog.WdrSyncTimerNext | lib_arch_xt/src/arch_xt_wdt.cpp:170-182 | The end of a synchronisation |
| XtWdt.Watchdog.ProcessTimers | lib_core/src/core/sim_cycle_timer.cpp:453-467 | Timers due in one cycle fire in the order of the queue: by time, then in the order they were scheduled |
| XtWdt.Watchdog.DoReset | lib_arch_xt/src/arch_xt_wdt.cpp:76-99 | The watchdog after a reset, locked when the fuse holds a period |
| AvrWdt.TimedSequence | lib_arch_avr/src/arch_avr_wdt.cpp:92-144 | In every run, a write that changes the prescaler or clears WDE was preceded, less than four cycles before and with no reset between, by a write to the locked register with WDCE and effective WDE set |
| AvrWdt.UnlockIsRecent | lib_arch_avr/src/arch_avr_wdt.cpp:92-207 | An unlocked register was unlocked by such a write less than four cycles ago, and its lock timer is due four cycles after that write |
| AvrWdt.WriteEffect | lib_arch_avr/src/arch_avr_wdt.cpp:92-144 | What one write can do to the protected fields, locked and unlocked |
| AvrWdt.OnlyWritesTouchSettings | lib_arch_avr/src/arch_avr_wdt.cpp:63-207 | Nothing but a register write or a reset changes them |
| AvrWdt.ArmedAlways | lib_arch_avr/src/arch_avr_wdt.cpp:92-191 | In every state with WDE set and no reset requested the timer runs, with no more left than the cycles of the prescaler, and is off if that is reserved |
| AvrWdt.ResetModeIsLive | lib_arch_avr/src/arch_avr_wdt.cpp:147-160 | So in reset mode the watchdog is off if and only if the prescaler setting is reserved |
| AvrWdt.ResetIffHungry | lib_arch_avr/src/arch_avr_wdt.cpp:78-191 | Reset mode: over every run of CPU and watchdog clock cycles and WDR instructions, a reset is requested if and only if the cycles of the prescaler, by the table 2048, 4096, ... 1048576, pass with no WDR between |
| AvrWdt.ResetAgain | lib_arch_avr/src/arch_avr_wdt.cpp:63-75 | A program that does nothing after a watchdog reset is reset again after exactly 2048 cycles |
| AvrWdt.FirstTimeout | lib_arch_avr/src/arch_avr_wdt.cpp:163-185 | Interrupt mode: whatever the run of cycles and WDR instructions before, the timer running out requests the interrupt, no reset, and starts again in full |
| AvrWdt.SecondTimeout | lib_arch_avr/src/arch_avr_wdt.cpp:163-191 | Running out again with the interrupt not acknowledged requests a reset, even with WDE clear |
| AvrWdt.AcknowledgedTimeout | lib_arch_avr/src/arch_avr_wdt.cpp:163-201 | Once acknowledged, running out again requests a reset if and only if WDE is set |
| AvrWdt.WriteStarts | lib_arch_avr/src/arch_avr_wdt.cpp:92-160 | A write that sets a mode or changes the prescaler starts the timer in full, leaving the reset mode otherwise stops it, any other leaves it |
| AvrWdt.ChangeBitShows | lib_arch_avr/src/arch_avr_wdt.cpp:92-207 | In every run WDCE reads one while the register is unlocked and is cleared when that ends |
| AvrWdt.ResetFlagHolds | lib_arch_avr/src/arch_avr_wdt.cpp:98-101 | WDRF is what the program last wrote to it or what the last reset was |
| AvrWdt.InterruptModeIsLiveIff | lib_arch_avr/src/arch_avr_wdt.cpp:92-144 | Over every run the interrupt mode is live throughout, its timer running whenever WDIE is set and no reset requested, if and only if no unlocked write clears WDE while WDIE is and stays set with a prescaler that is not reserved and WDRF clear |
| AvrWdt.InterruptModeStepIff | lib_arch_avr/src/arch_avr_wdt.cpp:92-207 | One event stops the interrupt mode if and only if it is such a write |
| AvrWdt.Watchdog.WriteReg | lib_arch_avr/src/arch_avr_wdt.cpp:92-144 | The register, the lock and the timer after a write |
| AvrWdt.Watchdog.WdtTimeout | lib_arch_avr/src/arch_avr_wdt.cpp:163-191 | An interrupt first, a reset next |
| AvrWdt.Watchdog.ProcessWdtCycle | lib_arch_avr/src/arch_avr_wdt.cpp:163-191 | One cycle of the watchdog clock: the timer runs down, and out at zero |
| AvrWdt.Watchdog.ProcessCycle | lib_arch_avr/src/arch_avr_wdt.cpp:204-207 | One clock cycle: the time advances, and at the cycle where the lock timer is due, and at no other, WDCE is cleared and the register locked again |
| AvrWdt.Watchdog.InterruptAckHandler | lib_arch_avr/src/arch_avr_wdt.cpp:194-201 | Acknowledging clears WDIE and restarts the timer |
| AvrWdt.Watchdog.DoReset | lib_arch_avr/src/arch_avr_wdt.cpp:63-75 | A watchdog reset leaves the watchdog armed with the default prescaler |
| XtClock.AlwaysConsistent | lib_arch_xt/src/arch_xt_clock.cpp:98-255 | In every reachable state SOSC is set if and only if an external source is selected and an internal one active, which is only while the selected source does not run; otherwise the active source is the selected one; source, divider and status bits of the main domain agree |
| XtClock.SwitchCompletes | lib_arch_xt/src/arch_xt_clock.cpp:184-224 | With SOSC set, after the next event the switch is done if and only if the selected source then runs |
| XtClock.ExternalIsFinal | lib_arch_xt/src/arch_xt_clock.cpp:136-224 | An external selection never changes before a reset, and a completed switch to it is not undone even if the source stops |
| XtClock.LockIsFinal | lib_arch_xt/src/arch_xt_clock.cpp:136-164 | Once LOCKEN is set, it stays set and MCLKCTRLA and MCLKCTRLB never change before a reset |
| XtClock.DomainIs | lib_arch_xt/src/arch_xt_clock.cpp:184-255 | In every reachable state the main clock domain runs from the source in use divided as PEN and PDIV say, by the table of the prescaler, and the status bits tell which external clocks run, the crystal only if enabled |
| XtClock.PendingMeansStopped | lib_arch_xt/src/arch_xt_clock.cpp:205-222 | While SOSC is set the status bit of the selected source is clear |
| XtClock.SelectionIff | lib_arch_xt/src/arch_xt_clock.cpp:140-150 | A write to MCLKCTRLA takes effect if and only if the registers are not locked, on the selection only if that is moreover internal |
| XtClock.PrescalerIff | lib_arch_xt/src/arch_xt_clock.cpp:152-158 | A write to MCLKCTRLB takes effect if and only if they are not locked |
| XtClock.OscillatorIff | lib_arch_xt/src/arch_xt_clock.cpp:172-180 | ENABLE of the oscillator can always be written, its other fields if and only if it is neither enabled nor running |
| XtClock.StepTouches | lib_arch_xt/src/arch_xt_clock.cpp:117-182 | Every other register and frequency is left alone by an event |
| XtClock.LockIff | lib_arch_xt/src/arch_xt_clock.cpp:98-166 | LOCKEN is set if and only if the fuse says so or a one was written to it since the reset |
| XtClock.FrequencyIs | lib_arch_xt/src/arch_xt_clock.cpp:117-133 | An external clock has the frequency last given to it, none if that was negative |
| XtClock.AfterReset | lib_arch_xt/src/arch_xt_clock.cpp:98-114 | A reset selects the internal oscillator divided by six and leaves the external clocks connected |
| XtClock.ClockController.UpdateClocks | lib_arch_xt/src/arch_xt_clock.cpp:184-255 | Selection of the source, configuration of the main clock domain, status bits |
| XtClock.ClockController.WriteMclkctrlaReg | lib_arch_xt/src/arch_xt_clock.cpp:140-150 | The selection is refused when locked or already external |
| XtClock.ClockController.WriteXosc32kctrlaReg | lib_arch_xt/src/arch_xt_clock.cpp:172-180 | The crystal settings are refused while the oscillator is enabled or running |
| XtClock.ClockController.DoReset | lib_arch_xt/src/arch_xt_clock.cpp:98-114 | The clock controller after a reset |
| AvrUsi.StreamOfBytes | lib_arch_avr/src/arch_avr_usi.cpp:331-408 | In either external clock mode, for every sequence of levels of clock and data input, the latched values are the bits sampled at the sampling edges in groups of eight |
| AvrUsi.OneByte | lib_arch_avr/src/arch_avr_usi.cpp:331-408 | From a zero counter, sixteen clock edges latch exactly one byte: the eight bits sampled |
| AvrUsi.ShiftsIn | lib_arch_avr/src/arch_avr_usi.cpp:259-297 | Clocked by the timer or the strobe bit, up to eight shifts take in the bits of the data input in order, and the sixteenth count latches the register and sets the overflow flag |
| AvrUsi.ClockedOnce | lib_arch_avr/src/arch_avr_usi.cpp:285-372 | One such shift: register, counter, flag, hold, and the highest bit on the line of the wire mode |
| AvrUsi.HoldsIff | lib_arch_avr/src/arch_avr_usi.cpp:351-408 | A clock edge holds the clock down if and only if it was held, it falls after a start condition, or it is the sixteenth counted in the holding mode |
| AvrUsi.StartHolds | lib_arch_avr/src/arch_avr_usi.cpp:375-422 | A start condition and the falling clock after it hold the clock down, whatever the inputs do until USISR is written |
| AvrUsi.ReleasedIff | lib_arch_avr/src/arch_avr_usi.cpp:237-257 | A write to USISR lets it go if and only if it clears the flag that holds it and the other flag does not |
| AvrUsi.Conditions | lib_arch_avr/src/arch_avr_usi.cpp:411-422 | The data line moving while the clock is high is a start or a stop condition in the two-wire modes, and nothing otherwise |
| AvrUsi.WireModeTakes | lib_arch_avr/src/arch_avr_usi.cpp:300-320 | What a change of the wire mode does to the lines, the hold and the start detector |
| AvrUsi.ClockModeTakes | lib_arch_avr/src/arch_avr_usi.cpp:226-235 | What a change of the clock mode does: the highest bit appears if the latch is opened |
| AvrUsi.ToggleTakes | lib_arch_avr/src/arch_avr_usi.cpp:267-275 | The toggle bit turns the clock line over and counts nothing |
| AvrUsi.DataTakes | lib_arch_avr/src/arch_avr_usi.cpp:277-281 | A write to USIDR sets the register, and shows its highest bit if the latch is open |
| AvrUsi.StatusTakes | lib_arch_avr/src/arch_avr_usi.cpp:237-257 | A write to USISR clears the flags written as ones and sets the counter |
| AvrUsi.AfterReset | lib_arch_avr/src/arch_avr_usi.cpp:211-216 | Everything reads zero, and the driver neither drives nor holds |
| AvrUsi.Exchange | lib_arch_avr/src/arch_avr_usi.cpp:331-408 | Two devices wired output to input, on the same clock and starting with their highest bit on the wire, have swapped data registers after as many pulses as the register has bits; both buffers hold the byte received and both counters have overflowed |
| AvrUsi.PulsesRotate | lib_arch_avr/src/arch_avr_usi.cpp:331-408 | After `n` pulses the two registers are the starting pair rotated by `n` bits as one of sixteen, and no overflow is missing or early |
| AvrUsi.OnePulse | lib_arch_avr/src/arch_avr_usi.cpp:331-408 | One pulse carries the highest bit of each register to the lowest of the other |
| AvrUsi.UsiclkNeverSet | lib_arch_avr/src/arch_avr_usi.cpp:175-282 | USICLK, a strobe bit, never reads one, so every external edge is counted and the software toggle never is |
| AvrUsi.NextIsModulo | lib_arch_avr/src/arch_avr_usi.cpp:351-356 | The counter step is addition modulo 16 |
| Bits.ShiftLeftIsShift | lib_arch_avr/src/arch_avr_usi.cpp:331-337 | The shift of the bit sequence is the shift of the eight-bit register |
| AvrUsi.Usi.ClockStateChanged | lib_arch_avr/src/arch_avr_usi.cpp:375-408 | A clock edge: shift or output by mode and polarity, the counter, and the hold after a start condition |
| AvrUsi.Usi.DataStateChanged | lib_arch_avr/src/arch_avr_usi.cpp:411-422 | Start and stop conditions of the two-wire modes |
| AvrUsi.Usi.IncCounter | lib_arch_avr/src/arch_avr_usi.cpp:351-372 | The counter, and on overflow the buffer, the flag and the hold |
| AvrUsi.Usi.SetWireMode | lib_arch_avr/src/arch_avr_usi.cpp:300-320 | A change of wire mode, or none |
| AvrUsi.Usi.WriteControlReg | lib_arch_avr/src/arch_avr_usi.cpp:219-275 | A write to USICR through all its rules in the order of the source |
| AvrUsi.Usi.WriteStatusReg | lib_arch_avr/src/arch_avr_usi.cpp:237-257 | Flags cleared by ones, the counter set, the hold released |
| AvrUsi.Usi.WriteDataReg | lib_arch_avr/src/arch_avr_usi.cpp:277-281 | The data register, and the output unless latched |
| AvrUsi.Usi.TimerRaised | lib_arch_avr/src/arch_avr_usi.cpp:285-297 | A shift on the timer match |
| AvrUsi.Usi.DoReset | lib_arch_avr/src/arch_avr_usi.cpp:211-216 | The interface after a reset |
| SpiEndPoint.Exchange | lib_core/src/ioctrl_common/sim_spi.cpp:49-132 | Two end points on a bus, in any of the four modes and either bit order, have swapped their bytes after as many clock pulses as the register has bits and are both at the start of a frame |
| SpiEndPoint.OneFrame | lib_core/src/ioctrl_common/sim_spi.cpp:49-132 | One frame with anything at the far end: the register ends with the byte sampled from the line, and the byte it held is the one the far end could sample, in the bit order of the mode |
| SpiEndPoint.StartOfFrame | lib_core/src/ioctrl_common/sim_spi.cpp:49-74 | Loading and activating puts the first bit of the frame, by bit order, on the line at the start of a frame |
| SpiEndPoint.InactiveFollows | lib_core/src/ioctrl_common/sim_spi.cpp:100-132 | An end point that is not active only follows the clock level |
| SpiEndPoint.OnePulse | lib_core/src/ioctrl_common/sim_spi.cpp:100-132 | One clock pulse gives one bit, takes one bit, and ends the frame only if it is the eighth |
| SpiEndPoint.PulsesPass | lib_core/src/ioctrl_common/sim_spi.cpp:100-132 | After `n` pulses the first `n` bits taken are in the register in order and the first `n` of its bits have left it |
| SpiEndPoint.BusPulses | lib_core/src/ioctrl_common/sim_spi.cpp:100-132 | After `n` pulses of the bus `n` bits have changed places |
| Bits.ShiftRightIsShift | lib_core/src/ioctrl_common/sim_spi.cpp:84-91 | The right shift of the bit sequence is that of the eight-bit register |
| SpiEndPoint.Device.SetShiftClock | lib_core/src/ioctrl_common/sim_spi.cpp:100-132 | A clock edge: sample or output by CPOL and CPHA, the step, and the call at the end of a frame |
| SpiEndPoint.Device.ShiftAndSample | lib_core/src/ioctrl_common/sim_spi.cpp:84-91 | One bit shifted in, by bit order |
| SpiEndPoint.Device.SetShiftData | lib_core/src/ioctrl_common/sim_spi.cpp:58-62 | Loading a frame puts its first bit on the line |
| SpiEndPoint.Device.SetActive | lib_core/src/ioctrl_common/sim_spi.cpp:68-74 | Activation starts a frame |
| XtSpi.TransmitConserves | lib_arch_xt/src/arch_xt_spi.cpp:283-347 | In host buffer mode, over every run in which the host is not selected by another one (any select event is allowed if SSD is set) and without a write to the control registers or mock transfer: frames sent, then the one in the shift register, then the one waiting, are the bytes written in order, except that a byte written while another waits takes its place |
| XtSpi.AllBytesSent | lib_arch_xt/src/arch_xt_spi.cpp:690-706 | Nothing written is lost if and only if DATA is only written while no frame is waiting |
| XtSpi.FrameIsSent | lib_arch_xt/src/arch_xt_spi.cpp:321-347 | A frame is sent after as many clock edges as are left of its sixteen; then the waiting one starts, or the controller stops; RXCIF and DREIF are set, and TXCIF if nothing waited |
| XtSpi.SingleConserves | lib_arch_xt/src/arch_xt_spi.cpp:283-347 | Normal mode: over every run in which the host is not selected by another one, the frames sent and the one in the shift register are, in order, the one that was there and the bytes written while no transfer was under way |
| XtSpi.SingleTransfer | lib_arch_xt/src/arch_xt_spi.cpp:690-734 | A byte written while idle is sent after sixteen clock edges; then the controller is idle, IF is set, and the frame received is the one that a read of DATA gives |
| XtSpi.WriteCollides | lib_arch_xt/src/arch_xt_spi.cpp:690-712 | A write during a transfer sets WRCOL and changes nothing else |
| XtSpi.WriteStarts | lib_arch_xt/src/arch_xt_spi.cpp:690-712 | A write while idle loads the byte and starts its transfer |
| XtSpi.ClientReceives | lib_arch_xt/src/arch_xt_spi.cpp:390-411 | A selected client takes in exactly one frame every sixteen edges of the clock pin, queued in buffer mode and replacing the last in normal mode, and flags it |
| XtSpi.ClientSelects | lib_arch_xt/src/arch_xt_spi.cpp:390-411 | The select line starts and stops a client, and while it is not selected clock edges do nothing |
| XtSpi.ClientWrite | lib_arch_xt/src/arch_xt_spi.cpp:283-303 | What a client is given to send goes to the shift register if it is not selected and BUFWR or normal mode allow it, otherwise to the buffer, or in normal mode nowhere |
| XtSpi.HostStepsBack | lib_arch_xt/src/arch_xt_spi.cpp:390-411 | A host selected by another one becomes a selected client with MASTER clear and SSIF, or IF, set, unless SSD is set |
| XtSpi.EnableTakes | lib_arch_xt/src/arch_xt_spi.cpp:648-655 | The mode that CTRLA leaves an idle controller in, a selected host without SSD being a client |
| XtSpi.AfterReset | lib_arch_xt/src/arch_xt_spi.cpp:236-251 | After a reset the controller is disabled and empty, with DREIF set |
| XtSpi.ReadyToSend | lib_arch_xt/src/arch_xt_spi.cpp:236-655 | So a program that enables the host after a reset, not selected, can transmit as in SingleTransfer |
| XtSpi.FlagsWritten | lib_arch_xt/src/arch_xt_spi.cpp:675-688 | Ones written to INTFLAGS clear the flags at once in buffer mode, but for DREIF, and none in normal mode |
| XtSpi.FlagsAfterRead | lib_arch_xt/src/arch_xt_spi.cpp:511-632 | The next read of DATA clears all the flags so written, and in buffer mode RXCIF if it empties the queue, and BUFOVF |
| XtSpi.ReceiveQueue | lib_arch_xt/src/arch_xt_spi.cpp:295-423 | Over every run without reset, with mode changes, client transfers and mock transfers: bytes read out, then the queue, are a subsequence of the frames received, and the queue never exceeds three |
| XtSpi.ReceiveFlag | lib_arch_xt/src/arch_xt_spi.cpp:614-734 | While buffer mode stays on, INTFLAGS is not written and no flag is waiting to be cleared, RXCIF is set if and only if the queue is not empty |
| XtSpi.TransmitFlag | lib_arch_xt/src/arch_xt_spi.cpp:690-734 | For a host in buffer mode, over the same runs and while INTFLAGS is not written, DREIF is set if and only if no frame is waiting |
| XtSpi.FrameEndDropsIff | lib_arch_xt/src/arch_xt_spi.cpp:350-358 | In buffer mode, whatever ends a frame, the frame received is dropped if and only if the queue holds three, and BUFOVF does not change either way |
| XtSpi.NothingLostIff | lib_arch_xt/src/arch_xt_spi.cpp:295-358 | Over every run in buffer mode the frames read and then those queued are all the frames received, in order, if and only if no frame ends and no transfer starts while three are queued |
| XtSpi.OverflowIff | lib_arch_xt/src/arch_xt_spi.cpp:614-705 | Over every run in buffer mode BUFOVF is set if and only if it was and nothing has cleared it, or DATA has been written with three frames queued since a read of DATA or a one written to it last cleared it |
| XtSpi.SilentLossIff | lib_arch_xt/src/arch_xt_spi.cpp:295-705 | So a run in buffer mode, from a clear flag, loses a frame with BUFOVF never set if and only if a frame ends or a transfer starts with three queued and DATA is never written then; and with BUFOVF clear at the end if and only if it is not written then after the last clear |
| XtSpi.SilentLoss | lib_arch_xt/src/arch_xt_spi.cpp:321-358 | And it does in ordinary traffic: with two frames queued and two to send, for every sequence of edges that sends both, the second frame received is dropped |
| XtSpi.CtrlBKeepsDreIff | lib_arch_xt/src/arch_xt_spi.cpp:488-499 | After a write to CTRLB in buffer mode DREIF still tells whether a frame is waiting if and only if buffer mode stays on and either no frame is waiting or the write ends none, or buffer mode goes off with a frame waiting |
| XtSpi.BufferModeLosesDre | lib_arch_xt/src/arch_xt_spi.cpp:668-673 | So leaving and re-entering buffer mode with nothing to send leaves DREIF clear while the transmit buffer is empty |
| XtSpi.FrameRuns | lib_arch_xt/src/arch_xt_spi.cpp:321-347 | Until the sixteenth edge nothing is sent or received and only the clock and the step move |
| Subsequences.Stages | lib_arch_xt/src/arch_xt_spi.cpp:295-312 | Two stages of a queue that only loses elements make one |
| Subsequences.Transitive | lib_arch_xt/src/arch_xt_spi.cpp:295-312 | Losing elements twice is losing elements |
| XtSpi.Spi.PushTx | lib_arch_xt/src/arch_xt_spi.cpp:283-303 | A frame goes to the buffer or the shift register and an idle host starts, dropping a third queued frame |
| XtSpi.Spi.NextEdge | lib_arch_xt/src/arch_xt_spi.cpp:321-347 | One edge of the host clock, and at the end of a frame the next one or the stop |
| XtSpi.Spi.FrameDone | lib_arch_xt/src/arch_xt_spi.cpp:350-358 | A received frame is queued if there is room, then reported |
| XtSpi.Spi.ReportFrame | lib_arch_xt/src/arch_xt_spi.cpp:716-734 | The flags at the end of a frame, and the single frame kept in normal mode |
| XtSpi.Spi.KeepLast | lib_arch_xt/src/arch_xt_spi.cpp:730-733 | The loop keeps exactly the last frame |
| XtSpi.Spi.PopRx | lib_arch_xt/src/arch_xt_spi.cpp:306-312 | The oldest frame, or zero |
| XtSpi.Spi.SetMode | lib_arch_xt/src/arch_xt_spi.cpp:261-271 | A change of mode, with the idle clock level and the reaction to a selected host |
| XtSpi.Spi.SetSelected | lib_arch_xt/src/arch_xt_spi.cpp:390-411 | The select line, by mode |
| XtSpi.Spi.SelectHost | lib_arch_xt/src/arch_xt_spi.cpp:737-748 | A selected host becomes a client and flags it, unless SSD is set |
| XtSpi.Spi.WriteDataReg | lib_arch_xt/src/arch_xt_spi.cpp:690-712 | A write to DATA in the four situations |
| XtSpi.Spi.ReadDataReg | lib_arch_xt/src/arch_xt_spi.cpp:614-632 | A read of DATA: the frame, the flags, and the flags waiting to be cleared |
| XtSpi.Spi.WriteIntFlagsReg | lib_arch_xt/src/arch_xt_spi.cpp:680-688 | Flags cleared at once and flags left for the next read of DATA |
| XtSpi.Spi.WriteCtrlAReg | lib_arch_xt/src/arch_xt_spi.cpp:648-655 | Mode from ENABLE and MASTER |
| XtSpi.Spi.WriteCtrlBReg | lib_arch_xt/src/arch_xt_spi.cpp:668-673 | Serial mode, and the flags that exist in the new buffer mode |
| XtSpi.Spi.MockTransfer | lib_arch_xt/src/arch_xt_spi.cpp:414-423 | A whole transfer in one step |
| XtSpi.Spi.DoReset | lib_arch_xt/src/arch_xt_spi.cpp:236-251 | The controller after a reset, DREIF set |
| XtTimerA.AllOrNothing | lib_arch_xt/src/arch_xt_timer_a.cpp:667-710 | Under the automatic lock an update moves all four buffers into their registers and clears all four flags, or changes nothing |
| XtTimerA.LockIsAutomatic | lib_arch_xt/src/arch_xt_timer_a.cpp:667-678 | With ALUPD set and LUPD never written directly, in every state of a run LUPD is set if and only if some buffer has not been written |
| XtTimerA.EachBufferIsRewritten | lib_arch_xt/src/arch_xt_timer_a.cpp:667-710 | Once a buffer has been moved, no run without a write to that buffer contains another update |
| XtTimerA.BuffersHoldLastWords | lib_arch_xt/src/arch_xt_timer_a.cpp:552-598 | Each buffer holds the last word written to it, as computed from the byte accesses alone: what an update moves is the last value |
| XtTimerA.UpdateReachesCounter | lib_arch_xt/src/arch_xt_timer_a.cpp:681-710 | After an update the counter runs with the register values if and only if nothing moved, PER or CMP0 was among what moved, or CMP1 and CMP2 did not change: a buffered update of CMP1 or CMP2 alone does not reach the counter |
| XtTimerA.CounterFollows | lib_arch_xt/src/arch_xt_timer_a.cpp:681-811 | Under the automatic lock the counter always runs with the registers a program reads: its top is CMP0 in frequency mode and PER otherwise, its compare values the three compare registers |
| XtTimerA.MovesIff | lib_arch_xt/src/arch_xt_timer_a.cpp:943-1013 | With the lock open, the top of a count up and the bottom of a count down in normal and frequency mode, the bottom in the slope modes, and an update command move the buffers; no other counter event or command does |
| XtTimerA.UpdateMovesWaiting | lib_arch_xt/src/arch_xt_timer_a.cpp:681-710 | An update with the lock open moves each buffer that waits, and no other, and locks again only if ALUPD is set |
| XtTimerA.ManualLock | lib_arch_xt/src/arch_xt_timer_a.cpp:458-506 | Without ALUPD, LUPD is set by CTRLESET and cleared by CTRLECLR and by nothing else |
| XtTimerA.ModeTakesEffect | lib_arch_xt/src/arch_xt_timer_a.cpp:498-506 | A write to CTRLB sets waveform and ALUPD, the top of the counter, and LUPD under ALUPD |
| XtTimerA.DirectWrites | lib_arch_xt/src/arch_xt_timer_a.cpp:541-572 | Writes to PER and CMPx take effect on the register and the counter at once and leave buffers and lock alone |
| XtTimerA.SettingIsCosmetic | lib_arch_xt/src/arch_xt_timer_a.cpp:515-521 | A write to CTRLFSET sets valid bits in both registers and makes no buffer wait |
| XtTimerA.ResetCommand | lib_arch_xt/src/arch_xt_timer_a.cpp:1210-1237 | What the reset command leaves in every register and in the counter |
| XtTimerA.ValidBitsDiffer | lib_arch_xt/src/arch_xt_timer_a.cpp:573-598 | Until one of the two is written, CTRLFSET shows all four waiting buffers and CTRLFCLR only that of PER |
| XtTimerA.ClearingIsCosmetic | lib_arch_xt/src/arch_xt_timer_a.cpp:522-531 | A write to CTRLFCLR wipes the compare bits whatever its mask, and does not stop the update they stood for |
| XtTimerA.LockOutlivesAutomatic | lib_arch_xt/src/arch_xt_timer_a.cpp:500-506 | A lock left behind when ALUPD is cleared holds back every update until LUPD is cleared |
| XtTimerA.ReadIsAtomic | lib_arch_xt/src/arch_xt_timer_a.cpp:337-393 | The high byte read belongs to the low byte read before it, whatever updates and high byte writes come between |
| XtTimerA.WriteIsAtomic | lib_arch_xt/src/arch_xt_timer_a.cpp:541-598 | The word written is the low byte written before and the high byte |
| XtTimerA.TimerA.UpdateBufferedRegisters | lib_arch_xt/src/arch_xt_timer_a.cpp:681-710 | The loop over the channels moves every waiting buffer, clears its flags and renews the lock |
| XtTimerA.TimerA.UpdateAlupdStatus | lib_arch_xt/src/arch_xt_timer_a.cpp:667-678 | The loop over the flags computes the lock |
| XtTimerA.TimerA.ConfigureSingleCounter | lib_arch_xt/src/arch_xt_timer_a.cpp:773-811 | Top and compare values of the counter, from the registers and the waveform mode |
| XtTimerA.TimerA.WriteHighByte | lib_arch_xt/src/arch_xt_timer_a.cpp:541-598 | The high byte of each 16-bit register |
| XtTimerA.TimerA.WriteCtrlESetReg | lib_arch_xt/src/arch_xt_timer_a.cpp:458-477 | The lock bit and the update and reset commands |
| XtTimerA.TimerA.ProcessCounter | lib_arch_xt/src/arch_xt_timer_a.cpp:943-1013 | Which counter events update the buffered registers, by waveform mode |
| XtTimerA.TimerA.DoReset | lib_arch_xt/src/arch_xt_timer_a.cpp:1219-1237 | The reset command |
| TimerCounter.SameRunEvents | lib_core/src/ioctrl_common/sim_timer.cpp:487-687 | The fast counter refines the simple one over runs of any length and any number of delays: crediting the ticks one delay after the other reaches the same events at the same ticks as counting them one by one |
| TimerCounter.SameRunCounter | lib_core/src/ioctrl_common/sim_timer.cpp:487-687 | And after any number of ticks the counter, its direction included, is in the same state |
| TimerCounter.SameRunsIff | lib_core/src/ioctrl_common/sim_timer.cpp:433-687 | Exactly: for a counter whose direction agrees with its slope, all runs have the same events if and only if a counter going down is not at the largest value, and does not restart from a top at that value |
| TimerCounter.AccessChangesNothing | lib_core/src/ioctrl_common/sim_timer.cpp:487-687 | Crediting the ticks at any moment and starting the delays afresh, as every register access does, changes neither the events still to come nor the counter |
| TimerCounter.SawtoothUp | lib_core/src/ioctrl_common/sim_timer.cpp:609-687 | Counting up from zero the counter is the number of ticks modulo the top plus one |
| TimerCounter.SawtoothDown | lib_core/src/ioctrl_common/sim_timer.cpp:609-687 | Counting down from the top it is the top less that, for a top below the largest value |
| TimerCounter.Triangle | lib_core/src/ioctrl_common/sim_timer.cpp:609-687 | In double slope it is a triangle of period twice the top, staying at neither end, with its direction |
| TimerCounter.TopOfZeroHolds | lib_core/src/ioctrl_common/sim_timer.cpp:609-687 | A top of zero holds the counter at zero in any slope |
| TimerCounter.SameEventsIff | lib_core/src/ioctrl_common/sim_timer.cpp:487-687 | For one delay: crediting all ticks at its end reaches the same events at the same ticks as counting one by one, if and only if a counter going down is not at its largest value |
| TimerCounter.BatchedTicks | lib_core/src/ioctrl_common/sim_timer.cpp:503-687 | And then the state at the end of the delay is the same too |
| TimerCounter.PartialCredit | lib_core/src/ioctrl_common/sim_timer.cpp:503-687 | Ticks credited before the end of the delay leave the rest of it and the events at its end unchanged |
| TimerCounter.NoEventIsMissed | lib_core/src/ioctrl_common/sim_timer.cpp:503-551 | No tick before the end of the delay reaches an event |
| TimerCounter.CountdownFromMax | lib_core/src/ioctrl_common/sim_timer.cpp:582-630 | A manual tick of a counter going down from its largest value, below which the top is, sets it to zero |
| TimerCounter.DelayIsNearest | lib_core/src/ioctrl_common/sim_timer.cpp:503-535 | The delay is positive and no longer than that of any enabled event |
| TimerCounter.DelayIsSome | lib_core/src/ioctrl_common/sim_timer.cpp:536-545 | The delay ends with at least one event |
| TimerCounter.Device.DelayToEvent | lib_core/src/ioctrl_common/sim_timer.cpp:503-551 | The loop over the compare channels computes the delay and the events at its end |
| TimerCounter.Device.ProcessTicks | lib_core/src/ioctrl_common/sim_timer.cpp:609-687 | The counter, wrapped, turned or restarted by the events reached |
| TimerCounter.Device.AddTick | lib_core/src/ioctrl_common/sim_timer.cpp:582-602 | One manual tick, and the events it reaches |
| XtTimerB.Measurement | lib_arch_xt/src/arch_xt_timer_b.cpp:298-463 | FRQPW: in every run, after a rising, a falling and a rising edge, CCMP is the ticks from the first to the second and CNT those from the first to the third, modulo 65536, whatever reads of CCMP and clears of the flag come meanwhile; both stay so under any further edges, ticks and clears, and the flag is set until cleared |
| XtTimerB.WaitsAgainIff | lib_arch_xt/src/arch_xt_timer_b.cpp:331-340 | The next measurement: once one has ended, whatever ticks, edges and reads follow, CCMP and CNT stay until a rising edge after a read of CCMP, and the timer waits for such an edge if and only if CCMP has been read since and the input is low |
| XtTimerB.Periodic | lib_arch_xt/src/arch_xt_timer_b.cpp:343-376 | INT: over every run of ticks from zero the counter is their number modulo CCMP plus one, and the flag is set if and only if there were more than CCMP |
| XtTimerB.TimeoutIff | lib_arch_xt/src/arch_xt_timer_b.cpp:343-420 | TIMEOUT: an edge starts the count from zero, and at the edge back the flag is set if and only if more ticks than the compare value have passed; after it nothing is counted |
| XtTimerB.PwmOutput | lib_arch_xt/src/arch_xt_timer_b.cpp:316-376 | PWM8: the period is the low byte of CCMP plus one, and the output is high throughout unless the high byte is zero, when it is low for one tick in each period |
| XtTimerB.CaptureTaken | lib_arch_xt/src/arch_xt_timer_b.cpp:421-430 | CAPT: a rising edge puts the count in CCMP and sets the flag while the count goes on; a falling edge changes nothing |
| XtTimerB.CounterSettings | lib_arch_xt/src/arch_xt_timer_b.cpp:221-329 | In every state reachable from reset: where the ticks come from, where the top is, and whether the compare channel is used, by clock, phase and mode |
| XtTimerB.WritesTake | lib_arch_xt/src/arch_xt_timer_b.cpp:176-294 | What each register write, and a read of CCMP, sets |
| XtTimerB.SettingsStay | lib_arch_xt/src/arch_xt_timer_b.cpp:343-479 | The settings stay until a register is written, whatever edges, ticks, reads and clears come |
| XtTimerB.EventsAreIgnored | lib_arch_xt/src/arch_xt_timer_b.cpp:391-400 | A timer not enabled, or not set to capture, ignores the event input |
| XtTimerB.EnabledCounts | lib_arch_xt/src/arch_xt_timer_b.cpp:148-256 | A timer only enabled since the reset counts at once in interrupt mode |
| XtTimerB.AlwaysAgrees | lib_arch_xt/src/arch_xt_timer_b.cpp:225-471 | In every state reachable from reset, RUN is one if and only if the clock is on and the phase is Run; the tick source agrees; in single mode the output is one if and only if the phase is Run; the top of the counter is that of the mode |
| XtTimerB.PulseWidthMeasured | lib_arch_xt/src/arch_xt_timer_b.cpp:440-447 | PW: in every run CCMP is the ticks from the rising to the falling edge, modulo 65536 |
| XtTimerB.PeriodMeasured | lib_arch_xt/src/arch_xt_timer_b.cpp:432-438 | FRQ: in every run CCMP is the ticks from rising to rising edge, modulo 65536, and the count restarts |
| XtTimerB.OneShot | lib_arch_xt/src/arch_xt_timer_b.cpp:343-471 | SINGLE: after the edge that starts it the output is one for CCMP ticks, whatever edges come meanwhile, and the next tick ends it with the capture flag raised |
| XtTimerB.QuietRun | lib_arch_xt/src/arch_xt_timer_b.cpp:391-479 | Between edges the counter is the number of ticks modulo 65536 and nothing else changes |
| XtTimerB.TickIsCounterTick | lib_core/src/ioctrl_common/sim_timer.cpp:582-687 | The tick of this model is that of the shared counter |
| XtTimerB.TimerB.ProcessCaptureEvent | lib_arch_xt/src/arch_xt_timer_b.cpp:391-479 | An edge on the event input, by mode |
| XtTimerB.TimerB.TickOnce | lib_arch_xt/src/arch_xt_timer_b.cpp:343-376 | What the counter raises at the top, bottom and compare value, by mode |
| XtTimerB.TimerB.SetCounterState | lib_arch_xt/src/arch_xt_timer_b.cpp:298-313 | Phase, tick source and RUN together |
| XtTimerB.TimerB.WriteCtrlAReg | lib_arch_xt/src/arch_xt_timer_b.cpp:225-256 | The clock, and the phase kept |
| XtTimerB.TimerB.WriteCtrlBReg | lib_arch_xt/src/arch_xt_timer_b.cpp:258-272 | The mode, its starting phase, top and output |
| XtTimerB.TimerB.WriteCcmpReg | lib_arch_xt/src/arch_xt_timer_b.cpp:285-294 | The compare value and the top |
| XtTimerB.TimerB.ReadCcmpReg | lib_arch_xt/src/arch_xt_timer_b.cpp:331-340 | A read of CCMP |
| XtTimerB.TimerB.DoReset | lib_arch_xt/src/arch_xt_timer_b.cpp:148-159 | The timer after a reset |
| Arith.PageIsInside | lib_arch_avr/src/arch_avr_nvm.cpp:343-387 | When the page size divides the memory size the page of an address inside is inside |
| Arith.SamePage | lib_arch_avr/src/arch_avr_nvm.cpp:384-395 | An address is on the page of another if and only if the quotients by the page size agree, at the remainder |
| Arith.CycleIsMod | lib_core/src/ioctrl_common/sim_timer.cpp:609-687 | Counting with a restart is the remainder |
| Arith.QuotientIsDiv | lib_arch_xt/src/arch_xt_nvm.cpp:359-385 | The page number is the quotient of the address by the page size |

## Left out

- Logging, the debug probe, the device description decoding and the Python bindings.
- Pin drivers: the levels put on the lines are fields of the models, their effect on a pin is not.
- Interrupt flags beyond the bits that the protocols read: enable bits and vector dispatch of each
  peripheral appear only where a theorem needs them.
- Serial, two-wire and analog peripherals, the real-time counter and timer D: their substance is in
  other classes or in floating point.
- XT interrupt controller: LVL1VEC pointing past the last vector is excluded, because the code then
  reads outside its vector of flags; the address of a request is kept as table base and slot, without
  the size of a slot.
- AVR NVM: lock bits and signature rows, which the code does not implement; an EEPROM read past the
  end returns an unspecified byte in the code and 0xFF in the model.
- AVR NVM: the five EEPROM control bits are taken to share one register with EERE in bit 0, EEPE in
  bit 1, EEMPE in bit 2, EERIE in bit 3 and EEPM above, as in the device descriptions of the
  repository; which bits a refused field receives depends on it.
- XT NVM: the timer and the CPU halt during a command, the command value 7 that is outside the
  enumeration, and the location of the write error bit.
- XT clock: the calibration registers of the 20 MHz oscillator and the frequencies themselves.
- AVR USI: of the two-wire modes the conditions and the clock hold, not whole transfers.
- SPI: the bit delay from the prescaler; frames rather than bits in the controller, tied together by
  `OneFrame`; the transmit buffer of a client, which the code fills but never sends.
- Timer A: split mode, event inputs, direction, and the compare outputs; the counter is the
  configuration it is given and the events it raises.
- Timer B: the overflow flag option, event counting as a separate input, the driver of the output
  pin, and the pause in sleep modes.
- XtSpi.TransmitFlag: for hosts in buffer mode only, because a client never empties its buffer.
