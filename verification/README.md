# QAR-Core verification

A Dafny model of the QAR-Core system, with proofs that hold for every program, every bus timing and every run:

- the three-stage RISC-V core of `qar-core/rtl/qar_core.v`, with its fetch queue, forwarding, interlock, valid/ready buses,
  instruction cache, CSRs, traps and interrupts, against a sequential machine that runs one instruction per step;
- the assembler of `devkit/cli/qarsim.go`, from source lines through labels and instruction words down to the running pipeline;
- the UART as a serial link (transmitter, synchronizer and receiver sharing one divider) and its LIN slave gate;
- the CAN receive ring, the GPIO debounce filters and edge latches, and the timer's compares, PWM channels and watchdog.

`dafny verify dfyconfig.toml` checks the whole project.

## How the model is built

Clocked logic is modelled twice. A class (`QarCore`, `UartUnit`, `CanUnit`, `GpioUnit`, `TimerUnit`, `RegFile`) holds the registers and
its method performs one clock edge assignment by assignment, in the order of the Verilog block: right-hand sides read the registers as
they were before the edge, and a later assignment overrides an earlier one. That method is proved equal to a function (`Step`) from the
old registers and the inputs to the new ones, and the theorems are about that function and its runs. Combinational logic and the encoders
are functions. The assembler's two passes are methods with loops (`Assembler.ParseLines`, `Assembler.Build`), proved against what a
correct label table and a correct image are. The meaning of a source program is given without the assembler: `SourceMachine.SourceStep`
says what each written instruction does to registers, memory and control registers, and `SourceMachine.Value` which number, macro or part
of a label's address an operand stands for.

Inputs that the design does not control are parameters of each cycle: when the memories answer, what a peripheral returns, which
interrupt lines are up, what the bus writes, the pin levels.

| file | contents |
|---|---|
| `words.dfy`, `arith.dfy` | 32-bit words and the numbers they stand for; what the ALU does to numbers and bits |
| `regfile.dfy`, `execute.dfy` | register file; decode, ALU and execute stage |
| `core.dfy`, `qarcore.dfy` | the core's registers and its clock edge, as a function and as a class |
| `sequential.dfy`, `machine.dfy` | the machine a programmer reasons about; its memory, peripheral windows, conditions and traps |
| `stream.dfy`, `refinement.dfy`, `runs.dfy` | instruction stream and cache; one cycle refines; whole runs refine |
| `progress.dfy`, `interrupts.dfy` | throughput; exactly which interrupts are precise |
| `pending.dfy` | when interrupts become pending, when they fire and with which cause |
| `skipped.dfy`, `repeated.dfy` | runs from reset: a lost cache hit makes the core skip an instruction; an interrupt makes it repeat one |
| `isa.dfy`, `decode.dfy` | instruction set, encoders and decoder |
| `assembler.dfy` | labels, operands and image |
| `source.dfy`, `compiler.dfy` | what a written instruction does, without its encoding; source program to pipeline |
| `ring.dfy` | the circular buffer shared by UART and CAN |
| `uart.dfy`, `uartclocked.dfy` | UART clock edge, as a function and as a class |
| `wire.dfy`, `link.dfy` | timing of the wire for every divider; no byte lost, changed or reordered, and how soon it arrives |
| `limits.dfy`, `overrun.dfy` | the divider bound is sharp; a run from reset in which the full flag loses a byte |
| `lin.dfy`, `linmaster.dfy` | LIN slave gate; LIN break |
| `header.dfy`, `linsetup.dfy` | a LIN header from the receive pin to the answer; how a slave is armed and a header sent |
| `can.dfy`, `gpio.dfy`, `timer.dfy` | the counting peripherals |

## Where the code departs from its documentation or from what one would expect

The model follows the code. Each departure has a lemma with its exact condition.

- **A cache hit can be lost.** On a hit in a cycle in which ID takes IF's word, the valid bit set for the hit is cleared by a later
  assignment although the fetch address has moved on (`qar-core/rtl/qar_core.v:1041-1067`). `Stream.StreamStep` shows that the buffers
  stay consecutive exactly when this does not happen, and `Stream.LostHitLeavesGap` and `Stream.GapStep` that otherwise exactly one
  instruction is skipped. `SkippedInstruction.LoopSkips` is a run from reset that ends in a state the sequential machine never reaches. The
  refinement theorems therefore ask that no hit is lost, which always holds without a cache, the default configuration.
- **An interrupt with an instruction in EX repeats it.** A completing instruction's effects take place and its own PC is saved
  (`Interrupts.InterruptRepeatsInstruction`); `RepeatedInstruction.CountedTwice` is a run from reset in which one increment is performed
  twice. If the instruction was waiting on the data bus, or raises its request in that cycle, the request outlives it
  (`Interrupts.InterruptOrphansRequest`), and when memory answers, it writes its register or memory word after all and completes any bus
  instruction then in EX in place of that one's own request (`Interrupts.OrphanStrikes`). `Interrupts.InterruptExactIff` says for every
  pipeline state in order exactly which interrupts leave the architectural state, `mip`, `mtime`, the acknowledge pins and the pipeline as
  they should: EX empty and the oldest instruction not still being fetched, or EX completing an MRET or an instruction that writes nothing
  new to any of these. `Interrupts.InterruptUnseenIff` adds what memory and peripherals see, and every write to `mip`, `mtime` or the
  acknowledge register, even of the value already there.
- **Some words outside the instruction set execute silently**: OP-IMM ignores funct3, AND, OR, XOR and SLL ignore funct7, ECALL and MRET
  ignore their register fields, and the all-zero word does nothing. `Decoding.IllegalIff` says exactly which words trap. Of the words that
  do, those of the OP format write their register all the same (`Decoding.IllegalWritesIff`).
- **Numbers up to 3 * 2^31 - 1** are accepted as immediates and taken modulo 2^32, although the error message speaks of the 32-bit range
  (`SourceMachine.NumberMeans`, `SourceMachine.LowersIff`).
- **MSCRATCH** is a name the assembler knows and a CSR the core does not have: it reads as zero and ignores writes. All other names exist
  (`Compiler.NamedCsrExistsIff`).
- **The UART's full flag** is computed at 32 bits and misses a ring that is full across the pointer wrap, so the FIFO documented to hold
  eight bytes then overwrites its oldest (`SerialLink.FullFlagExact`, `SerialLink.WrappedFullLoses`).
  `LinkOverrun.AcceptedByteNeverReceived` is a run from reset, of ordinary traffic, after which an accepted byte is never received.
- **The UART's bit period** is N + 1 cycles for a divider N, where the documentation says N; and with a divider below 2 every sample falls
  in the following bit (`SerialLink.SamplingPoint`), so that for every parity and stop setting the link is lossless exactly for dividers
  of at least 2 (`LinkLimits.LosslessIff`).
- **The last stop bit** of a received frame is never checked: it is sampled in the edge that already decides about the frame
  (`WireTiming.AcceptedIff`).
- **A LIN break** of programmed length n takes n + 1 bit periods, the line low for one cycle less (`LinMaster.BreakLasts`), and when it
  starts while an automatic header byte is due it meets the frame of that byte, loaded in the same cycle, which the next cycle abandons
  (`LinMaster.BreakMeetsHeaderIff`, `LinMaster.BreakStep`).
- **A watchdog kick** in the cycle of a tick is overridden by the count (`Timer.KickTakesEffectIff`), where the documentation says a kick
  reloads.
- **The debounce window** is one cycle longer than the programmed number: threshold + 1 consecutive cycles
  (`Gpio.FlipsExactlyAfterStreak`).
- **CAN STATUS bit 0**, documented as "FIFO not empty", is cleared by an acknowledge write even over pending frames
  (`Can.ReadyIsNotEmptyIff`).

## Model

| member | source | states |
|---|---|---|
| RegisterFile.ReadAfterWrite | qar-core/rtl/regfile.v:31-38 | a read sees the last write to its own register and no other, and x0 stays zero |
| RegisterFile.RegFile.ReadPort | qar-core/rtl/regfile.v:31-33 | a read port returns the register's value, zero for x0 |
| RegisterFile.RegFile.Clock | qar-core/rtl/regfile.v:35-38 | the in-place write changes exactly the addressed register, never x0 |
| Arithmetic.SumNat | qar-core/rtl/alu.v:29 | the sum of two words stands for the sum of their numbers, modulo 2^32 |
| Arithmetic.AluAddsAndSubtracts | qar-core/rtl/alu.v:29-30 | ADD and SUB add and subtract numbers, modulo 2^32 |
| Arithmetic.AndBits | qar-core/rtl/alu.v:31 | every bit of AND is set if and only if it is set in both operands |
| Arithmetic.OrBits | qar-core/rtl/alu.v:32 | every bit of OR is set if and only if it is set in one of the operands or both |
| Arithmetic.XorBits | qar-core/rtl/alu.v:33 | every bit of XOR is set if and only if it differs in the operands |
| Arithmetic.AluShifts | qar-core/rtl/alu.v:34-35 | SRL divides by, and SLL multiplies by, 2 to the power of the second operand modulo 32, the product modulo 2^32 |
| Arithmetic.BitsDecide | qar-core/rtl/alu.v:31-33 | words with the same bits are the same, so that the bit laws determine AND, OR and XOR |
| Arithmetic.SignedLessIff | qar-core/rtl/qar_core.v:813-814 | the signed comparison compares two's complement numbers |
| MachineLaws.ConditionsMean | qar-core/rtl/qar_core.v:811-816 | each branch condition holds if and only if the numbers, signed for LT and GE, compare so |
| MachineLaws.UpdatesMean | qar-core/rtl/qar_core.v:848-868 | CSRRW writes its operand, CSRRS sets and CSRRC clears exactly the bits it selects |
| MachineLaws.NextNat | qar-core/rtl/qar_core.v:529 | the next instruction is four bytes on, modulo 2^32 |
| MachineLaws.EvenNat | qar-core/rtl/qar_core.v:840 | a JALR target is rounded down to an even address |
| MachineLaws.RamReadAfterWrite | qar-core/rtl/qar_core.v:1107-1121 | a load sees the last store to its own word of four addresses and no other |
| MachineLaws.DeviceWindows | qar-core/rtl/qar_core.v:514-527 | an access goes to a peripheral if and only if its address lies in one of seven windows of 256 bytes |
| MachineLaws.InterruptMeans | qar-core/rtl/qar_core.v:1145-1149 | an interrupt goes to `mtvec`, saves PC and cause, moves MIE to MPIE, clears it, and leaves every other control register, the registers and memory |
| MachineLaws.EcallTraps | qar-core/rtl/qar_core.v:869-873 | so does ECALL, with cause 11 |
| MachineLaws.IllegalTraps | qar-core/rtl/qar_core.v:895-913 | every word that raises an illegal-instruction trap enters it in the same way, with cause 2, and leaves memory (which of them write a register: `Decoding.IllegalWritesIff`) |
| MachineLaws.MretReturns | qar-core/rtl/qar_core.v:874-877 | MRET goes to `mepc`, moves MPIE to MIE, sets it, and changes nothing else |
| ExecuteStage.UnusedOperands | qar-core/rtl/qar_core.v:484-494 | an operand the decoder does not declare as used has no influence on anything the instruction does, for all 2^32 words |
| ExecuteStage.EffectsAreOrderly | qar-core/rtl/qar_core.v:592-913 | for every word: a bus access never also writes back, jumps, traps or touches a CSR; a trap or a jump never accesses memory |
| Clocked.QarCore.constructor | qar-core/rtl/qar_core.v:975-1018 | a new core is in the reset state |
| Clocked.QarCore.Tick | qar-core/rtl/qar_core.v:974-1155 | one clock edge of all registers, assignment order respected, is the step function the theorems are about |
| Clocked.NextState | qar-core/rtl/qar_core.v:1019-1154 | the blocks of the edge together give the step function's state |
| Clocked.FetchBlock | qar-core/rtl/qar_core.v:1030-1105 | fetch queue, prefetch slot, ID, EX and cache fill: the last assignment to each register is the one the step function names |
| Clocked.DataBlock | qar-core/rtl/qar_core.v:1107-1121 | data-bus request raised, held and released |
| Core.CsrReadAfterWrite | qar-core/rtl/qar_core.v:1123-1143 | a CSR reads back what was last written to it, the priority register its lowest bit, and no other CSR changes |
| Clocked.CsrBlock | qar-core/rtl/qar_core.v:1123-1153 | CSR writes under trap entry and MRET |
| Clocked.MipBlock | qar-core/rtl/qar_core.v:1023-1028 | interrupt-pending sampling, CSR write and acknowledge (what is sampled: `PendingInterrupts.PendingBits`) |
| Clocked.CounterBlock | qar-core/rtl/qar_core.v:1022 | the free-running counter and its CSR write |
| Clocked.AckBlock | qar-core/rtl/qar_core.v:1133-1140 | the interrupt acknowledge pulses |
| Stream.StreamStep | qar-core/rtl/qar_core.v:1030-1105 | through every cycle every buffered word is the memory word of its PC, and EX, ID, IF, slot and request stay consecutive PCs ending before the fetch address if and only if no cache hit is lost |
| Stream.ConsecutiveStep | qar-core/rtl/qar_core.v:965-972 | the same for cycles without a flush: nothing is lost, duplicated or reordered |
| Stream.CacheStep | qar-core/rtl/qar_core.v:1053-1057 | for any power-of-two cache size, through flushes and traps, each valid line keeps holding the memory word of its tag and index |
| Stream.HitIsGenuine | qar-core/rtl/qar_core.v:199-209 | a hit returns what the bus would have returned |
| Stream.LineDeterminesWord | qar-core/rtl/qar_core.v:228-230 | index and tag together determine the word address |
| Stream.LostHitLeavesGap | qar-core/rtl/qar_core.v:1040-1067 | a lost hit leaves the stream in order but for exactly one missing word, the one behind the instruction that moves to ID |
| Stream.GapStep | qar-core/rtl/qar_core.v:1040-1105 | until a flush or another lost hit the gap stays; when the instruction before it completes, the next one is not its successor but the one after that, and the stream is in order again |
| Stream.TrapPcIsArchPc | qar-core/rtl/qar_core.v:915-941 | the PC an interrupt saves is the next instruction's if and only if the pipeline is not empty behind an outstanding fetch |
| Refinement.InvInit | qar-core/rtl/qar_core.v:975-1018 | the pipeline invariant holds after reset |
| Refinement.InvStep | qar-core/rtl/qar_core.v:974-1155 | stream, cache, forwarded operands and pending request stay right through every cycle that loses no cache hit and takes an interrupt, if any, at an interruptible point (a smooth cycle) |
| Refinement.OperandsStep | qar-core/rtl/qar_core.v:562-570 | forwarding and the load-use interlock always give EX the current register values |
| Refinement.RequestStep | qar-core/rtl/qar_core.v:1107-1121 | through smooth cycles a pending data request is the one the instruction in EX asks for |
| Refinement.RetireCycle | qar-core/rtl/qar_core.v:592-913 | a cycle that retires an instruction, takes no interrupt and loses no hit changes PC, registers, architectural CSRs and memory exactly as that instruction does (writes to `mip`, `mtime` and the acknowledge register are events, see `Runs.AccessesOfCompletion`) |
| Refinement.QuietCycle | qar-core/rtl/qar_core.v:965-1121 | a cycle that retires nothing, takes no interrupt and loses no hit changes no architectural state |
| Refinement.EffectIsSequential | qar-core/rtl/qar_core.v:563-570 | what EX computes from its latched operands is what the sequential machine computes from its registers |
| Refinement.CycleRefines | qar-core/rtl/qar_core.v:974-1155 | one smooth clock cycle performs exactly the sequential step its label names, and keeps the invariant |
| Refinement.InterruptAtBoundary | qar-core/rtl/qar_core.v:1145-1149 | at an interruptible point the cycle is exactly the architectural interrupt |
| Runs.RunRefines | qar-core/rtl/qar_core.v:974-1155 | any run of smooth cycles, any wait states: architectural state equals the sequential machine's after the named steps, and completed handshakes, peripheral strobes and writes to `mip`, `mtime` and the acknowledge register are its accesses and events, once each, in program order |
| Runs.AccessesOfCompletion | qar-core/rtl/qar_core.v:649-657 | in every cycle from a pipeline state in order, also one that takes an interrupt anywhere or loses a hit: the accesses and CSR events are those of the instruction completing in it, and none if none does |
| Runs.AccessesOfCycle | qar-core/rtl/qar_core.v:649-657 | a smooth cycle shows exactly the accesses and CSR events of the sequential step it performs |
| Runs.CsrEventsHappen | qar-core/rtl/qar_core.v:1020-1028 | in every cycle `mtime` and `mip` take the value of their event, or else count on and sample the lines, and the acknowledge pins pulse exactly with the bits of theirs |
| Runs.WordsStayGenuine | qar-core/rtl/qar_core.v:1030-1105 | over every run, smooth or not, every valid cache line and every buffered word is what the instruction memory holds |
| Runs.RequestHeld | qar-core/rtl/qar_core.v:1107-1121 | a raised request keeps address, direction and data until memory answers, through flushes and interrupts |
| Runs.PlainRunIsSmooth | qar-core/rtl/qar_core.v:944-960 | without a cache a program that never enables interrupts never meets the two departures |
| Runs.PipelineRefinesSequential | qar-core/rtl/qar_core.v:974-1155 | from reset, default configuration, programs that never enable interrupts: the pipeline is the sequential machine |
| Runs.QuietProgramRefines | qar-core/rtl/qar_core.v:1129 | the same for every program with no instruction that accesses `mie` |
| Progress.ProgressStep | qar-core/rtl/qar_core.v:965-972 | without interrupts and lost hits, a cycle that retires nothing either waits for a memory or strictly lowers the distance to the next retirement |
| Progress.Throughput | qar-core/rtl/qar_core.v:1040-1121 | in a smooth run without interrupts, if no wait lasts more than k cycles, an instruction retires at least every 6(k + 1) cycles |
| Progress.AnsweringIsPrompt | qar-core/rtl/qar_core.v:965-972 | if neither memory is silent for more than k cycles in a row, no wait lasts more than k cycles |
| Interrupts.PreciseIffNotFetching | qar-core/rtl/qar_core.v:915-941 | with EX empty: the interrupt is architecturally exact if and only if the oldest instruction is not still on the instruction bus |
| Interrupts.InterruptRepeatsInstruction | qar-core/rtl/qar_core.v:916-921 | with an instruction other than MRET completing in EX: all its effects, accesses and CSR events happen and its own PC is saved |
| Interrupts.InterruptOrphansRequest | qar-core/rtl/qar_core.v:1031-1038 | with EX waiting on the data bus or raising its request in that cycle: the architectural state is the interrupt's, the instruction is discarded, its request is not |
| Interrupts.OrphanStrikes | qar-core/rtl/qar_core.v:1115-1117 | when memory answers a request whose instruction is gone, its load still writes the register, over whatever EX writes, its store the memory word, and a bus instruction in EX completes without its own request being made |
| Interrupts.InterruptedMret | qar-core/rtl/qar_core.v:1145-1153 | an interrupt that meets MRET in EX is exact: trap entry wins and MRET runs later |
| Interrupts.InterruptExactIff | qar-core/rtl/qar_core.v:915-941 | for every pipeline state in order (satisfying the invariant) that takes an interrupt: the cycle is architecturally exact, moves `mip`, `mtime` and the acknowledge pins as without an instruction, and leaves the pipeline in order if and only if EX is empty and the oldest instruction not still being fetched, or EX completes an MRET or an instruction that writes nothing new to any of these |
| Interrupts.AsideUnmovedIff | qar-core/rtl/qar_core.v:1020-1028 | exactly which CSR writes leave `mip`, `mtime` and the acknowledge pins as a cycle without an instruction does |
| Interrupts.CompletionUnmovedIff | qar-core/rtl/qar_core.v:1123-1149 | exactly which effects leave registers, memory and, after trap entry, the architectural CSRs as they were |
| Interrupts.InterruptUnseenIff | qar-core/rtl/qar_core.v:915-941 | and shows no memory or peripheral access and no write to `mip`, `mtime` or the acknowledge register if and only if, besides, the completing instruction has none |
| Interrupts.HandlerResumes | qar-core/rtl/qar_core.v:874-877 | a handler ending in MRET resumes at the interrupted instruction with interrupts enabled as before |
| PendingInterrupts.PendingBits | qar-core/rtl/qar_core.v:947-948 | without a write to `mip`, its bit 7 after any cycle is set if and only if `mtime >= mtimecmp` before it or the timer line is up, bit 11 if and only if an external line is up and no acknowledge is written, and no other bit changes |
| PendingInterrupts.TakenIff | qar-core/rtl/qar_core.v:949-957 | an interrupt is taken if and only if the executing instruction raises no trap, MIE is set, and the timer's or the external one is both enabled and pending |
| PendingInterrupts.CauseIsSaved | qar-core/rtl/qar_core.v:959-960 | which cause is saved when one or both are due, under either priority; control goes to `mtvec` with MIE cleared |
| PendingInterrupts.TimerRises | qar-core/rtl/qar_core.v:1022-1027 | over any run without timer line and without writes to `mip`, `mtime` and `mtimecmp`, bit 7 is set after exactly the cycles that found the counter at or past the comparator, until the counter wraps |
| SkippedInstruction.HitLostAfterReset | qar-core/rtl/qar_core.v:1040-1067 | a concrete run from reset, with four cache lines, in which the word of address 4 is lost |
| SkippedInstruction.LoopSkips | qar-core/rtl/qar_core.v:1040-1067 | its registers then differ from every state the sequential machine can reach on the same program |
| RepeatedInstruction.CountedTwice | qar-core/rtl/qar_core.v:916-921 | a concrete run from reset, through an interrupt and MRET, in which one increment is performed twice |
| Isa.EncodedMeans | devkit/cli/qarsim.go:335-447 | every instruction the encoders accept does, when the core executes its word, what the instruction means |
| Isa.ArithMeans | qar-core/rtl/qar_core.v:669-693 | the seven register operations of the assembler select the ALU operation of their name (what each does: `Arithmetic`) |
| Isa.ImmediateI | devkit/cli/qarsim.go:570-576 | the core's I-immediate recovers the signed immediate the encoder packed |
| Isa.ImmediateS | devkit/cli/qarsim.go:578-588 | the same for S |
| Isa.ImmediateB | devkit/cli/qarsim.go:590-605 | the same for B |
| Isa.ImmediateJ | devkit/cli/qarsim.go:552-559 | the same for J |
| Isa.ImmediateU | devkit/cli/qarsim.go:489-494 | the same for U |
| Isa.FieldsR | devkit/cli/qarsim.go:485-486 | registers, funct3, funct7 and opcode are recovered from R words |
| Isa.FieldsI | devkit/cli/qarsim.go:574-575 | fields recovered from I words |
| Isa.FieldsS | devkit/cli/qarsim.go:582-587 | fields recovered from S words |
| Isa.FieldsB | devkit/cli/qarsim.go:597-604 | fields recovered from B words |
| Isa.CsrMeans | devkit/cli/qarsim.go:562-568 | CSR number, registers and operation are recovered from SYSTEM words and have their meaning |
| Isa.SampleLoop | program.hex:4-8 | loads and additions of the repository's sample program have the words of its assembled image |
| Isa.SampleJumps | program.hex:7-16 | and so have its branches and jumps |
| Decoding.DecodeEncode | devkit/cli/qarsim.go:335-447 | decoding an encoded instruction gives it back |
| Decoding.EncodeDecode | devkit/cli/qarsim.go:335-447 | encoding a decoded word gives it back |
| Decoding.EncodingIsInjective | devkit/cli/qarsim.go:449-605 | distinct instructions get distinct words |
| Decoding.CoreMeansIsa | qar-core/rtl/qar_core.v:659-899 | on every word that decodes, the core is the instruction-set machine |
| Decoding.IllegalWritesIff | qar-core/rtl/qar_core.v:669-693 | an illegal word writes a register while trapping if and only if it is an OP word |
| Decoding.IllegalIff | qar-core/rtl/qar_core.v:895-913 | the core raises an illegal-instruction trap on a word if and only if it is neither in the instruction set nor silently accepted |
| Assembler.AddLabels | devkit/cli/qarsim.go:301-318 | a line's labels are recorded at the next instruction's address; fails exactly on an empty or repeated one |
| Assembler.ParseLines | devkit/cli/qarsim.go:280-333 | succeeds exactly when no label is empty or repeated; every instruction is placed and the table holds exactly the defined labels |
| Assembler.Build | devkit/cli/qarsim.go:213-254 | succeeds exactly when the program fits and every instruction encodes, and then yields each word at its place with NOPs behind |
| SourceMachine.NumberMeans | devkit/cli/qarsim.go:745-757 | exactly the numbers from -2^31 to 3 * 2^31 - 1 are taken, modulo 2^32 |
| SourceMachine.HiMeans | devkit/cli/qarsim.go:787-794 | `%hi` of a label is its address in pages of 4 KiB, to the nearest |
| SourceMachine.LoMeans | devkit/cli/qarsim.go:796-806 | `%lo` is the rest, between -0x800 and 0x7ff |
| SourceMachine.ImmediateMeans | devkit/cli/qarsim.go:734-758 | an immediate operand is read if and only if it has a value, and as that value |
| SourceMachine.CsrOperandMeans | devkit/cli/qarsim.go:760-780 | a CSR operand is read if and only if it names or numbers one, as the control register it stands for |
| SourceMachine.OffsetMeans | devkit/cli/qarsim.go:686-696 | a jump operand is read if and only if it has a value or is a label, as the offset that leads to the label or by the number |
| SourceMachine.LowersIff | devkit/cli/qarsim.go:335-447 | an instruction is taken if and only if its operands make sense |
| SourceMachine.LowerMeans | devkit/cli/qarsim.go:335-447 | the instruction made of it does what was written and shows the accesses that was written, for every source instruction; the meaning of what was written does not go through the assembler |
| SourceMachine.EncodesIff | devkit/cli/qarsim.go:489-605 | an instruction encodes if and only if its immediate, as a signed number, fits its format |
| SourceMachine.AssemblesIff | devkit/cli/qarsim.go:335-447 | so a written instruction assembles if and only if its operands make sense and their values, signed, or the distance to its label fit |
| SourceMachine.UpperLetters | devkit/cli/qarsim.go:811-817 | macro and CSR names are compared letter by letter in upper case |
| Compiler.StepCompiled | devkit/cli/qarsim.go:241-251 | one step on the image is one step of the source program |
| Compiler.EncodedShows | devkit/cli/qarsim.go:335-447 | every word the encoders accept makes exactly the accesses and CSR events of its instruction |
| Compiler.RunCompiled | devkit/cli/qarsim.go:241-251 | any run on the image that stays at aligned addresses inside the program memory is the run of the source program, in state and in accesses |
| Compiler.SourceWithoutMie | devkit/cli/qarsim.go:419-433 | the image of a source that never names `mie` in a CSR instruction holds no word that accesses it |
| Compiler.ImageIsUnique | devkit/cli/qarsim.go:241-251 | a program that assembles has exactly one image |
| Compiler.ProgramRunsAsWritten | devkit/cli/qarsim.go:213-254 | for a source that assembles, never names `mie` and, run by itself, stays inside its memory: whatever the wait states, the core takes no interrupt, its architectural state is that of the source-level interpreter, and its accesses and CSR events are exactly that interpreter's, in order |
| Compiler.ProgramGetsOn | devkit/cli/qarsim.go:213-254 | and if neither memory is silent for more than k cycles in a row, n cycles complete at least n / (6(k + 1)) of its instructions |
| Compiler.NamedCsrExistsIff | devkit/cli/qarsim.go:864-881 | every CSR name of the assembler but MSCRATCH is a CSR of the core |
| Compiler.HiLoLoadsAddress | devkit/cli/qarsim.go:782-809 | `%hi` and `%lo` of any 32-bit address pass the range checks and load exactly that address, including the wrap near 2^32 |
| Rings.PushAppends | qar-core/rtl/can.v:84-89 | a push into a ring with room appends to its contents |
| Rings.PopRemoves | qar-core/rtl/can.v:106-107 | the front is the oldest entry, and a pop removes just that |
| Uart.StepSized | qar-core/rtl/uart.v:222-536 | pointers stay within twice the depth |
| UartClocked.UartUnit.constructor | qar-core/rtl/uart.v:169-221 | a new UART is in the reset state |
| UartClocked.UartUnit.Tick | qar-core/rtl/uart.v:222-536 | one clock edge, stage after stage with later assignments winning, is the step function |
| UartClocked.UartUnit.CommandBlock | qar-core/rtl/uart.v:255-293 | the bits of a LIN command in order |
| UartClocked.UartUnit.GateCommandBlock | qar-core/rtl/uart.v:278-292 | arming and cancelling the slave gate |
| UartClocked.UartUnit.TxBlock | qar-core/rtl/uart.v:329-399 | transmitter state machine |
| UartClocked.UartUnit.FinishBlock | qar-core/rtl/uart.v:464-498 | delivering a finished frame |
| UartClocked.UartUnit.DetectBlock | qar-core/rtl/uart.v:504-535 | break detection |
| WireTiming.PlainStep | qar-core/rtl/uart.v:222-536 | with LIN off, transmitter and receiver move independently and LIN stays off |
| Uart.FrameParity | qar-core/rtl/uart.v:48-54 | for every byte the number of ones among its eight data bits and the parity bit is even, or odd if so configured |
| Uart.ParityAcceptsIff | qar-core/rtl/uart.v:77-93 | a sampled parity bit is accepted if and only if that number has the configured parity |
| WireTiming.FrameShape | qar-core/rtl/uart.v:35-75 | start bit, data, parity and stop bits sit where the receiver looks for them, for every parity and stop setting (which parity: `Uart.FrameParity`) |
| WireTiming.WaveAt | qar-core/rtl/uart.v:389-398 | i + 1 bit periods after loading, and for a whole bit period, the line shows bit i |
| WireTiming.SampleIsBit | qar-core/rtl/uart.v:439-462 | with a divider of at least 2, when the receiver samples bit i the twice-delayed line shows bit i of the oldest frame in flight, also when the next frame follows at once |
| SerialLink.SamplingPoint | qar-core/rtl/uart.v:412-414 | the level at the sampling instant is bit i when the divider is at least 2 and bit i + 1 otherwise |
| WireTiming.StartSeen | qar-core/rtl/uart.v:223-224 | the receiver sees the start bit exactly divider + 3 cycles after the frame was loaded |
| WireTiming.LevelShifts | qar-core/rtl/uart.v:223-224 | the two synchronizer flops show the line of one and two edges before, also as frames begin and end |
| WireTiming.NoThird | qar-core/rtl/uart.v:354-381 | a frame is received before a third can be loaded: at most two are ever in flight |
| WireTiming.TxStep | qar-core/rtl/uart.v:354-399 | for every divider the transmitter stays where the age of its frame says, with at most two frames in flight |
| WireTiming.RxStep | qar-core/rtl/uart.v:401-502 | for every divider the receiver stays in step with the oldest frame in flight |
| WireTiming.TimingStep | qar-core/rtl/uart.v:222-502 | the whole timing invariant, for every divider and any traffic |
| WireTiming.SampledNext | qar-core/rtl/uart.v:441-462 | a sample of bit i adds bit i of the byte, its parity or a stop bit to what has been recorded, and notes no error |
| WireTiming.WireStep | qar-core/rtl/uart.v:439-463 | with a divider of at least 2 what has been sampled of a frame is what was sent |
| WireTiming.AcceptedIff | qar-core/rtl/uart.v:439-471 | whatever the levels sampled: a frame is accepted if and only if its start bit was low, data and parity hold the configured parity, and every stop bit but the last was high; its byte is the eight levels behind the start bit |
| SerialLink.FrameIsByte | qar-core/rtl/uart.v:464-493 | a finished frame is accepted and is the byte that was sent |
| SerialLink.TxFlows | qar-core/rtl/uart.v:226-232 | a bus write appends its byte to the transmit FIFO, and the transmitter takes the oldest, also both at once |
| SerialLink.RxFlows | qar-core/rtl/uart.v:306-312 | a bus read takes the oldest received byte, and a finished frame appends its own, also both at once |
| SerialLink.FullFlagExact | qar-core/rtl/uart.v:124-126 | the full flag is right if and only if the ring is not full across the pointer wrap |
| SerialLink.WrappedFullLoses | qar-core/rtl/uart.v:228-231 | a write in that case overwrites the oldest byte |
| SerialLink.LinkStep | qar-core/rtl/uart.v:222-502 | each edge keeps the timing invariant, and bytes only move along: read + held after = held before + queued |
| SerialLink.LinkRun | qar-core/rtl/uart.v:222-502 | the same over any run and any interleaving of bus traffic |
| SerialLink.ReceivedIsPrefixOfSent | qar-core/rtl/uart.v:222-502 | with RX wired to TX and room in the FIFOs the bytes received are a prefix of the bytes queued, and all of them once both machines rest |
| SerialLink.RunDrains | qar-core/rtl/uart.v:354-399 | without writes both machines come to rest, for every divider, within the backlog counted in clock edges |
| SerialLink.DeliveredInTime | qar-core/rtl/uart.v:222-502 | without further writes and with room to receive, everything held has arrived, in order, after (bits + 2)(divider + 1) cycles for each byte |
| LinkOverrun.AbsentRun | qar-core/rtl/uart.v:222-502 | a byte that no register of the link holds and that is not written again is never received |
| LinkOverrun.AcceptedByteNeverReceived | qar-core/rtl/uart.v:124-126 | a run from reset fills the transmit FIFO across the wrap; one more write, and an accepted byte is never received in any continuation that does not write it again |
| LinkLimits.StartIsReached | qar-core/rtl/uart.v:226-235 | writing control and divider after reset leads to the state the losing runs start from |
| LinkLimits.SmallDividerLosesByte | qar-core/rtl/uart.v:412-445 | with a divider of 0 or 1, for every parity and stop setting, the byte 0xFF is sent and lost: a concrete run |
| LinkLimits.LosslessIff | qar-core/rtl/uart.v:401-502 | for every parity and stop setting, over all ordinary traffic with room in the FIFOs: everything queued is received once both machines rest, if and only if the divider is at least 2 |
| LinSlave.GateOkAtReset | qar-core/rtl/uart.v:169-221 | the gate is in order after reset |
| LinSlave.GateStep | qar-core/rtl/uart.v:278-301 | armed and responding never hold together, and while armed no byte leaves the FIFO, in every cycle and under every bus write |
| LinSlave.HeaderStartsResponse | qar-core/rtl/uart.v:482-488 | a matching header starts a response of the configured length |
| LinSlave.ResponseStep | qar-core/rtl/uart.v:367-386 | one cycle of a response: a byte leaves and one less is owed, or the FIFO is dry and the underflow flag is set, or nothing changes |
| LinSlave.ResponseCount | qar-core/rtl/uart.v:354-387 | from a running response: sent and owed add up, and when it ends all owed bytes have left, or fewer, and the underflow flag is set if and only if fewer |
| LinSlave.HeaderIsAnswered | qar-core/rtl/uart.v:482-488 | from the cycle in which a matching header completes: none leaves in that cycle, and when the response ends exactly the configured number has left, or fewer and the underflow flag is set |
| LinSlave.AnswerEnds | qar-core/rtl/uart.v:354-399 | with no break due and the settings left alone, a response lasts at most the cycles of its remaining bytes and of the frame being sent |
| LinSlave.HeaderIsAnsweredInTime | qar-core/rtl/uart.v:354-399 | so from a matching header the response is over within (bits + 1)(divider + 1) cycles for each configured byte, after what is left of a frame being sent |
| LinHeader.HearStep | qar-core/rtl/uart.v:401-535 | with LIN on and no access but data writes, a cycle moves receiver and header recognition by themselves, whatever the transmitter does, and a completed break empties the receive FIFO |
| LinHeader.BreakOnPin | qar-core/rtl/uart.v:504-531 | from a resting line held low: the header state stays 0 until exactly 2 + breakLength * (divider + 1) cycles have passed and then is 1, the receiver waiting for the line to rise, the receive FIFO empty |
| LinHeader.HeaderOnPinArrives | qar-core/rtl/uart.v:401-535 | break, delimiter, any sync byte, any gap and an identifier on the pin of an armed slave: with the edge that samples the last bit the header arrives if and only if the identifier is the slave's |
| LinHeader.HeaderOnPinIsAnswered | qar-core/rtl/uart.v:354-535 | and when the response to it ends, exactly the configured number of bytes has left, or fewer and the underflow flag is set |
| LinSetup.SlaveIsReached | qar-core/rtl/uart.v:226-304 | the register writes of a driver lead from reset to a slave with any settings, armed if and only if it is enabled and has a response to give, and ready to hear a header |
| LinSetup.ArmedIff | qar-core/rtl/uart.v:278-301 | in every cycle: armed afterwards if and only if no header arrived, nothing cancelled or disabled the slave, and it was armed before or is armed with a response to give |
| LinSetup.OnlyItsIdentifierIsAnswered | qar-core/rtl/uart.v:466-489 | a response begins only with the last bit of an error-free frame, second byte of a header, that carries the identifier an armed, enabled slave waits for |
| LinSetup.ArmingEmpties | qar-core/rtl/uart.v:266-273 | the command to wait for a header empties the receive FIFO, whatever the state, unless a byte may arrive in the same cycle |
| LinSetup.OtherCommands | qar-core/rtl/uart.v:248-273 | acknowledging the underflow clears it and nothing else; the command to wait for a header makes a resting receiver wait and changes nothing else |
| LinSetup.DisabledRests | qar-core/rtl/uart.v:329-405 | a disabled UART holds its line high, sends and receives nothing |
| LinMaster.BreakStep | qar-core/rtl/uart.v:332-353 | one cycle of a break: line low, any frame abandoned, counters on; in the last the break ends and the line goes high |
| LinMaster.BreakLasts | qar-core/rtl/uart.v:335-353 | whatever the bus and the receive pin do, a break that starts with its tick counter at zero ends after exactly (length + 1)(divider + 1) cycles, the line low after each but the last |
| LinMaster.BreakMeetsHeaderIff | qar-core/rtl/uart.v:322-366 | a break starts over a frame loaded in the same cycle if and only if an automatic header byte is due |
| LinSetup.BreakIsStarted | qar-core/rtl/uart.v:257-277 | a resting master told to send a break, or a whole header, starts the break two cycles later |
| LinSetup.HeaderFollowsBreak | qar-core/rtl/uart.v:337-347 | the cycle that ends the break of a whole header makes the sync byte due |
| LinSetup.HeaderIsLoaded | qar-core/rtl/uart.v:354-366 | and with the transmitter free the frame of the alternating byte, then that of the identifier is loaded |
| LinSetup.FrameLength | qar-core/rtl/uart.v:63-75 | a frame is a start bit, eight data bits, a parity bit if there is one, and one or two stop bits |
| Can.RingRefinesQueue | qar-core/rtl/can.v:79-115 | every command moves the ring as a queue of at most four frames; the entry count is the 3-bit pointer difference and at most 4 |
| Can.MailboxIsOldest | qar-core/rtl/can.v:139-142 | the mailbox registers show the oldest pending frame |
| Can.FramesLeaveInOrder | qar-core/rtl/can.v:79-115 | over all command sequences frames leave in acceptance order, and accepted = popped + flushed + pending |
| Can.DropsExactlyWhenFull | qar-core/rtl/can.v:84-96 | a frame is dropped if and only if it is offered while four are pending, and each drop sets overflow and counts one error |
| Can.MatchesIff | qar-core/rtl/can.v:83 | the acceptance filter passes an identifier if and only if it agrees with the filter's in every bit the mask selects |
| Can.SendAppendsIff | qar-core/rtl/can.v:79-101 | a sent frame is appended to the pending ones if and only if the controller is enabled, looped back and not quiet, fewer than four are pending, and the filter passes it or is bypassed; otherwise nothing changes in them |
| Can.FlagsLatch | qar-core/rtl/can.v:66-115 | every interrupt and overflow flag is set by its event and otherwise changes only by its own acknowledge or clear; the error counter counts drops, modulo 2^32 |
| Can.Configured | qar-core/rtl/can.v:61-78 | every setting is reached from reset by its writes, with no other effect |
| Can.ReadyMeansPending | qar-core/rtl/can.v:66-72 | STATUS bit 0 implies a pending frame, after every command |
| Can.ReadyIsNotEmptyIff | qar-core/rtl/can.v:66-72 | STATUS bit 0 goes on meaning "not empty" if and only if no acknowledge clears it over pending frames |
| Can.ReadyOverRuns | qar-core/rtl/can.v:60-118 | over whole runs: bit 0 implies a pending frame, and as long as bit 0 is never acknowledged it is exactly "not empty" |
| Can.CanUnit.constructor | qar-core/rtl/can.v:44-58 | a new controller is in the reset state |
| Can.CanUnit.Tick | qar-core/rtl/can.v:60-118 | one clock edge, in place on the slot array, is the step function |
| Can.CanUnit.Transmit | qar-core/rtl/can.v:79-101 | the send command through loopback, quiet mode and acceptance filter |
| Can.CanUnit.Drain | qar-core/rtl/can.v:102-115 | the pop, flush and clear command |
| Can.CanUnit.ReadMailbox | qar-core/rtl/can.v:139-142 | reading shows the oldest pending frame and changes nothing |
| Gpio.FlipsExactlyAfterStreak | qar-core/rtl/gpio.v:116-123 | the filter holds its level as long as no disagreement has lasted longer than the threshold, and the cycle that makes one last threshold + 1 cycles flips it |
| Gpio.CountIsDisagreement | qar-core/rtl/gpio.v:116-123 | the count stays within the threshold and is exactly the number of cycles, up to now, for which the raw level has disagreed with the filtered one |
| Gpio.GlitchesAreBlocked | qar-core/rtl/gpio.v:116-123 | a flip needs threshold + 1 consecutive cycles at the new level |
| Gpio.SteadyLevelPasses | qar-core/rtl/gpio.v:116-123 | threshold + 1 steady cycles always bring the filter to that level |
| Gpio.PinFollowsFilter | qar-core/rtl/gpio.v:108-125 | over any run a debounced input pin is its filter run on its raw levels, whatever the bus and other pins do |
| Gpio.CounterWithinThreshold | qar-core/rtl/gpio.v:118-123 | the 16-bit counter never overflows |
| Gpio.EdgeIsLatched | qar-core/rtl/gpio.v:69-74 | a selected edge sets its status bit even against a clear in the same cycle, and otherwise only a clear changes the bit |
| Gpio.NoEdgeIsLost | qar-core/rtl/gpio.v:126-127 | after any run a status bit is set if and only if some selected edge has not been followed by a later clear |
| Gpio.WindowIsProgrammed | qar-core/rtl/gpio.v:68 | the window is the programmed number of cycles, 0 counting as 1: a pin steadily at a new level shows it if and only if more cycles than that have passed |
| Gpio.OutputDrives | qar-core/rtl/gpio.v:39-52 | an output pin carries what was last written, set or cleared, pins 0 and 1 the PWM channel selected for them, and is watched by no edge detector |
| Gpio.RawPinPasses | qar-core/rtl/gpio.v:112-114 | an input without debouncing shows its level one cycle later |
| Gpio.Configured | qar-core/rtl/gpio.v:92-107 | every configuration is reached by its register writes, from every state |
| Gpio.GpioUnit.constructor | qar-core/rtl/gpio.v:77-90 | a new block is in the reset state, for any width |
| Gpio.GpioUnit.Tick | qar-core/rtl/gpio.v:91-128 | one clock edge, in place on the filter arrays, is the step function |
| Gpio.GpioUnit.FilterPins | qar-core/rtl/gpio.v:108-125 | the loop moves every pin's filter once and no other |
| Timer.CompareSchedule | qar-core/rtl/timer.v:145-154 | after an auto-reloading match at counter c with period P, the n-th tick matches if and only if n is a multiple of P and no multiple kP up to n has brought c + kP to 0 modulo 2^32 |
| Timer.BeatIsMultiple | qar-core/rtl/timer.v:147-148 | the schedule's beats are the positive multiples of the period |
| Timer.StoppedStays | qar-core/rtl/timer.v:145 | once the compare value is zero the sequence has stopped for good |
| Timer.MatchIsLatched | qar-core/rtl/timer.v:145-153 | a match bit is set by a match, even against a clear in the same cycle, and otherwise only a clear changes it |
| Timer.OneShotHolds | qar-core/rtl/timer.v:145-154 | over any run: a compare without auto-reload, or with period 0, keeps its value and matches on exactly the ticks that find the counter there, unless it is 0 |
| Timer.StoppedHolds | qar-core/rtl/timer.v:179-185 | a stopped timer counts nothing and matches nothing; a PWM output is high if and only if its period and duty are not 0 |
| Timer.CaptureTakesCounter | qar-core/rtl/timer.v:117-127 | a trigger captures the counter as it was before the tick |
| Timer.CaptureIsLatched | qar-core/rtl/timer.v:117-127 | each capture sets its flag, which stays until cleared |
| Timer.PwmDuty | qar-core/rtl/timer.v:156-175 | at any starting phase, any window of `period` ticks drives the output high on exactly min(duty, period) of them and returns to the phase |
| Timer.PwmPeriodRestarts | qar-core/rtl/timer.v:107-115 | writing a period restarts that channel's count, unless a tick counts in the same cycle, and leaves the other channel alone |
| Timer.TickSchedule | qar-core/rtl/timer.v:133-136 | cycles and ticks convert exactly: a tick every prescale + 1 cycles |
| Timer.ExpiresOnTick | qar-core/rtl/timer.v:138-143 | a loaded, running watchdog expires on exactly the tick that counts its load down |
| Timer.WatchdogExpiry | qar-core/rtl/timer.v:96-106 | after the enabling write, expiry comes on exactly the L-th tick, after (L - 1)(P + 1) and by L(P + 1) cycles |
| Timer.KickTakesEffectIff | qar-core/rtl/timer.v:102-105 | after a kick the counter holds the load if and only if no tick of a running watchdog fell in the same cycle, or counting down gave the load |
| Timer.LoadRestarts | qar-core/rtl/timer.v:89-95 | loading a running watchdog restarts it, unless a tick counts in the same cycle; loading a disabled one only sets the load; disabling keeps the count |
| Timer.ExpiryIsLatched | qar-core/rtl/timer.v:89-143 | the expiry bit is set by an expiry, even against a clear in the same cycle, and otherwise changes only by a clear, a kick, an enabling write or a load |
| Timer.IdleWatchdogHolds | qar-core/rtl/timer.v:138-143 | over any run that leaves it alone, a disabled or run-down watchdog never expires |
| Timer.SetupIsReached | qar-core/rtl/timer.v:78-130 | every setting is reached from reset by register writes |
| Timer.TimerUnit.constructor | qar-core/rtl/timer.v:51-75 | a new timer is in the reset state |
| Timer.TimerUnit.Tick | qar-core/rtl/timer.v:76-186 | one clock edge is the step function |
| Timer.TimerUnit.Write | qar-core/rtl/timer.v:78-130 | register writes |
| Timer.TimerUnit.Control | qar-core/rtl/timer.v:96-106 | the watchdog control register |
| Timer.TimerUnit.Count | qar-core/rtl/timer.v:134-175 | the assignments of a tick over the writes of the same edge |
| Timer.TimerUnit.CountCompares | qar-core/rtl/timer.v:145-154 | both compare channels in a tick |

## Left out

- Peripherals behind the core: inside the pipeline model the seven address windows are one device that answers loads with a parameter and sees each access; the blocks' own read multiplexers are not modelled.
- Cache and data memory arrays: the cache is a map from rows to valid lines (a missing row is an invalid one) and data memory a map from word addresses, so in-place update of those arrays is not shown.
- Clocked.QarCore.Tick: keeps the register file contents as a sequence; `RegisterFile.RegFile` shows the array itself.
- UartClocked.UartUnit.Tick: keeps the two FIFO arrays as sequences inside `Rings.Ring`, so their in-place update is not shown.
- UART status and interrupt flags, idle-gap detector, RS-485 direction pins and error reporting: single-branch claims.
- SerialLink.ReceivedIsPrefixOfSent: asks that no byte is written into a transmit FIFO full across the wrap and none is delivered to a full receive FIFO, because the code loses bytes there (`SerialLink.WrappedFullLoses`).
- Fixed widths of the UART's divider and counters: natural numbers here; the hardware's counters restart once they reach the divider and so never wrap.
- Can.CanUnit.Tick: the four transmit mailbox words are written by one command that may change any of them, likewise filter ID and mask; slot contents after reset are arbitrary in the hardware and zero here.
- Write-only CAN bit-timing and all interrupt-enable registers of the peripherals: they gate an output line and nothing else.
- Assembler text handling: comments, field splitting, register names, numerals, macro definitions and `.include`; the model starts from parsed lines, and a jump operand that is a macro name is a number, as in the code.
- Compiler.ProgramRunsAsWritten: asks that the source run stays at aligned addresses inside the program memory whatever the free-running CSRs and peripherals show, and does not cover programs that use interrupts.
- Memory data files, command-line flags, hex output and the C build.
- SPI, I2C and ADC controllers, bus widths other than 32 bits, and asynchronous reset timing.
