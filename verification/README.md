# LS-8 CPU model

A Dafny model of the LS-8 teaching CPU in `ls8/cpu.py`. The machine has 256
memory cells, 8 registers (register 7 is the stack pointer, starting at
`0xF4`), a program counter and a running flag. The model covers:

- the constructor;
- the `ram_read`/`ram_write` primitives and Python's list indexing underneath them;
- the ALU (ADD, SUB, MUL);
- `incrementPC`;
- the nine instruction handlers (LDI, PRN, ADD, MUL, HLT, PUSH, POP, CALL, RET);
- the dispatch table;
- the decoder, which reads an opcode's top two bits from its 8-wide binary rendering;
- one iteration of the run loop (`Cpu.Step`) and a fuel-bounded loop (`Cpu.Run`).

The machine is an immutable datatype (`Cpu.Machine`). Cells and registers are
`seq<int>`, and what PRN prints goes into an output sequence `out`. Every
operation is a pure function that returns either a new machine or a `Fault`.

Modules, leaves first:

- `Results`: `Option` and `Result`, both usable with `:-`.
- `Faults`: the exceptions the program can raise, as values.
- `PyList`: Python list indexing. An index `i` is valid when `-len <= i < len`, and a negative index counts from the end. Any other index is an `IndexError`.
- `Decoder`: `"{0:08b}".format(ir)[0:2]` as Python computes it, and its agreement with the top two bits of a byte.
- `Isa`: the opcode constants, the dispatch table, and the number of operands each handler takes.
- `Alu`: the ALU.
- `Cpu`: the machine state, the primitives, the handlers, `Step` and `Run`.
- `IncrementGuard`: the `incrementPC` guard exactly as written (see Findings).
- `Properties`: what each opcode does in one step, the stack round trips, and how `Run` stops.
- `Scenarios`: whole programs run from a freshly loaded machine.

The model follows `cpu.py` itself, including where it departs from what an
8-bit machine would be expected to do:

- Registers and cells are not reduced to 8 bits. ADD and MUL grow values without bound.
- Memory and register accesses follow Python list indexing. An index of 256 or more (8 or more for registers) is an `IndexError` fault. A negative index down to -256 (-8 for registers) counts from the end; anything lower is an `IndexError`.
- An opcode whose top bits are `11` is not dispatched. The step leaves the machine unchanged. A negative value renders with a minus sign, so it is not dispatched either.
- An opcode whose class is `00`, `01` or `10` but that has no handler raises `KeyError` in the source. Here it is the fault `IllegalOpcode(address, opcode)`.
- PUSH, POP and CALL ignore their parameter. They re-read the register number from `ram[pc + 1]`, as the source does. CALL reads it after it has written the return address, and the model keeps that order.
- The fetch reads `ram[pc + 1]` and `ram[pc + 2]` for every opcode. So a program counter within two bytes of the end of memory faults even on a one-byte instruction.

## Model

| member | source | states |
|---|---|---|
| Cpu.Init | ls8/cpu.py:20-40 | 256 zero cells, 8 registers all zero except the stack pointer `reg[7] == 0xF4`, `pc == 0`, running, nothing printed |
| Cpu.Load | ls8/cpu.py:55-81 | the program occupies cells `0..len-1`, every later cell is 0, and everything else is as the constructor leaves it |
| PyList.Get | ls8/cpu.py:46-47 | a read succeeds exactly when `-len <= i < len`, and returns the element Python addresses (negative indices count from the end) |
| PyList.Set | ls8/cpu.py:49-50 | a write succeeds exactly when the index is valid; the length is kept and only the addressed element changes |
| PyList.GetAfterSet | ls8/cpu.py:46-50 | reading back an index just written yields the written value |
| PyList.SetOwnValue | ls8/cpu.py:46-50 | writing an element back with its own value leaves the list unchanged |
| Cpu.RamRead | ls8/cpu.py:46-47 | `ram_read` fails with `IndexError(Ram, address)` exactly for addresses outside `-256..255`, and otherwise returns the addressed cell |
| Cpu.RamWrite | ls8/cpu.py:49-50 | `ram_write` changes only the addressed cell and nothing else in the machine; it fails exactly for out-of-range addresses |
| Cpu.RegRead | ls8/cpu.py:141 | register reads fail with `IndexError(Registers, i)` exactly outside `-8..7` |
| Cpu.RegWrite | ls8/cpu.py:137 | a register write changes only that register and nothing else in the machine |
| Cpu.WithSp | ls8/cpu.py:158 | setting the stack pointer changes register 7 only |
| Alu.Compute | ls8/cpu.py:94-106 | the destination register receives `reg[a] op reg[b]` and every other register keeps its value; a bad register index is reported, the first operand's first |
| Alu.Apply | ls8/cpu.py:97-102 | ADD and SUB on two values undo each other, and MUL is repeated addition of the first value (negated for a negative multiplier) |
| Alu.SumIsProduct | ls8/cpu.py:101-102 | adding `x` to itself `n` times gives `x * n` |
| Alu.SubUndoesAdd | ls8/cpu.py:97-100 | SUB on the same two distinct registers undoes ADD |
| Cpu.IncrementPC | ls8/cpu.py:130-134 | the corrected guard: only widths 1, 2 and 3 move the program counter; any other width is refused |
| IncrementGuard.GuardAsWritten | ls8/cpu.py:131 | the condition `i >= 1 & i <= 3`, as Python parses it, holds exactly for `i >= 0` |
| IncrementGuard.IncrementPCAsWritten | ls8/cpu.py:130-134 | the guard as Python parses it accepts exactly the non-negative widths |
| IncrementGuard.GuardAsWrittenAdmitsZeroAndFour | ls8/cpu.py:131 | widths 0 and 4 pass the guard as written, while the corrected guard refuses them |
| IncrementGuard.GuardsAgreeOnInstructionWidths | ls8/cpu.py:130-134 | for widths 1 to 3, the only widths the handlers use, the two guards behave the same |
| Cpu.Ldi | ls8/cpu.py:136-138 | register `a` becomes `b`, the other registers, memory, flag and output are unchanged, and `pc` advances by 3; fails exactly for a bad register index |
| Cpu.Prn | ls8/cpu.py:140-142 | the register's value is appended to the output, and `pc` advances by 2; nothing else changes |
| Cpu.Arith | ls8/cpu.py:144-150 | ADD/MUL update only the destination register through the ALU and advance `pc` by 3; they fail exactly for a bad register index, reporting `a` before `b` |
| Cpu.Hlt | ls8/cpu.py:152-154 | the running flag is cleared and `pc` advances by 1; registers, memory and output unchanged |
| Cpu.Push | ls8/cpu.py:156-170 | the stack pointer drops by one, the new top cell receives the named register (read after the decrement), no other cell changes, and `pc` advances by 2; succeeds exactly when `pc + 1`, the register number and the new stack address are in range, and otherwise reports the first of them that is not |
| Cpu.Pop | ls8/cpu.py:172-184 | memory is unchanged; the named register receives the top cell, then the stack pointer (re-read) rises by one; `pc` advances by 2; succeeds exactly when `pc + 1`, the stack address and the register number are in range, and otherwise reports the first of them that is not |
| Cpu.Call | ls8/cpu.py:186-194 | `pc + 2` is pushed, only that cell changes, and `pc` becomes the named register's value, with no increment on top; succeeds exactly when the new stack address, `pc + 1` and the register number read after the push are in range, and otherwise reports the first of them that is not |
| Cpu.Ret | ls8/cpu.py:196-202 | `pc` becomes the top cell and the stack pointer rises by one; nothing else changes |
| Cpu.Execute | ls8/cpu.py:27-36 | every handler keeps the machine's shape, and only PRN touches the output, by appending one value |
| Cpu.Step | ls8/cpu.py:206-222 | one loop iteration keeps 256 cells and 8 registers and appends at most one output value; a program counter within two bytes of the end of memory faults |
| Cpu.Run | ls8/cpu.py:204-222 | a run keeps the shape, only extends the output (by at most one value per unit of fuel), and does nothing to a halted machine |
| Decoder.Format08b | ls8/cpu.py:213 | the rendering is at least 8 characters wide and starts with a sign exactly for negative values |
| Decoder.ArityOfTopBits | ls8/cpu.py:5-13 | the reference decoder: top bits 0, 1, 2 name 0, 1, 2 operands, and 3 names none |
| Decoder.PaddedPrefix | ls8/cpu.py:213 | zero-padding a `k`-bit number's binary digits to `k` places puts its top two bits first |
| Decoder.OperandClass | ls8/cpu.py:213-222 | for every byte, the string-prefix decoder agrees with the reference decoder on the top two bits (`ir / 64`); a negative value names no class; a value of 256 or more names two operands or none |
| Decoder.PrefixOfByte | ls8/cpu.py:213-222 | for a byte, the first two characters of its 8-wide rendering name the class of its top two bits |
| Decoder.PrefixOfWide | ls8/cpu.py:213 | a value of 256 or more is rendered without padding, starting with `1` |
| Decoder.BinOfLarge | ls8/cpu.py:213 | a number of at least `2^k` has more than `k` binary digits |
| Decoder.BinLeadsWithOne | ls8/cpu.py:213 | the binary digits of a positive number start with `1` |
| Isa.BranchTableIsOpcodes | ls8/cpu.py:27-36 | the dispatch table `Isa.BranchTable` holds exactly the nine opcodes, each mapped to its own handler: it is the inverse of `Isa.Opcode` |
| Isa.DecodeMatchesHandler | ls8/cpu.py:5-13 | every opcode is a byte whose top two bits give exactly its handler's number of operands |
| Isa.NoOpcodeInTopQuarter | ls8/cpu.py:5-13 | no table opcode has the top bits `11` |
| Properties.StepRunsHandler | ls8/cpu.py:206-222 | fetching a table opcode runs exactly its handler on the two following bytes |
| Properties.StepIllegalOpcode | ls8/cpu.py:215-222 | a byte with top bits `00`/`01`/`10` that is not in the table faults with `IllegalOpcode(pc, byte)` |
| Properties.StepNonTableValue | ls8/cpu.py:213-222 | a fetched value that is not a table opcode never runs a handler: the step either faults with `IllegalOpcode` or leaves the machine unchanged |
| Properties.StepTopQuarterIsNoOp | ls8/cpu.py:215-222 | a byte with top bits `11` makes a step that changes nothing |
| Properties.StepLdi | ls8/cpu.py:136-138 | LDI sets `reg[a] := b` and `pc := pc + 3`; nothing else changes |
| Properties.StepLdiBadRegister | ls8/cpu.py:137 | LDI naming register 8 or more faults with that index |
| Properties.StepPrn | ls8/cpu.py:140-142 | PRN emits `reg[a]` and advances `pc` by 2 |
| Properties.StepAdd | ls8/cpu.py:97-98 | ADD sets `reg[a] := reg[a] + reg[b]` and advances `pc` by 3; nothing else changes |
| Properties.StepMul | ls8/cpu.py:101-102 | MUL sets `reg[a] := reg[a] * reg[b]` and advances `pc` by 3; nothing else changes |
| Properties.StepHlt | ls8/cpu.py:152-154 | HLT clears `running`, advances `pc` by 1, and leaves registers and memory alone |
| Properties.StepPush | ls8/cpu.py:156-170 | PUSH decrements `reg[7]`, stores the register at the new stack address, advances `pc` by 2, and changes no other cell |
| Properties.StepPop | ls8/cpu.py:172-184 | POP loads the top cell into the register, raises the stack pointer, advances `pc` by 2, and leaves memory alone |
| Properties.StepCall | ls8/cpu.py:186-194 | CALL pushes `pc + 2` and sets `pc` to the value of the register named by the byte after the opcode, read after the push, with no generic increment |
| Properties.StepRet | ls8/cpu.py:196-202 | RET loads `pc` from the top cell and raises the stack pointer |
| Properties.PushPopRoundTrip | ls8/cpu.py:156-184 | PUSH r then POP r restores every register, `reg[7]` included, and moves `pc` by 4 in total |
| Properties.PopAfterPush | ls8/cpu.py:172-184 | the POP that follows a PUSH of the same register undoes it on the register file |
| Properties.CallRetRoundTrip | ls8/cpu.py:186-202 | CALL to a RET returns to CALL's `pc + 2` with every register, `reg[7]` included, restored |
| Properties.LdiPrnRoundTrip | ls8/cpu.py:136-142 | LDI r v then PRN r emits exactly `v` |
| Properties.RunAfterStep | ls8/cpu.py:206-222 | a running machine's run continues from the stepped machine with one unit of fuel less |
| Properties.RunAdditive | ls8/cpu.py:204-222 | running for `a + b` iterations is running `a`, then `b` more from where the first run stopped |
| Properties.RunStaysHalted | ls8/cpu.py:152-154 | once a run has halted, more fuel changes nothing |
| Properties.RunStopsOnlyWhenHaltedOrOutOfFuel | ls8/cpu.py:206 | a run that ends with the machine still running stopped only because fuel ran out: one more unit performs exactly one more step |
| Scenarios.HaltOnlyProgram | ls8/cpu.py:152-154 | a program of a single HLT halts after one iteration with registers and memory untouched |
| Scenarios.AddProgramPrintsSeventeen | ls8/cpu.py:136-154 | LDI R0,8; LDI R1,9; ADD R0,R1; PRN R0; HLT prints `[17]`, leaving R0 = 17 and R1 = 9 |
| Scenarios.MulProgramYieldsSeventyTwo | ls8/cpu.py:148-150 | MUL of 8 and 9 leaves 72 in the destination register |
| Scenarios.UnknownOpcodeFaults | ls8/cpu.py:215-216 | the byte 0 (top bits `00`, not in the table) stops the run with `IllegalOpcode(0, 0)` |

## Left out

- `load` (ls8/cpu.py:52-91): it reads a file named on the command line and exits the process on errors. `Cpu.Load` takes the already-decoded bytes instead.
- `trace` (ls8/cpu.py:109-127): diagnostic printing only.
- PRN's `print`: real output is not modelled. The printed value is appended to `out`.
- DIV (ls8/cpu.py:103-104): Python's `/` yields a float. No handler reaches it.
- The "Unsupported ALU operation" branch (ls8/cpu.py:105-106): the operation is a closed datatype (`Alu.AluOp`), so that branch cannot arise.
- Unbounded execution: `run` loops until HLT, forever for a program without one. `Cpu.Run` takes a fuel bound. `Properties.RunStopsOnlyWhenHaltedOrOutOfFuel` shows the bound is the only extra way it stops.
- The unused registers `ir`, `mar`, `mdr` and `fl` (ls8/cpu.py:41-44).
- A fault ends the run without returning the partly updated machine. In the source the exception ends the process, so that state is never observed.
- Properties.StepCall: stated for a stack pointer in `1..256` and a register number from 0 to 7. A negative register number or stack address wraps as in `Cpu.Call`, whose contract covers those cases.
- Properties.PushPopRoundTrip: stated for register numbers 0 to 7, a stack pointer in `1..256`, and a pushed cell that does not overlay the POP instruction. Outside these, Python's index wrap-around or self-modifying stores change the outcome.
- Properties.CallRetRoundTrip: stated for register numbers 0 to 7, a stack pointer in `1..256`, a stack cell other than CALL's operand byte, and a RET at the target address.

## Findings

| source | as written | input that shows it | evidently intended | confidence | as-written member | corrected member |
|---|---|---|---|---|---|---|
| ls8/cpu.py:131 | `if i >= 1 & i <= 3:` parses as `i >= (1 & i) <= 3`, because `&` binds tighter than comparisons and comparisons chain. So every `i >= 0` is accepted. | `incrementPC(0)` or `incrementPC(4)` moves the program counter instead of raising "Unsupported 'i' value" | only `1 <= i <= 3` is accepted | high (not executed) | IncrementGuard.GuardAsWrittenAdmitsZeroAndFour | Cpu.IncrementPC |

The handlers only ever pass 1, 2 or 3 (`IncrementGuard.GuardsAgreeOnInstructionWidths`), so the machine's behaviour is the same under either guard.
