/** The LS-8 CPU: its state, the memory and register primitives, the nine
    instruction handlers, one iteration of the fetch-decode-execute loop
    (`Step`) and a fuel-bounded loop (`Run`). */
module Cpu {
  import opened Results
  import opened Faults
  import PyList
  import opened Decoder
  import opened Isa
  import Alu

  const RAM_SIZE: nat := 256
  const REG_COUNT: nat := 8
  /** The register that holds the stack pointer. */
  const SP: nat := 7
  /** The stack pointer's initial value; the stack grows down from here. */
  const STACK_START: int := 0xF4

  /** The machine state. `out` collects what PRN prints, in order. Cells and
      registers hold unbounded integers, as Python's do. */
  datatype Machine = Machine(ram: seq<int>, reg: seq<int>, pc: int, running: bool, out: seq<int>)

  /** 256 memory cells and 8 registers: the constructor allocates these and no
      operation changes a list's length. */
  predicate WellShaped(m: Machine) {
    |m.ram| == RAM_SIZE && |m.reg| == REG_COUNT
  }

  /** `x` and `y` have the same length and agree everywhere except possibly at `k`. */
  predicate AgreeExcept(x: seq<int>, y: seq<int>, k: int) {
    |x| == |y| && forall i :: 0 <= i < |x| && i != k ==> x[i] == y[i]
  }

  /** The machine as the constructor leaves it. */
  function Init(): (m: Machine)
    ensures WellShaped(m)
    ensures forall i :: 0 <= i < RAM_SIZE ==> m.ram[i] == 0
    ensures forall i :: 0 <= i < REG_COUNT && i != SP ==> m.reg[i] == 0
    ensures m.reg[SP] == STACK_START
    ensures m.pc == 0 && m.running && m.out == []
  {
    Machine(seq(RAM_SIZE, _ => 0), seq(REG_COUNT, _ => 0)[SP := STACK_START], 0, true, [])
  }

  /** A fresh machine with `program` placed from address 0 on, which is what
      the loader hands to the loop. */
  function Load(program: seq<int>): (m: Machine)
    requires |program| <= RAM_SIZE
    ensures WellShaped(m)
    ensures m.ram[..|program|] == program
    ensures forall i :: |program| <= i < RAM_SIZE ==> m.ram[i] == 0
    ensures m.(ram := Init().ram) == Init()
  {
    Init().(ram := program + seq(RAM_SIZE - |program|, _ => 0))
  }

  /** `ram_read`: Python list indexing on memory. */
  function RamRead(m: Machine, address: int): (r: Result<int, Fault>)
    requires WellShaped(m)
    ensures r.Ok? <==> PyList.InRange(RAM_SIZE, address)
    ensures r.Ok? ==> r.value == m.ram[PyList.Slot(RAM_SIZE, address)]
    ensures r.Err? ==> r.error == IndexError(Ram, address)
  {
    PyList.Get(m.ram, address).ToResult(IndexError(Ram, address))
  }

  /** `ram_write`: one memory cell changes, nothing else. */
  function RamWrite(m: Machine, address: int, value: int): (r: Result<Machine, Fault>)
    requires WellShaped(m)
    ensures r.Ok? <==> PyList.InRange(RAM_SIZE, address)
    ensures r.Err? ==> r.error == IndexError(Ram, address)
    ensures r.Ok? ==>
      var k := PyList.Slot(RAM_SIZE, address);
      && WellShaped(r.value)
      && r.value.ram[k] == value
      && AgreeExcept(r.value.ram, m.ram, k)
      && r.value.(ram := m.ram) == m
  {
    var ram :- PyList.Set(m.ram, address, value).ToResult(IndexError(Ram, address));
    Ok(m.(ram := ram))
  }

  /** `reg[i]` */
  function RegRead(m: Machine, i: int): (r: Result<int, Fault>)
    requires WellShaped(m)
    ensures r.Ok? <==> PyList.InRange(REG_COUNT, i)
    ensures r.Ok? ==> r.value == m.reg[PyList.Slot(REG_COUNT, i)]
    ensures r.Err? ==> r.error == IndexError(Registers, i)
  {
    PyList.Get(m.reg, i).ToResult(IndexError(Registers, i))
  }

  /** `reg[i] = value`: one register changes, nothing else. */
  function RegWrite(m: Machine, i: int, value: int): (r: Result<Machine, Fault>)
    requires WellShaped(m)
    ensures r.Ok? <==> PyList.InRange(REG_COUNT, i)
    ensures r.Err? ==> r.error == IndexError(Registers, i)
    ensures r.Ok? ==>
      var k := PyList.Slot(REG_COUNT, i);
      && WellShaped(r.value)
      && r.value.reg[k] == value
      && AgreeExcept(r.value.reg, m.reg, k)
      && r.value.(reg := m.reg) == m
  {
    var reg :- PyList.Set(m.reg, i, value).ToResult(IndexError(Registers, i));
    Ok(m.(reg := reg))
  }

  /** `reg[SP] = sp`: the stack-pointer register always exists, so this write
      cannot fail. */
  function WithSp(m: Machine, sp: int): (r: Machine)
    requires WellShaped(m)
    ensures WellShaped(r)
    ensures r.reg[SP] == sp && AgreeExcept(r.reg, m.reg, SP)
    ensures r.(reg := m.reg) == m
  {
    m.(reg := m.reg[SP := sp])
  }

  /** `incrementPC`, with the guard the error message describes: only the
      instruction widths 1, 2 and 3 are accepted. The guard as the Python code
      writes it is modelled in module `IncrementGuard`. */
  function IncrementPC(m: Machine, width: int): (r: Result<Machine, Fault>)
    ensures r.Ok? <==> 1 <= width <= 3
    ensures r.Ok? ==> r.value == m.(pc := m.pc + width)
    ensures r.Err? ==> r.error == UnsupportedIncrement(width)
  {
    if 1 <= width <= 3 then Ok(m.(pc := m.pc + width)) else Err(UnsupportedIncrement(width))
  }

  /** LDI a b: register `a` receives the immediate `b`; the instruction is
      three bytes wide. */
  function Ldi(m: Machine, a: int, b: int): (r: Result<Machine, Fault>)
    requires WellShaped(m)
    ensures r.Ok? <==> PyList.InRange(REG_COUNT, a)
    ensures r.Err? ==> r.error == IndexError(Registers, a)
    ensures r.Ok? ==>
      var k := PyList.Slot(REG_COUNT, a);
      && WellShaped(r.value)
      && r.value.reg[k] == b
      && AgreeExcept(r.value.reg, m.reg, k)
      && r.value.pc == m.pc + 3
      && r.value.(reg := m.reg, pc := m.pc) == m
  {
    var m1 :- RegWrite(m, a, b);
    IncrementPC(m1, 3)
  }

  /** PRN a: the value of register `a` is emitted (appended to `out`). */
  function Prn(m: Machine, a: int): (r: Result<Machine, Fault>)
    requires WellShaped(m)
    ensures r.Ok? <==> PyList.InRange(REG_COUNT, a)
    ensures r.Err? ==> r.error == IndexError(Registers, a)
    ensures r.Ok? ==>
      && r.value.out == m.out + [m.reg[PyList.Slot(REG_COUNT, a)]]
      && r.value.pc == m.pc + 2
      && r.value.(out := m.out, pc := m.pc) == m
  {
    var v :- RegRead(m, a);
    IncrementPC(m.(out := m.out + [v]), 2)
  }

  /** The shared shape of ADD and MUL: the ALU updates register `a`, and the
      instruction is three bytes wide. */
  function Arith(op: Alu.AluOp, m: Machine, a: int, b: int): (r: Result<Machine, Fault>)
    requires WellShaped(m)
    ensures r.Ok? <==> PyList.InRange(REG_COUNT, a) && PyList.InRange(REG_COUNT, b)
    ensures r.Err? ==> r.error == IndexError(Registers, if PyList.InRange(REG_COUNT, a) then b else a)
    ensures r.Ok? ==>
      var da := PyList.Slot(REG_COUNT, a);
      var sb := PyList.Slot(REG_COUNT, b);
      && WellShaped(r.value)
      && r.value.reg[da] == Alu.Apply(op, m.reg[da], m.reg[sb])
      && AgreeExcept(r.value.reg, m.reg, da)
      && r.value.pc == m.pc + 3
      && r.value.(reg := m.reg, pc := m.pc) == m
  {
    var reg :- Alu.Compute(op, m.reg, a, b);
    IncrementPC(m.(reg := reg), 3)
  }

  /** HLT: clears the running flag; one byte wide. */
  function Hlt(m: Machine): (r: Result<Machine, Fault>)
    ensures r.Ok?
    ensures !r.value.running
    ensures r.value.pc == m.pc + 1
    ensures r.value.(running := m.running, pc := m.pc) == m
  {
    IncrementPC(m.(running := false), 1)
  }

  /** PUSH: the stack pointer moves down by one and the register named by the
      byte after the opcode is copied to the new top of stack. Like the
      Python code, the register number is re-read from memory rather than taken
      from the operand, and it is read after the stack pointer has moved. */
  function Push(m: Machine, register: int): (r: Result<Machine, Fault>)
    requires WellShaped(m)
    ensures r.Ok? ==>
      var sp := m.reg[SP] - 1;
      && WellShaped(r.value)
      && r.value.reg == m.reg[SP := sp]
      && PyList.InRange(RAM_SIZE, sp)
      && AgreeExcept(r.value.ram, m.ram, PyList.Slot(RAM_SIZE, sp))
      && r.value.pc == m.pc + 2
      && r.value.running == m.running && r.value.out == m.out
    ensures !PyList.InRange(RAM_SIZE, m.pc + 1) ==> r == Err(IndexError(Ram, m.pc + 1))
    ensures PyList.InRange(RAM_SIZE, m.pc + 1) ==>
      var src := m.ram[PyList.Slot(RAM_SIZE, m.pc + 1)];
      var sp := m.reg[SP] - 1;
      && (r.Ok? <==> PyList.InRange(REG_COUNT, src) && PyList.InRange(RAM_SIZE, sp))
      && (!PyList.InRange(REG_COUNT, src) ==> r == Err(IndexError(Registers, src)))
      && (PyList.InRange(REG_COUNT, src) && !PyList.InRange(RAM_SIZE, sp) ==> r == Err(IndexError(Ram, sp)))
      && (r.Ok? ==> r.value.ram[PyList.Slot(RAM_SIZE, sp)] == m.reg[SP := sp][PyList.Slot(REG_COUNT, src)])
  {
    var m1 := WithSp(m, m.reg[SP] - 1);
    var regNum :- RamRead(m1, m1.pc + 1);
    var value :- RegRead(m1, regNum);
    var m2 :- RamWrite(m1, m1.reg[SP], value);
    IncrementPC(m2, 2)
  }

  /** POP: the top of stack is copied into the register named by the byte
      after the opcode, then the stack pointer moves up by one (read again, so
      popping into the stack pointer itself counts from the popped value). */
  function Pop(m: Machine, register: int): (r: Result<Machine, Fault>)
    requires WellShaped(m)
    ensures r.Ok? ==>
      && WellShaped(r.value)
      && r.value.ram == m.ram
      && r.value.pc == m.pc + 2
      && r.value.running == m.running && r.value.out == m.out
    ensures !PyList.InRange(RAM_SIZE, m.pc + 1) ==> r == Err(IndexError(Ram, m.pc + 1))
    ensures PyList.InRange(RAM_SIZE, m.pc + 1) ==>
      var dst := m.ram[PyList.Slot(RAM_SIZE, m.pc + 1)];
      var sp := m.reg[SP];
      && (r.Ok? <==> PyList.InRange(RAM_SIZE, sp) && PyList.InRange(REG_COUNT, dst))
      && (!PyList.InRange(RAM_SIZE, sp) ==> r == Err(IndexError(Ram, sp)))
      && (PyList.InRange(RAM_SIZE, sp) && !PyList.InRange(REG_COUNT, dst) ==> r == Err(IndexError(Registers, dst)))
      && (r.Ok? ==>
            var d := PyList.Slot(REG_COUNT, dst);
            var popped := m.ram[PyList.Slot(RAM_SIZE, sp)];
            r.value.reg == m.reg[d := popped][SP := m.reg[d := popped][SP] + 1])
  {
    var regNum :- RamRead(m, m.pc + 1);
    var value :- RamRead(m, m.reg[SP]);
    var m1 :- RegWrite(m, regNum, value);
    var m2 := WithSp(m1, m1.reg[SP] + 1);
    IncrementPC(m2, 2)
  }

  /** CALL: the return address `pc + 2` is pushed, then control moves to the
      address held in the register named by the byte after the opcode. The
      program counter is set directly, without the generic increment. */
  function Call(m: Machine, register: int): (r: Result<Machine, Fault>)
    requires WellShaped(m)
    ensures r.Ok? ==>
      var sp := m.reg[SP] - 1;
      && WellShaped(r.value)
      && r.value.reg == m.reg[SP := sp]
      && PyList.InRange(RAM_SIZE, sp)
      && r.value.ram[PyList.Slot(RAM_SIZE, sp)] == m.pc + 2
      && AgreeExcept(r.value.ram, m.ram, PyList.Slot(RAM_SIZE, sp))
      && r.value.running == m.running && r.value.out == m.out
    ensures r.Ok? ==>
      && PyList.InRange(RAM_SIZE, m.pc + 1)
      && var target := r.value.ram[PyList.Slot(RAM_SIZE, m.pc + 1)];
      && PyList.InRange(REG_COUNT, target)
      && r.value.pc == r.value.reg[PyList.Slot(REG_COUNT, target)]
    ensures !PyList.InRange(RAM_SIZE, m.reg[SP] - 1) ==> r == Err(IndexError(Ram, m.reg[SP] - 1))
    ensures PyList.InRange(RAM_SIZE, m.reg[SP] - 1) && !PyList.InRange(RAM_SIZE, m.pc + 1) ==>
      r == Err(IndexError(Ram, m.pc + 1))
    ensures PyList.InRange(RAM_SIZE, m.reg[SP] - 1) && PyList.InRange(RAM_SIZE, m.pc + 1) ==>
      var pushed := m.ram[PyList.Slot(RAM_SIZE, m.reg[SP] - 1) := m.pc + 2];
      var regNum := pushed[PyList.Slot(RAM_SIZE, m.pc + 1)];
      && (r.Ok? <==> PyList.InRange(REG_COUNT, regNum))
      && (!PyList.InRange(REG_COUNT, regNum) ==> r == Err(IndexError(Registers, regNum)))
  {
    var m1 := WithSp(m, m.reg[SP] - 1);
    var m2 :- RamWrite(m1, m1.reg[SP], m.pc + 2);
    var regNum :- RamRead(m2, m2.pc + 1);
    var target :- RegRead(m2, regNum);
    Ok(m2.(pc := target))
  }

  /** RET: the return address is popped off the stack into the program
      counter. */
  function Ret(m: Machine): (r: Result<Machine, Fault>)
    requires WellShaped(m)
    ensures r.Ok? <==> PyList.InRange(RAM_SIZE, m.reg[SP])
    ensures r.Err? ==> r.error == IndexError(Ram, m.reg[SP])
    ensures r.Ok? ==>
      && r.value.pc == m.ram[PyList.Slot(RAM_SIZE, m.reg[SP])]
      && r.value.reg == m.reg[SP := m.reg[SP] + 1]
      && r.value.(reg := m.reg, pc := m.pc) == m
  {
    var retAddr :- RamRead(m, m.reg[SP]);
    Ok(WithSp(m, m.reg[SP] + 1).(pc := retAddr))
  }

  /** Runs the handler `op` with the operand bytes. Every handler receives both
      bytes and ignores the ones it does not take; `DecodeMatchesHandler`
      shows this is the same as passing as many as the opcode's class says. */
  function Execute(op: Op, m: Machine, a: int, b: int): (r: Result<Machine, Fault>)
    requires WellShaped(m)
    ensures r.Ok? ==> WellShaped(r.value)
    ensures r.Ok? ==> r.value.out == m.out || (op == PRN && |r.value.out| == |m.out| + 1 && m.out <= r.value.out)
  {
    match op
    case LDI => Ldi(m, a, b)
    case PRN => Prn(m, a)
    case ADD => Arith(Alu.Add, m, a, b)
    case MUL => Arith(Alu.Mul, m, a, b)
    case HLT => Hlt(m)
    case PUSH => Push(m, a)
    case POP => Pop(m, a)
    case CALL => Call(m, a)
    case RET => Ret(m)
  }

  /** One iteration of the run loop: fetch the opcode and the two bytes after
      it (all three reads happen whatever the opcode), classify the opcode by
      its top two bits, and dispatch. An opcode whose class is `11` (or that
      renders with a minus sign) is not dispatched at all and the step changes
      nothing; one whose class is `00`, `01` or `10` but that has no handler is
      an `IllegalOpcode`. */
  function Step(m: Machine): (r: Result<Machine, Fault>)
    requires WellShaped(m)
    ensures r.Ok? ==> WellShaped(r.value)
    ensures r.Ok? ==> m.out <= r.value.out && |r.value.out| <= |m.out| + 1
    ensures !PyList.InRange(RAM_SIZE, m.pc + 2) ==> r.Err?
  {
    var ir :- RamRead(m, m.pc);
    var a :- RamRead(m, m.pc + 1);
    var b :- RamRead(m, m.pc + 2);
    match OperandClass(ir)
    case None => Ok(m)
    case Some(_) =>
      if ir in BranchTable then Execute(BranchTable[ir], m, a, b)
      else Err(IllegalOpcode(m.pc, ir))
  }

  /** The run loop, cut off after `fuel` iterations: it steps while the
      running flag is set. A fault ends the run. */
  function Run(m: Machine, fuel: nat): (r: Result<Machine, Fault>)
    requires WellShaped(m)
    ensures r.Ok? ==> WellShaped(r.value)
    ensures r.Ok? ==> m.out <= r.value.out && |r.value.out| <= |m.out| + fuel
    ensures !m.running ==> r == Ok(m)
    decreases fuel
  {
    if !m.running || fuel == 0 then Ok(m)
    else
      var m1 :- Step(m);
      Run(m1, fuel - 1)
  }
}
