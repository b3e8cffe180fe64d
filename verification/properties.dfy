/** What one step of the machine does for each opcode, the stack round trips,
    and how the bounded loop behaves. */
module Properties {
  import opened Results
  import opened Faults
  import opened Decoder
  import opened Isa
  import opened Cpu

  /** The opcode and both operand bytes lie inside memory at non-negative
      addresses, so the fetch succeeds without wrapping. */
  predicate FetchInBounds(m: Machine) {
    0 <= m.pc && m.pc + 2 < RAM_SIZE
  }

  /** A register number that names one of the eight registers directly. */
  predicate IsRegister(r: int) {
    0 <= r < REG_COUNT
  }

  /** Fetching a table opcode runs its handler on the two bytes after it. */
  lemma StepRunsHandler(m: Machine, op: Op)
    requires WellShaped(m) && FetchInBounds(m)
    requires m.ram[m.pc] == Opcode(op)
    ensures Step(m) == Execute(op, m, m.ram[m.pc + 1], m.ram[m.pc + 2])
  {
    DecodeMatchesHandler(op);
    BranchTableIsOpcodes();
  }

  /** A byte whose top bits are `00`, `01` or `10` but that is not in the table
      is reported as an illegal opcode at the current address. */
  lemma StepIllegalOpcode(m: Machine)
    requires WellShaped(m) && FetchInBounds(m)
    requires 0 <= m.ram[m.pc] < 192 && m.ram[m.pc] !in BranchTable
    ensures Step(m) == Err(IllegalOpcode(m.pc, m.ram[m.pc]))
  {
  }

  /** Whatever value is fetched, if it is not a table opcode the step either
      faults with an illegal opcode or leaves the machine exactly as it was;
      it never runs a handler. */
  lemma StepNonTableValue(m: Machine)
    requires WellShaped(m) && FetchInBounds(m)
    requires m.ram[m.pc] !in BranchTable
    ensures Step(m) == Ok(m) || Step(m) == Err(IllegalOpcode(m.pc, m.ram[m.pc]))
  {
  }

  /** A byte whose top bits are `11` is not dispatched: the step is a no-op. */
  lemma StepTopQuarterIsNoOp(m: Machine)
    requires WellShaped(m) && FetchInBounds(m)
    requires 192 <= m.ram[m.pc] < 256
    ensures Step(m) == Ok(m)
  {
  }

  /** LDI: register `a` receives the byte `b`, `pc` advances by 3, nothing
      else changes. */
  lemma StepLdi(m: Machine)
    requires WellShaped(m) && FetchInBounds(m)
    requires m.ram[m.pc] == OP_LDI && IsRegister(m.ram[m.pc + 1])
    ensures Step(m) == Ok(m.(reg := m.reg[m.ram[m.pc + 1] := m.ram[m.pc + 2]], pc := m.pc + 3))
  {
    LdiEffect(m, m.ram[m.pc + 1], m.ram[m.pc + 2]);
    StepRunsHandler(m, LDI);
  }

  lemma LdiEffect(m: Machine, a: int, b: int)
    requires WellShaped(m) && IsRegister(a)
    ensures Ldi(m, a, b) == Ok(m.(reg := m.reg[a := b], pc := m.pc + 3))
  {
    var r := Ldi(m, a, b).value;
    assert r.reg == m.reg[a := b];
  }

  /** LDI naming a register outside the register file fails with the index. */
  lemma StepLdiBadRegister(m: Machine)
    requires WellShaped(m) && FetchInBounds(m)
    requires m.ram[m.pc] == OP_LDI && m.ram[m.pc + 1] >= REG_COUNT
    ensures Step(m) == Err(IndexError(Registers, m.ram[m.pc + 1]))
  {
    StepRunsHandler(m, LDI);
  }

  /** PRN: the register's value is emitted, `pc` advances by 2. */
  lemma StepPrn(m: Machine)
    requires WellShaped(m) && FetchInBounds(m)
    requires m.ram[m.pc] == OP_PRN && IsRegister(m.ram[m.pc + 1])
    ensures Step(m) == Ok(m.(out := m.out + [m.reg[m.ram[m.pc + 1]]], pc := m.pc + 2))
  {
    assert Prn(m, m.ram[m.pc + 1]) == Ok(m.(out := m.out + [m.reg[m.ram[m.pc + 1]]], pc := m.pc + 2));
    StepRunsHandler(m, PRN);
  }

  lemma ArithEffect(op: Alu.AluOp, m: Machine, a: int, b: int)
    requires WellShaped(m) && IsRegister(a) && IsRegister(b)
    ensures Arith(op, m, a, b) == Ok(m.(reg := m.reg[a := Alu.Apply(op, m.reg[a], m.reg[b])], pc := m.pc + 3))
  {
    var r := Arith(op, m, a, b).value;
    assert r.reg == m.reg[a := r.reg[a]];
  }

  /** ADD: `reg[a] := reg[a] + reg[b]`, `pc` advances by 3, nothing else changes. */
  lemma StepAdd(m: Machine)
    requires WellShaped(m) && FetchInBounds(m)
    requires m.ram[m.pc] == OP_ADD && IsRegister(m.ram[m.pc + 1]) && IsRegister(m.ram[m.pc + 2])
    ensures
      var a := m.ram[m.pc + 1];
      var b := m.ram[m.pc + 2];
      Step(m) == Ok(m.(reg := m.reg[a := m.reg[a] + m.reg[b]], pc := m.pc + 3))
  {
    ArithEffect(Alu.Add, m, m.ram[m.pc + 1], m.ram[m.pc + 2]);
    StepRunsHandler(m, ADD);
  }

  /** MUL: `reg[a] := reg[a] * reg[b]`, `pc` advances by 3, nothing else changes. */
  lemma StepMul(m: Machine)
    requires WellShaped(m) && FetchInBounds(m)
    requires m.ram[m.pc] == OP_MUL && IsRegister(m.ram[m.pc + 1]) && IsRegister(m.ram[m.pc + 2])
    ensures
      var a := m.ram[m.pc + 1];
      var b := m.ram[m.pc + 2];
      Step(m) == Ok(m.(reg := m.reg[a := m.reg[a] * m.reg[b]], pc := m.pc + 3))
  {
    ArithEffect(Alu.Mul, m, m.ram[m.pc + 1], m.ram[m.pc + 2]);
    StepRunsHandler(m, MUL);
  }

  /** HLT: the running flag drops and `pc` advances by 1; registers, memory and
      output stay as they were. */
  lemma StepHlt(m: Machine)
    requires WellShaped(m) && FetchInBounds(m)
    requires m.ram[m.pc] == OP_HLT
    ensures Step(m) == Ok(m.(running := false, pc := m.pc + 1))
  {
    assert Hlt(m) == Ok(m.(running := false, pc := m.pc + 1));
    StepRunsHandler(m, HLT);
  }

  /** PUSH r: the stack pointer drops by one and the cell it now addresses
      receives `reg[r]` (read after the decrement); no other cell changes. */
  lemma StepPush(m: Machine)
    requires WellShaped(m) && FetchInBounds(m)
    requires m.ram[m.pc] == OP_PUSH && IsRegister(m.ram[m.pc + 1])
    requires 1 <= m.reg[SP] <= RAM_SIZE
    ensures
      var sp := m.reg[SP] - 1;
      var reg := m.reg[SP := sp];
      Step(m) == Ok(m.(reg := reg, ram := m.ram[sp := reg[m.ram[m.pc + 1]]], pc := m.pc + 2))
  {
    PushEffect(m, m.ram[m.pc + 1]);
    StepRunsHandler(m, PUSH);
  }

  lemma PushEffect(m: Machine, operand: int)
    requires WellShaped(m) && 0 <= m.pc && m.pc + 1 < RAM_SIZE && IsRegister(m.ram[m.pc + 1])
    requires 1 <= m.reg[SP] <= RAM_SIZE
    ensures
      var sp := m.reg[SP] - 1;
      var reg := m.reg[SP := sp];
      Push(m, operand) == Ok(m.(reg := reg, ram := m.ram[sp := reg[m.ram[m.pc + 1]]], pc := m.pc + 2))
  {
    var sp := m.reg[SP] - 1;
    var r := Push(m, operand).value;
    assert r.ram == m.ram[sp := r.ram[sp]];
  }

  /** POP r: `reg[r]` receives the cell the stack pointer addresses, then the
      stack pointer (read again) rises by one; memory does not change. */
  lemma StepPop(m: Machine)
    requires WellShaped(m) && FetchInBounds(m)
    requires m.ram[m.pc] == OP_POP && IsRegister(m.ram[m.pc + 1])
    requires 0 <= m.reg[SP] < RAM_SIZE
    ensures
      var reg := m.reg[m.ram[m.pc + 1] := m.ram[m.reg[SP]]];
      Step(m) == Ok(m.(reg := reg[SP := reg[SP] + 1], pc := m.pc + 2))
  {
    PopEffect(m, m.ram[m.pc + 1]);
    StepRunsHandler(m, POP);
  }

  lemma PopEffect(m: Machine, operand: int)
    requires WellShaped(m) && 0 <= m.pc && m.pc + 1 < RAM_SIZE && IsRegister(m.ram[m.pc + 1])
    requires 0 <= m.reg[SP] < RAM_SIZE
    ensures
      var reg := m.reg[m.ram[m.pc + 1] := m.ram[m.reg[SP]]];
      Pop(m, operand) == Ok(m.(reg := reg[SP := reg[SP] + 1], pc := m.pc + 2))
  {
  }

  /** CALL r: the return address `pc + 2` goes onto the stack and `pc` takes the
      value of the register named by the byte after the opcode, read after the
      push (so a push onto that byte makes it name `pc + 2`), with no increment
      on top. */
  lemma StepCall(m: Machine)
    requires WellShaped(m) && FetchInBounds(m)
    requires m.ram[m.pc] == OP_CALL
    requires 1 <= m.reg[SP] <= RAM_SIZE
    requires IsRegister(m.ram[m.reg[SP] - 1 := m.pc + 2][m.pc + 1])
    ensures
      var sp := m.reg[SP] - 1;
      var reg := m.reg[SP := sp];
      var ram := m.ram[sp := m.pc + 2];
      Step(m) == Ok(m.(reg := reg, ram := ram, pc := reg[ram[m.pc + 1]]))
  {
    CallEffect(m, m.ram[m.pc + 1]);
    StepRunsHandler(m, CALL);
  }

  lemma CallEffect(m: Machine, operand: int)
    requires WellShaped(m) && 0 <= m.pc && m.pc + 1 < RAM_SIZE
    requires 1 <= m.reg[SP] <= RAM_SIZE
    requires IsRegister(m.ram[m.reg[SP] - 1 := m.pc + 2][m.pc + 1])
    ensures
      var sp := m.reg[SP] - 1;
      var reg := m.reg[SP := sp];
      var ram := m.ram[sp := m.pc + 2];
      Call(m, operand) == Ok(m.(reg := reg, ram := ram, pc := reg[ram[m.pc + 1]]))
  {
    var sp := m.reg[SP] - 1;
    var r := Call(m, operand).value;
    assert r.ram == m.ram[sp := m.pc + 2];
  }

  /** RET: `pc` takes the cell the stack pointer addresses and the stack
      pointer rises by one. */
  lemma StepRet(m: Machine)
    requires WellShaped(m) && FetchInBounds(m)
    requires m.ram[m.pc] == OP_RET
    requires 0 <= m.reg[SP] < RAM_SIZE
    ensures Step(m) == Ok(m.(reg := m.reg[SP := m.reg[SP] + 1], pc := m.ram[m.reg[SP]]))
  {
    assert Ret(m) == Ok(m.(reg := m.reg[SP := m.reg[SP] + 1], pc := m.ram[m.reg[SP]]));
    StepRunsHandler(m, RET);
  }

  /** PUSH r then POP r restores every register, the stack pointer included,
      and leaves `pc` four bytes on. The only trace is the pushed value in the
      stack cell below the original stack pointer. The pushed cell must not
      overlay the POP instruction itself. */
  lemma PushPopRoundTrip(m: Machine)
    requires WellShaped(m)
    requires 0 <= m.pc && m.pc + 4 < RAM_SIZE
    requires m.ram[m.pc] == OP_PUSH && m.ram[m.pc + 2] == OP_POP
    requires IsRegister(m.ram[m.pc + 1]) && m.ram[m.pc + 3] == m.ram[m.pc + 1]
    requires 1 <= m.reg[SP] <= RAM_SIZE
    requires m.reg[SP] - 1 != m.pc + 2 && m.reg[SP] - 1 != m.pc + 3
    ensures Step(m).Ok? && Step(Step(m).value).Ok?
    ensures
      var sp := m.reg[SP] - 1;
      var pushed := m.reg[SP := sp][m.ram[m.pc + 1]];
      Step(Step(m).value).value == m.(ram := m.ram[sp := pushed], pc := m.pc + 4)
  {
    var r := m.ram[m.pc + 1];
    var sp := m.reg[SP] - 1;
    var reg1 := m.reg[SP := sp];
    var m1 := m.(reg := reg1, ram := m.ram[sp := reg1[r]], pc := m.pc + 2);
    StepPush(m);
    assert Step(m) == Ok(m1);
    PopAfterPush(m, m1, r, sp);
  }

  /** The POP half of `PushPopRoundTrip`, on the machine PUSH left behind. */
  lemma PopAfterPush(m: Machine, m1: Machine, r: int, sp: int)
    requires WellShaped(m) && 0 <= m.pc && m.pc + 4 < RAM_SIZE
    requires m.ram[m.pc + 2] == OP_POP && m.ram[m.pc + 3] == r && IsRegister(r)
    requires 0 <= sp < RAM_SIZE && sp == m.reg[SP] - 1 && sp != m.pc + 2 && sp != m.pc + 3
    requires m1 == m.(reg := m.reg[SP := sp], ram := m.ram[sp := m.reg[SP := sp][r]], pc := m.pc + 2)
    ensures Step(m1) == Ok(m.(ram := m1.ram, pc := m.pc + 4))
  {
    assert WellShaped(m1) && FetchInBounds(m1);
    assert m1.ram[m1.pc] == OP_POP && m1.ram[m1.pc + 1] == r;
    StepPop(m1);
    var popped := m1.reg[r := m1.ram[sp]];
    assert popped[SP := popped[SP] + 1] == m.reg;
  }

  /** CALL r to an address holding RET comes back to `pc + 2`, the byte after
      CALL's operand, with every register, the stack pointer included,
      restored. The return address stays behind in the stack cell. */
  lemma CallRetRoundTrip(m: Machine)
    requires WellShaped(m) && FetchInBounds(m)
    requires m.ram[m.pc] == OP_CALL && IsRegister(m.ram[m.pc + 1])
    requires 1 <= m.reg[SP] <= RAM_SIZE
    requires m.reg[SP] - 1 != m.pc + 1
    requires
      var sp := m.reg[SP] - 1;
      var target := m.reg[SP := sp][m.ram[m.pc + 1]];
      && 0 <= target && target + 2 < RAM_SIZE
      && m.ram[sp := m.pc + 2][target] == OP_RET
    ensures Step(m).Ok? && Step(m).value.pc == m.reg[SP := m.reg[SP] - 1][m.ram[m.pc + 1]]
    ensures Step(Step(m).value).Ok?
    ensures Step(Step(m).value).value == m.(ram := m.ram[m.reg[SP] - 1 := m.pc + 2], pc := m.pc + 2)
  {
    var sp := m.reg[SP] - 1;
    var reg := m.reg[SP := sp];
    var ram := m.ram[sp := m.pc + 2];
    assert ram[m.pc + 1] == m.ram[m.pc + 1];
    var m1 := m.(reg := reg, ram := ram, pc := reg[m.ram[m.pc + 1]]);
    StepCall(m);
    assert Step(m) == Ok(m1);
    StepRet(m1);
    assert m1.reg[SP := m1.reg[SP] + 1] == m.reg;
  }

  /** LDI r v then PRN r emits exactly `v`. */
  lemma LdiPrnRoundTrip(m: Machine)
    requires WellShaped(m)
    requires 0 <= m.pc && m.pc + 5 < RAM_SIZE
    requires m.ram[m.pc] == OP_LDI && m.ram[m.pc + 3] == OP_PRN
    requires IsRegister(m.ram[m.pc + 1]) && m.ram[m.pc + 4] == m.ram[m.pc + 1]
    ensures Step(m).Ok? && Step(Step(m).value).Ok?
    ensures Step(Step(m).value).value.out == m.out + [m.ram[m.pc + 2]]
  {
    var r := m.ram[m.pc + 1];
    var v := m.ram[m.pc + 2];
    var m1 := m.(reg := m.reg[r := v], pc := m.pc + 3);
    StepLdi(m);
    assert Step(m) == Ok(m1);
    EmitAfterLoad(m1, r, v);
  }

  /** The PRN half of `LdiPrnRoundTrip`. */
  lemma EmitAfterLoad(m1: Machine, r: int, v: int)
    requires WellShaped(m1) && FetchInBounds(m1) && IsRegister(r)
    requires m1.ram[m1.pc] == OP_PRN && m1.ram[m1.pc + 1] == r && m1.reg[r] == v
    ensures Step(m1).Ok? && Step(m1).value.out == m1.out + [v]
  {
    StepPrn(m1);
  }

  /** A running machine whose step succeeds continues the run from the
      stepped machine with one unit of fuel less. */
  lemma RunAfterStep(m: Machine, m1: Machine, fuel: nat)
    requires WellShaped(m) && m.running && Step(m) == Ok(m1)
    ensures Run(m, fuel + 1) == Run(m1, fuel)
  {
  }

  /** More fuel never undoes a run: running `a + b` iterations is running `a`
      and then `b` more from where the first run stopped. */
  lemma {:induction false} RunAdditive(m: Machine, a: nat, b: nat)
    requires WellShaped(m)
    ensures Run(m, a + b) == (match Run(m, a) case Ok(t) => Run(t, b) case Err(e) => Err(e))
    decreases a
  {
    if a == 0 || !m.running {
    } else {
      match Step(m)
      case Err(_) =>
      case Ok(m1) =>
        RunAdditive(m1, a - 1, b);
        assert a + b - 1 == (a - 1) + b;
    }
  }

  /** Once a run has halted, more fuel leaves the outcome unchanged. */
  lemma RunStaysHalted(m: Machine, fuel: nat, extra: nat)
    requires WellShaped(m)
    requires Run(m, fuel).Ok? && !Run(m, fuel).value.running
    ensures Run(m, fuel + extra) == Run(m, fuel)
  {
    RunAdditive(m, fuel, extra);
  }

  /** A run that ends with the machine still running stopped only because the
      fuel ran out: one more unit of fuel performs exactly one more step. */
  lemma RunStopsOnlyWhenHaltedOrOutOfFuel(m: Machine, fuel: nat)
    requires WellShaped(m)
    requires Run(m, fuel).Ok? && Run(m, fuel).value.running
    ensures Run(m, fuel + 1) == Step(Run(m, fuel).value)
  {
    RunAdditive(m, fuel, 1);
    var t := Run(m, fuel).value;
    match Step(t)
    case Err(_) =>
    case Ok(t1) =>
      assert Run(t1, 0) == Ok(t1);
  }
}
