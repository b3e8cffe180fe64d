/** Whole programs run from a freshly loaded machine. */
module Scenarios {
  import opened Results
  import opened Isa
  import opened Cpu
  import opened Properties

  /** A program of a single HLT stops after one iteration, and that iteration
      touches neither registers nor memory. */
  lemma HaltOnlyProgram(fuel: nat)
    requires fuel >= 1
    ensures Run(Load([OP_HLT]), fuel) == Ok(Load([OP_HLT]).(running := false, pc := 1))
  {
    var m0 := Load([OP_HLT]);
    assert m0.ram[0] == OP_HLT;
    StepHlt(m0);
    var m1 := m0.(running := false, pc := 1);
    RunAfterStep(m0, m1, fuel - 1);
  }

  /** LDI R0,8; LDI R1,9; ADD R0,R1; PRN R0; HLT */
  const AddProgram: seq<int> := [OP_LDI, 0, 8, OP_LDI, 1, 9, OP_ADD, 0, 1, OP_PRN, 0, OP_HLT]

  /** The program prints 17 and halts with R0 = 17 and R1 still 9. */
  lemma AddProgramPrintsSeventeen()
    ensures Run(Load(AddProgram), 5).Ok?
    ensures
      var t := Run(Load(AddProgram), 5).value;
      && t.out == [17] && t.reg[0] == 17 && t.reg[1] == 9 && !t.running
  {
    var m0 := Load(AddProgram);
    var m1 := m0.(reg := m0.reg[0 := 8], pc := 3);
    var m2 := m1.(reg := m1.reg[1 := 9], pc := 6);
    var m3 := m2.(reg := m2.reg[0 := 17], pc := 9);
    var m4 := m3.(out := [17], pc := 11);
    var m5 := m4.(running := false, pc := 12);
    AddFirstLoad(m0, m1);
    AddSecondLoad(m0, m1, m2);
    AddTail(m0, m2, m3, m4, m5);
    RunAfterStep(m1, m2, 3);
    RunAfterStep(m0, m1, 4);
  }

  /** The last three instructions of the program: ADD, PRN, HLT. */
  lemma AddTail(m0: Machine, m2: Machine, m3: Machine, m4: Machine, m5: Machine)
    requires m0 == Load(AddProgram)
    requires m2 == m0.(reg := m0.reg[0 := 8][1 := 9], pc := 6)
    requires m3 == m2.(reg := m2.reg[0 := 17], pc := 9)
    requires m4 == m3.(out := [17], pc := 11)
    requires m5 == m4.(running := false, pc := 12)
    ensures WellShaped(m2) && Run(m2, 3) == Ok(m5)
    ensures m5.out == [17] && m5.reg[0] == 17 && m5.reg[1] == 9 && !m5.running
  {
    AddSum(m0, m2, m3);
    AddPrint(m0, m3, m4);
    AddHalt(m0, m4, m5);
    RunAfterStep(m4, m5, 0);
    RunAfterStep(m3, m4, 1);
    RunAfterStep(m2, m3, 2);
  }

  lemma AddProgramLoaded(m0: Machine)
    requires m0 == Load(AddProgram)
    ensures WellShaped(m0) && m0.pc == 0 && m0.running && m0.out == []
    ensures forall i :: 0 <= i < |AddProgram| ==> m0.ram[i] == AddProgram[i]
    ensures m0.reg[0] == 0 && m0.reg[1] == 0
  {
    assert m0.ram[..12] == AddProgram;
  }

  lemma AddFirstLoad(m0: Machine, m1: Machine)
    requires m0 == Load(AddProgram)
    requires m1 == m0.(reg := m0.reg[0 := 8], pc := 3)
    ensures WellShaped(m0) && m0.running && Step(m0) == Ok(m1)
  {
    AddProgramLoaded(m0);
    LoadsImmediate(m0, 0, 8);
  }

  lemma AddSecondLoad(m0: Machine, m1: Machine, m2: Machine)
    requires m0 == Load(AddProgram)
    requires m1 == m0.(reg := m0.reg[0 := 8], pc := 3)
    requires m2 == m1.(reg := m1.reg[1 := 9], pc := 6)
    ensures WellShaped(m1) && m1.running && Step(m1) == Ok(m2)
  {
    AddProgramLoaded(m0);
    LoadsImmediate(m1, 1, 9);
  }

  lemma AddSum(m0: Machine, m2: Machine, m3: Machine)
    requires m0 == Load(AddProgram)
    requires m2 == m0.(reg := m0.reg[0 := 8][1 := 9], pc := 6)
    requires m3 == m2.(reg := m2.reg[0 := 17], pc := 9)
    ensures WellShaped(m2) && m2.running && Step(m2) == Ok(m3)
  {
    AddProgramLoaded(m0);
    StepAdd(m2);
  }

  lemma AddPrint(m0: Machine, m3: Machine, m4: Machine)
    requires m0 == Load(AddProgram)
    requires m3 == m0.(reg := m0.reg[0 := 17][1 := 9], pc := 9)
    requires m4 == m3.(out := [17], pc := 11)
    ensures WellShaped(m3) && m3.running && Step(m3) == Ok(m4)
  {
    AddProgramLoaded(m0);
    assert m3.ram[9] == OP_PRN && m3.ram[10] == 0 && m3.reg[0] == 17 && m3.out == [];
    StepPrn(m3);
    assert m3.out + [m3.reg[m3.ram[m3.pc + 1]]] == [17];
  }

  lemma AddHalt(m0: Machine, m4: Machine, m5: Machine)
    requires m0 == Load(AddProgram)
    requires m4 == m0.(reg := m0.reg[0 := 17][1 := 9], out := [17], pc := 11)
    requires m5 == m4.(running := false, pc := 12)
    ensures WellShaped(m4) && m4.running && Step(m4) == Ok(m5)
    ensures m5.out == [17] && m5.reg[0] == 17 && m5.reg[1] == 9 && !m5.running
  {
    AddProgramLoaded(m0);
    StepHlt(m4);
  }

  /** An LDI at the current address that loads register `r` with `v`. */
  lemma LoadsImmediate(m: Machine, r: int, v: int)
    requires WellShaped(m) && FetchInBounds(m) && IsRegister(r)
    requires m.ram[m.pc] == OP_LDI && m.ram[m.pc + 1] == r && m.ram[m.pc + 2] == v
    ensures Step(m) == Ok(m.(reg := m.reg[r := v], pc := m.pc + 3))
  {
    StepLdi(m);
  }

  /** LDI R0,8; LDI R1,9; MUL R0,R1; HLT */
  const MulProgram: seq<int> := [OP_LDI, 0, 8, OP_LDI, 1, 9, OP_MUL, 0, 1, OP_HLT]

  /** MUL of 8 and 9 leaves 72 in the destination register. */
  lemma MulProgramYieldsSeventyTwo()
    ensures Run(Load(MulProgram), 4).Ok?
    ensures
      var t := Run(Load(MulProgram), 4).value;
      && t.reg[0] == 72 && t.reg[1] == 9 && !t.running && t.out == []
  {
    var m0 := Load(MulProgram);
    var m1 := m0.(reg := m0.reg[0 := 8], pc := 3);
    var m2 := m1.(reg := m1.reg[1 := 9], pc := 6);
    var m3 := m2.(reg := m2.reg[0 := 72], pc := 9);
    var m4 := m3.(running := false, pc := 10);
    MulFirstLoad(m0, m1);
    MulSecondLoad(m0, m1, m2);
    MulTail(m0, m2, m3, m4);
    RunAfterStep(m1, m2, 2);
    RunAfterStep(m0, m1, 3);
  }

  /** The last two instructions of the program: MUL, HLT. */
  lemma MulTail(m0: Machine, m2: Machine, m3: Machine, m4: Machine)
    requires m0 == Load(MulProgram)
    requires m2 == m0.(reg := m0.reg[0 := 8][1 := 9], pc := 6)
    requires m3 == m2.(reg := m2.reg[0 := 72], pc := 9)
    requires m4 == m3.(running := false, pc := 10)
    ensures WellShaped(m2) && Run(m2, 2) == Ok(m4)
    ensures m4.reg[0] == 72 && m4.reg[1] == 9 && !m4.running && m4.out == []
  {
    MulProduct(m0, m2, m3);
    MulHalt(m0, m3, m4);
    RunAfterStep(m3, m4, 0);
    RunAfterStep(m2, m3, 1);
  }

  lemma MulProgramLoaded(m0: Machine)
    requires m0 == Load(MulProgram)
    ensures WellShaped(m0) && m0.pc == 0 && m0.running && m0.out == []
    ensures forall i :: 0 <= i < |MulProgram| ==> m0.ram[i] == MulProgram[i]
  {
    assert m0.ram[..10] == MulProgram;
  }

  lemma MulFirstLoad(m0: Machine, m1: Machine)
    requires m0 == Load(MulProgram)
    requires m1 == m0.(reg := m0.reg[0 := 8], pc := 3)
    ensures WellShaped(m0) && m0.running && Step(m0) == Ok(m1)
  {
    MulProgramLoaded(m0);
    LoadsImmediate(m0, 0, 8);
  }

  lemma MulSecondLoad(m0: Machine, m1: Machine, m2: Machine)
    requires m0 == Load(MulProgram)
    requires m1 == m0.(reg := m0.reg[0 := 8], pc := 3)
    requires m2 == m1.(reg := m1.reg[1 := 9], pc := 6)
    ensures WellShaped(m1) && m1.running && Step(m1) == Ok(m2)
  {
    MulProgramLoaded(m0);
    LoadsImmediate(m1, 1, 9);
  }

  lemma MulProduct(m0: Machine, m2: Machine, m3: Machine)
    requires m0 == Load(MulProgram)
    requires m2 == m0.(reg := m0.reg[0 := 8][1 := 9], pc := 6)
    requires m3 == m2.(reg := m2.reg[0 := 72], pc := 9)
    ensures WellShaped(m2) && m2.running && Step(m2) == Ok(m3)
  {
    MulProgramLoaded(m0);
    StepMul(m2);
    assert m2.reg[0 := 72] == m2.reg[0 := m2.reg[0] * m2.reg[1]];
  }

  lemma MulHalt(m0: Machine, m3: Machine, m4: Machine)
    requires m0 == Load(MulProgram)
    requires m3 == m0.(reg := m0.reg[0 := 72][1 := 9], pc := 9)
    requires m4 == m3.(running := false, pc := 10)
    ensures WellShaped(m3) && m3.running && Step(m3) == Ok(m4)
    ensures m4.reg[0] == 72 && m4.reg[1] == 9 && !m4.running && m4.out == []
  {
    MulProgramLoaded(m0);
    StepHlt(m3);
  }

  /** A byte with top bits `00` that is not in the table (here 0) stops the run
      with an illegal-opcode fault naming the address and the byte. */
  lemma UnknownOpcodeFaults()
    ensures Run(Load([0x00]), 1) == Err(Faults.IllegalOpcode(0, 0))
  {
    var m0 := Load([0x00]);
    assert m0.ram[0] == 0;
    StepIllegalOpcode(m0);
  }
}
