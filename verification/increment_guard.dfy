/** The guard of `incrementPC` as the Python code writes it. The condition
    `i >= 1 & i <= 3` is parsed by Python as `i >= (1 & i) <= 3` (bitwise `&`
    binds tighter than comparisons, and comparisons chain), that is
    `i >= (1 & i) and (1 & i) <= 3`. That accepts every non-negative width, not
    just 1 to 3 as the "Unsupported 'i' value" error intends. `Cpu.IncrementPC`
    is the corrected definition the handlers use. */
module IncrementGuard {
  import opened Results
  import opened Faults
  import Cpu

  /** Python's `1 & i`: the lowest bit of `i` in two's complement, which is
      also the non-negative remainder of `i` by 2. */
  function LowBit(i: int): (b: int)
    ensures b == 0 || b == 1
    ensures (i - b) % 2 == 0
  {
    i % 2
  }

  /** `i >= 1 & i <= 3` as Python evaluates it. */
  predicate GuardAsWritten(i: int)
    ensures GuardAsWritten(i) <==> i >= 0
  {
    i >= LowBit(i) && LowBit(i) <= 3
  }

  /** `incrementPC` exactly as written. */
  function IncrementPCAsWritten(m: Cpu.Machine, width: int): (r: Result<Cpu.Machine, Fault>)
    ensures r.Ok? <==> width >= 0
    ensures r.Ok? ==> r.value == m.(pc := m.pc + width)
    ensures r.Err? ==> r.error == UnsupportedIncrement(width)
  {
    if GuardAsWritten(width) then Ok(m.(pc := m.pc + width)) else Err(UnsupportedIncrement(width))
  }

  /** The widths 0 and 4 pass the guard as written and move the program
      counter, where the corrected guard refuses them. */
  lemma GuardAsWrittenAdmitsZeroAndFour(m: Cpu.Machine)
    ensures GuardAsWritten(0) && GuardAsWritten(4)
    ensures IncrementPCAsWritten(m, 0) == Ok(m)
    ensures IncrementPCAsWritten(m, 4) == Ok(m.(pc := m.pc + 4))
    ensures Cpu.IncrementPC(m, 0) == Err(UnsupportedIncrement(0))
    ensures Cpu.IncrementPC(m, 4) == Err(UnsupportedIncrement(4))
  {
  }

  /** On the widths the handlers use, the two guards agree, so the defect never
      shows in a running machine. */
  lemma GuardsAgreeOnInstructionWidths(m: Cpu.Machine, width: int)
    requires 1 <= width <= 3
    ensures IncrementPCAsWritten(m, width) == Cpu.IncrementPC(m, width)
  {
  }
}
